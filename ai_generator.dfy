/**
 * The AI quiz generator: a three-step wizard (topic, subtopic,
 * configuration) whose last step asks the quiz store for a generated quiz.
 */
module AiGenerator {
  import opened QuizModel
  import opened QuizRepository

  /** The subtopics listed under each catalogue topic; none for a name outside the catalogue. */
  function Subtopics(topic: string): seq<string> {
    if topic == "Anatomy" then
      ["Human Anatomy", "Cardiovascular System", "Respiratory System", "Nervous System", "Muscular System"]
    else if topic == "Physiology" then
      ["Cell Physiology", "Cardiovascular Physiology", "Respiratory Physiology", "Renal Physiology", "Endocrine System"]
    else if topic == "Pharmacology" then
      ["Drug Mechanisms", "Cardiovascular Drugs", "Antibiotics", "CNS Drugs", "Drug Interactions"]
    else if topic == "Pathology" then
      ["General Pathology", "Systemic Pathology", "Clinical Pathology", "Immunopathology", "Molecular Pathology"]
    else if topic == "Microbiology" then
      ["Bacteriology", "Virology", "Mycology", "Parasitology", "Immunology"]
    else if topic == "Biochemistry" then
      ["Protein Structure", "Enzyme Kinetics", "Metabolism", "Molecular Biology", "Clinical Biochemistry"]
    else []
  }

  /** The subtopic buttons of step 2: "Overall Topic" first, then the topic's subtopics. */
  function SubtopicChoices(topic: string): (choices: seq<string>)
    ensures |choices| >= 1 && choices[0] == "Overall Topic"
    ensures forall i :: 0 <= i < |choices| ==> choices[i] != ""
  {
    ["Overall Topic"] + Subtopics(topic)
  }

  /** The question counts the configuration step offers. */
  const QuestionCounts: seq<int> := [5, 10, 15, 20, 25]

  /** `formData.subtopic || formData.topic`: the topic generation is asked for. */
  function GenerationTopic(topic: string, subtopic: string): (t: string)
    ensures subtopic != "" ==> t == subtopic
    ensures subtopic == "" ==> t == topic
  {
    if subtopic != "" then subtopic else topic
  }

  /** Progress dot k (1 to 3) is filled once the wizard has reached step k. */
  predicate DotFilled(step: int, k: int) {
    step >= k
  }

  /** The connector after dot k is filled once the wizard is past step k. */
  predicate ConnectorFilled(step: int, k: int) {
    step > k
  }

  /**
   * The progress bar is consistent: a connector is filled exactly when the
   * dot after it is, and at step s exactly s dots are filled.
   */
  lemma ProgressBarConsistent(step: int)
    requires 1 <= step <= 3
    ensures forall k :: 1 <= k < 3 ==> (ConnectorFilled(step, k) <==> DotFilled(step, k + 1))
    ensures |set k | 1 <= k <= 3 && DotFilled(step, k)| == step
  {
    var filled := set k | 1 <= k <= 3 && DotFilled(step, k);
    if step == 1 {
      assert filled == {1};
    } else if step == 2 {
      assert filled == {1, 2};
    } else {
      assert filled == {1, 2, 3};
    }
  }

  /**
   * At step 3 the subtopic has been picked from the step-2 buttons, so the
   * topic fallback is never used and generation asks for the subtopic
   * itself; picking "Overall Topic" asks for the literal "Overall Topic"
   * rather than the topic.
   */
  lemma GenerationUsesSubtopic(topic: string, subtopic: string)
    requires subtopic in SubtopicChoices(topic)
    ensures GenerationTopic(topic, subtopic) == subtopic
  {
  }

  class AiQuizWizard {
    /** 1: topic; 2: subtopic; 3: configuration. */
    var step: int
    var topic: string
    var subtopic: string
    var difficulty: Difficulty
    var questionCount: int
    var examType: string

    /**
     * The step is 1, 2 or 3, the count is one of the offered ones, and on
     * step 3 a subtopic has been chosen.
     */
    predicate Valid()
      reads this
    {
      && 1 <= step <= 3
      && questionCount in QuestionCounts
      && (step == 3 ==> subtopic != "")
    }

    constructor ()
      ensures Valid() && step == 1
      ensures topic == "" && subtopic == "" && difficulty == Intermediate
      ensures questionCount == 10 && examType == "NEET-UG"
    {
      step, topic, subtopic := 1, "", "";
      difficulty, questionCount, examType := Intermediate, 10, "NEET-UG";
    }

    /** `handleTopicSelect`: sets the topic, clears the subtopic, goes to step 2. */
    method SelectTopic(t: string)
      requires Valid()
      modifies this`topic, this`subtopic, this`step
      ensures Valid()
      ensures topic == t && subtopic == "" && step == 2
    {
      topic, subtopic := t, "";
      step := 2;
    }

    /** `handleSubtopicSelect`, from one of the step-2 buttons: keeps the topic, goes to step 3. */
    method SelectSubtopic(s: string)
      requires Valid() && s in SubtopicChoices(topic)
      modifies this`subtopic, this`step
      ensures Valid()
      ensures subtopic == s && step == 3
    {
      subtopic := s;
      step := 3;
    }

    /** "Change Topic": back to step 1, the form data untouched. */
    method BackToTopics()
      requires Valid()
      modifies this`step
      ensures Valid() && step == 1
    {
      step := 1;
    }

    /** "Change Subtopic": back to step 2, the form data untouched. */
    method BackToSubtopics()
      requires Valid()
      modifies this`step
      ensures Valid() && step == 2
    {
      step := 2;
    }

    /** One of the count buttons. */
    method ChooseQuestionCount(count: int)
      requires Valid() && count in QuestionCounts
      modifies this`questionCount
      ensures Valid() && questionCount == count
    {
      questionCount := count;
    }

    /**
     * `handleGenerate`, behind the button of step 3: asks the store for a
     * quiz on the generation topic at the chosen difficulty and count; the
     * chosen exam type is not passed.
     */
    method Generate(store: QuizStore, generatedId: string, now: string) returns (quiz: Quiz)
      requires Valid() && step == 3
      modifies store
      ensures quiz == NewQuiz(AiQuizData(GenerationTopic(topic, subtopic), difficulty, questionCount), generatedId, now)
      ensures store.quizzes == old(store.quizzes) + [quiz]
      ensures quiz.subject == subtopic && |quiz.questions| == 2
      ensures quiz.examType == "NEET-UG" && quiz.creationMethod == AiGenerated
    {
      GeneratedQuizOnStepThree(topic, subtopic, difficulty, questionCount);
      quiz := store.GenerateAIQuiz(GenerationTopic(topic, subtopic), difficulty, questionCount, generatedId, now);
    }
  }

  /**
   * On step 3 of a valid wizard the generated quiz has the subtopic as its
   * subject, both sample questions (every offered count is at least 5) and
   * the exam type NEET-UG whatever exam type was selected.
   */
  lemma GeneratedQuizOnStepThree(topic: string, subtopic: string, difficulty: Difficulty, count: int)
    requires subtopic != "" && count in QuestionCounts
    ensures var d := AiQuizData(GenerationTopic(topic, subtopic), difficulty, count);
      d.subject == subtopic && |d.questions| == 2 && d.examType == "NEET-UG"
  {
    AiQuestionsWellFormed(subtopic, difficulty, count);
  }
}
