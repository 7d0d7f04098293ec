/**
 * The copy-paste creator: a two-step wizard. The user pastes study
 * material, then fills in quiz details; creating the quiz builds two
 * placeholder questions (the pasted text is not read) and hands the quiz
 * to the store.
 */
module CopyPasteCreator {
  import opened Wrappers
  import opened QuizModel
  import opened JsBuiltins
  import opened QuizRepository

  /** The description used when the user leaves it empty. */
  const DefaultDescription: string := "Quiz created from your study materials"

  /** The subject and question topic of every copy-paste quiz. */
  const CustomContent: string := "Custom Content"

  /** The two placeholder questions, at the chosen difficulty. */
  function PlaceholderQuestions(difficulty: Difficulty): (qs: seq<Question>)
    ensures |qs| == 2 && qs[0].id == "1" && qs[1].id == "2"
    ensures qs[0].correctAnswer == 0 && qs[1].correctAnswer == 1
    ensures forall i :: 0 <= i < 2 ==>
      && |qs[i].options| == 4 && 0 <= qs[i].correctAnswer < |qs[i].options|
      && qs[i].difficulty == difficulty && qs[i].topic == Some(CustomContent)
  {
    [ Question("1",
        "Based on your study material, which of the following best describes the main concept?",
        ["Option A from your text", "Option B from your text", "Option C from your text", "Option D from your text"],
        0,
        "This answer is correct based on the content you provided.",
        difficulty, Some(CustomContent)),
      Question("2",
        "According to your study material, what is the key relationship mentioned?",
        ["Relationship A", "Relationship B", "Relationship C", "Relationship D"],
        1,
        "This relationship is clearly outlined in your provided text.",
        difficulty, Some(CustomContent)) ]
  }

  /** Why quiz creation is refused. */
  datatype CreateError = MissingTitle

  /**
   * The quiz data `handleCreateQuiz` builds, or the refusal for a blank
   * title. An empty description (not a whitespace-only one) is replaced
   * by the default.
   */
  function BuildCopyPasteQuiz(title: string, description: string, difficulty: Difficulty, examType: string): (r: Result<QuizData, CreateError>)
    ensures r.Err? <==> IsBlank(title)
    ensures r.Ok? ==>
      && r.value.title == title
      && r.value.description == (if description == "" then DefaultDescription else description)
      && r.value.subject == CustomContent && r.value.creationMethod == CopyPaste && !r.value.isPublic
      && r.value.examType == examType && r.value.difficulty == difficulty && r.value.id.None?
      && r.value.questions == PlaceholderQuestions(difficulty)
  {
    if IsBlank(title) then Err(MissingTitle)
    else
      Ok(QuizData(None, title, if description == "" then DefaultDescription else description, CustomContent,
                  examType, difficulty, PlaceholderQuestions(difficulty), CopyPaste, false))
  }

  /** The built quiz never has an empty description, and it does not depend on the pasted text at all. */
  lemma BuiltQuizShape(title: string, description: string, difficulty: Difficulty, examType: string)
    requires !IsBlank(title)
    ensures var d := BuildCopyPasteQuiz(title, description, difficulty, examType).value;
      && d.description != ""
      && |d.questions| == 2
      && forall i :: 0 <= i < |d.questions| ==> d.questions[i].options[d.questions[i].correctAnswer] != ""
  {
  }

  class CopyPasteWizard {
    var textContent: string
    var title: string
    var description: string
    var difficulty: Difficulty
    var examType: string
    /** 1: paste the material; 2: quiz details. */
    var step: int

    /**
     * The step is 1 or 2, and the details step is only reached with
     * non-blank material (the text area is not shown there).
     */
    predicate Valid()
      reads this
    {
      && (step == 1 || step == 2)
      && (step == 2 ==> !IsBlank(textContent))
    }

    constructor ()
      ensures Valid() && step == 1
      ensures textContent == "" && title == "" && description == ""
      ensures difficulty == Intermediate && examType == "NEET-UG"
    {
      textContent, title, description := "", "", "";
      difficulty, examType, step := Intermediate, "NEET-UG", 1;
    }

    /** `handleProcessText`: blank material keeps the wizard on step 1. */
    method ProcessText()
      requires Valid()
      modifies this`step
      ensures Valid()
      ensures step == if IsBlank(textContent) then old(step) else 2
    {
      if IsBlank(textContent) {
        return;
      }
      step := 2;
    }

    /** The back button of step 2; the pasted text and details are kept. */
    method Back()
      modifies this`step
      ensures Valid() && step == 1
    {
      step := 1;
    }

    /**
     * `handleCreateQuiz`, behind the button of step 2, so the material is
     * non-blank; a refused creation leaves the store untouched.
     */
    method CreateQuiz(store: QuizStore, generatedId: string, now: string) returns (r: Result<Quiz, CreateError>)
      requires Valid() && step == 2
      modifies store
      ensures !IsBlank(textContent)
      ensures var b := BuildCopyPasteQuiz(title, description, difficulty, examType);
        && (b.Err? ==> r == Err(b.error) && store.quizzes == old(store.quizzes))
        && (b.Ok? ==> r == Ok(NewQuiz(b.value, generatedId, now)) && store.quizzes == old(store.quizzes) + [r.value])
    {
      var b := BuildCopyPasteQuiz(title, description, difficulty, examType);
      if b.Err? {
        return Err(b.error);
      }
      var quiz := store.CreateQuiz(b.value, generatedId, now);
      return Ok(quiz);
    }
  }
}
