/**
 * The manual quiz editor: quiz details plus a list of questions the user
 * adds, removes and edits field by field, and the submit step that
 * validates the details, keeps only the complete questions and hands the
 * result to the quiz store.
 */
module ManualCreator {
  import opened Wrappers
  import opened QuizModel
  import opened JsBuiltins
  import opened QuizRepository

  // ---------------------------------------------------------------------------
  // The question list
  // ---------------------------------------------------------------------------

  /** A fresh question: empty text, four empty options, first option correct. */
  function BlankQuestion(id: string, difficulty: Difficulty): (q: Question)
    ensures q.id == id && q.difficulty == difficulty && q.correctAnswer == 0
    ensures q.options == ["", "", "", ""] && q.text == "" && q.explanation == "" && q.topic.None?
  {
    Question(id, "", ["", "", "", ""], 0, "", difficulty, None)
  }

  /** No two questions of the list share an id. */
  predicate DistinctIds(qs: seq<Question>) {
    forall i, j :: 0 <= i < j < |qs| ==> qs[i].id != qs[j].id
  }

  /** No question of the list carries the id. */
  predicate IdAbsent(qs: seq<Question>, id: string) {
    forall i :: 0 <= i < |qs| ==> qs[i].id != id
  }

  /** `questions.filter(q => q.id !== questionId)`. */
  function RemoveId(qs: seq<Question>, id: string): (r: seq<Question>)
    ensures |r| <= |qs|
    ensures IdAbsent(r, id)
  {
    if qs == [] then []
    else if qs[0].id == id then RemoveId(qs[1..], id)
    else [qs[0]] + RemoveId(qs[1..], id)
  }

  /** Removing an absent id changes nothing. */
  lemma {:induction false} RemoveAbsentId(qs: seq<Question>, id: string)
    requires IdAbsent(qs, id)
    ensures RemoveId(qs, id) == qs
  {
    if qs != [] {
      RemoveAbsentId(qs[1..], id);
    }
  }

  /** Every question kept by the removal occurs in the list as often as before, or not at all when it carries the id. */
  lemma {:induction false} RemoveIdCounts(qs: seq<Question>, id: string, q: Question)
    ensures multiset(RemoveId(qs, id))[q] == if q.id == id then 0 else multiset(qs)[q]
  {
    if qs != [] {
      RemoveIdCounts(qs[1..], id, q);
      assert qs == [qs[0]] + qs[1..];
    }
  }

  /**
   * Removing by id from a list with distinct ids drops at most one question
   * and keeps the ids distinct.
   */
  lemma {:induction false} RemoveIdDistinct(qs: seq<Question>, id: string)
    requires DistinctIds(qs)
    ensures |RemoveId(qs, id)| >= |qs| - 1
    ensures DistinctIds(RemoveId(qs, id))
  {
    if qs != [] {
      var rest := qs[1..];
      assert DistinctIds(rest);
      RemoveIdDistinct(rest, id);
      if qs[0].id == id {
        assert IdAbsent(rest, id);
        RemoveAbsentId(rest, id);
      } else {
        var r := RemoveId(rest, id);
        forall j | 0 <= j < |r| ensures r[j].id != qs[0].id {
          RemoveIdCounts(rest, id, r[j]);
          assert r[j] in multiset(r);
          assert r[j] in multiset(rest);
        }
        assert RemoveId(qs, id) == [qs[0]] + r;
      }
    }
  }

  /** Removing from a list of two or more distinct-id questions leaves at least one, with distinct ids. */
  lemma RemoveKeepsOne(qs: seq<Question>, id: string)
    requires DistinctIds(qs) && |qs| > 1
    ensures |RemoveId(qs, id)| >= 1
    ensures DistinctIds(RemoveId(qs, id))
  {
    RemoveIdDistinct(qs, id);
  }

  /** One field of a question, as the editor's inputs address them. */
  datatype Edit = EditText(text: string) | EditCorrectAnswer(index: int) | EditExplanation(explanation: string)

  /** `{ ...q, [field]: value }`: the named field replaced, everything else kept. */
  function ApplyEdit(q: Question, e: Edit): (r: Question)
    ensures e.EditText? ==> r == q.(text := e.text)
    ensures e.EditCorrectAnswer? ==> r == q.(correctAnswer := e.index)
    ensures e.EditExplanation? ==> r == q.(explanation := e.explanation)
  {
    match e
    case EditText(t) => q.(text := t)
    case EditCorrectAnswer(k) => q.(correctAnswer := k)
    case EditExplanation(x) => q.(explanation := x)
  }

  /** `updateQuestion`: the edit applied to the questions carrying the id, the others kept. */
  function UpdateQuestionIn(qs: seq<Question>, id: string, e: Edit): (r: seq<Question>)
    ensures |r| == |qs|
    ensures forall i :: 0 <= i < |qs| ==> r[i] == if qs[i].id == id then ApplyEdit(qs[i], e) else qs[i]
  {
    seq(|qs|, i requires 0 <= i < |qs| => if qs[i].id == id then ApplyEdit(qs[i], e) else qs[i])
  }

  /** `q.options.map((opt, idx) => idx === optionIndex ? value : opt)`. */
  function ReplaceOption(options: seq<string>, k: int, v: string): (r: seq<string>)
    ensures |r| == |options|
    ensures forall i :: 0 <= i < |options| ==> r[i] == if i == k then v else options[i]
  {
    seq(|options|, i requires 0 <= i < |options| => if i == k then v else options[i])
  }

  /** `updateOption`: option k of the questions carrying the id replaced. */
  function UpdateOptionIn(qs: seq<Question>, id: string, k: int, v: string): (r: seq<Question>)
    ensures |r| == |qs|
    ensures forall i :: 0 <= i < |qs| ==>
      r[i] == if qs[i].id == id then qs[i].(options := ReplaceOption(qs[i].options, k, v)) else qs[i]
  {
    seq(|qs|, i requires 0 <= i < |qs| =>
      if qs[i].id == id then qs[i].(options := ReplaceOption(qs[i].options, k, v)) else qs[i])
  }

  /**
   * Field-targeted updates keep every id and the number of options of every
   * question; an option index outside the options changes nothing.
   */
  lemma UpdatesKeepShape(qs: seq<Question>, id: string, e: Edit, k: int, v: string)
    ensures forall i :: 0 <= i < |qs| ==>
      && UpdateQuestionIn(qs, id, e)[i].id == qs[i].id
      && UpdateQuestionIn(qs, id, e)[i].options == qs[i].options
      && UpdateOptionIn(qs, id, k, v)[i].id == qs[i].id
      && |UpdateOptionIn(qs, id, k, v)[i].options| == |qs[i].options|
    ensures DistinctIds(qs) ==> DistinctIds(UpdateQuestionIn(qs, id, e)) && DistinctIds(UpdateOptionIn(qs, id, k, v))
    ensures (forall i :: 0 <= i < |qs| ==> !(0 <= k < |qs[i].options|)) ==> UpdateOptionIn(qs, id, k, v) == qs
  {
    if forall i :: 0 <= i < |qs| ==> !(0 <= k < |qs[i].options|) {
      var r := UpdateOptionIn(qs, id, k, v);
      forall i | 0 <= i < |qs| ensures r[i] == qs[i] {
        assert ReplaceOption(qs[i].options, k, v) == qs[i].options;
      }
    }
  }

  // ---------------------------------------------------------------------------
  // Submit
  // ---------------------------------------------------------------------------

  /** A question the submit step keeps: text, every option and the explanation non-blank. */
  predicate IsComplete(q: Question) {
    !IsBlank(q.text) && NoneBlank(q.options) && !IsBlank(q.explanation)
  }

  /** `options.every(opt => opt.trim())`. */
  predicate NoneBlank(options: seq<string>) {
    forall i :: 0 <= i < |options| ==> !IsBlank(options[i])
  }

  /** `questions.filter(...)` with the completeness test. */
  function CompleteQuestions(qs: seq<Question>): (r: seq<Question>)
    ensures |r| <= |qs|
    ensures forall i :: 0 <= i < |r| ==> IsComplete(r[i])
  {
    if qs == [] then []
    else if IsComplete(qs[0]) then [qs[0]] + CompleteQuestions(qs[1..])
    else CompleteQuestions(qs[1..])
  }

  /** The filter distributes over concatenation, so it keeps the original order. */
  lemma {:induction false} CompleteQuestionsAppend(a: seq<Question>, b: seq<Question>)
    ensures CompleteQuestions(a + b) == CompleteQuestions(a) + CompleteQuestions(b)
  {
    if a == [] {
      assert a + b == b;
    } else {
      assert (a + b)[0] == a[0] && (a + b)[1..] == a[1..] + b;
      CompleteQuestionsAppend(a[1..], b);
    }
  }

  /** Every complete question is kept as often as it occurs, and no incomplete one is. */
  lemma {:induction false} CompleteQuestionsCounts(qs: seq<Question>, q: Question)
    ensures multiset(CompleteQuestions(qs))[q] == if IsComplete(q) then multiset(qs)[q] else 0
  {
    if qs != [] {
      CompleteQuestionsCounts(qs[1..], q);
      assert qs == [qs[0]] + qs[1..];
    }
  }

  /** The filter is empty exactly when no question is complete. */
  lemma {:induction false} CompleteQuestionsEmpty(qs: seq<Question>)
    ensures CompleteQuestions(qs) == [] <==> forall i :: 0 <= i < |qs| ==> !IsComplete(qs[i])
  {
    if qs != [] {
      CompleteQuestionsEmpty(qs[1..]);
      if !IsComplete(qs[0]) {
        assert forall i :: 1 <= i < |qs| ==> qs[i] == qs[1..][i - 1];
      }
    }
  }

  /** Why a submit is refused. */
  datatype SubmitError = MissingTitle | MissingSubject | NoCompleteQuestion

  /**
   * The validation of `handleSubmit`, in its order: a blank title, then a
   * blank subject, then no complete question. Otherwise the quiz data
   * spreads the form's details and carries the complete questions.
   */
  function ValidateManual(title: string, description: string, subject: string, difficulty: Difficulty,
                          examType: string, isPublic: bool, questions: seq<Question>): (r: Result<QuizData, SubmitError>)
    ensures r == Err(MissingTitle) <==> IsBlank(title)
    ensures r == Err(MissingSubject) <==> !IsBlank(title) && IsBlank(subject)
    ensures r == Err(NoCompleteQuestion) <==> !IsBlank(title) && !IsBlank(subject) && CompleteQuestions(questions) == []
    ensures r.Ok? ==>
      && r.value.questions == CompleteQuestions(questions) && |r.value.questions| >= 1
      && r.value.creationMethod == Manual && r.value.id.None?
      && r.value.title == title && r.value.description == description && r.value.subject == subject
      && r.value.difficulty == difficulty && r.value.examType == examType && r.value.isPublic == isPublic
  {
    if IsBlank(title) then Err(MissingTitle)
    else if IsBlank(subject) then Err(MissingSubject)
    else
      var valid := CompleteQuestions(questions);
      if valid == [] then Err(NoCompleteQuestion)
      else Ok(QuizData(None, title, description, subject, examType, difficulty, valid, Manual, isPublic))
  }

  // ---------------------------------------------------------------------------
  // The editor
  // ---------------------------------------------------------------------------

  class ManualQuizEditor {
    var title: string
    var description: string
    var subject: string
    var difficulty: Difficulty
    var examType: string
    var isPublic: bool
    var questions: seq<Question>

    /** The list is never empty and its ids are distinct. */
    predicate Valid()
      reads this
    {
      |questions| >= 1 && DistinctIds(questions)
    }

    /** Empty details, intermediate difficulty, NEET-UG, private, and one blank question with id "1". */
    constructor ()
      ensures Valid()
      ensures title == "" && description == "" && subject == "" && !isPublic
      ensures difficulty == Intermediate && examType == "NEET-UG"
      ensures questions == [BlankQuestion("1", Intermediate)]
    {
      title, description, subject := "", "", "";
      difficulty, examType, isPublic := Intermediate, "NEET-UG", false;
      questions := [BlankQuestion("1", Intermediate)];
    }

    /** `addQuestion`, with `newId` standing for `Date.now().toString()`. */
    method AddQuestion(newId: string)
      requires Valid() && IdAbsent(questions, newId)
      modifies this
      ensures Valid()
      ensures questions == old(questions) + [BlankQuestion(newId, difficulty)]
      ensures unchanged(this`title, this`description, this`subject, this`difficulty, this`examType, this`isPublic)
    {
      questions := questions + [BlankQuestion(newId, difficulty)];
    }

    /** `removeQuestion`: only while more than one question is left. */
    method RemoveQuestion(id: string)
      requires Valid()
      modifies this`questions
      ensures Valid()
      ensures questions == if |old(questions)| > 1 then RemoveId(old(questions), id) else old(questions)
    {
      if |questions| > 1 {
        RemoveKeepsOne(questions, id);
        questions := RemoveId(questions, id);
      }
    }

    /** `updateQuestion`. */
    method UpdateQuestion(id: string, e: Edit)
      requires Valid()
      modifies this`questions
      ensures Valid()
      ensures questions == UpdateQuestionIn(old(questions), id, e)
    {
      UpdatesKeepShape(questions, id, e, 0, "");
      questions := UpdateQuestionIn(questions, id, e);
    }

    /** `updateOption`. */
    method UpdateOption(id: string, k: int, v: string)
      requires Valid()
      modifies this`questions
      ensures Valid()
      ensures questions == UpdateOptionIn(old(questions), id, k, v)
    {
      UpdatesKeepShape(questions, id, EditText(""), k, v);
      questions := UpdateOptionIn(questions, id, k, v);
    }

    /**
     * `handleSubmit`: a refused submit changes nothing; an accepted one
     * appends the quiz to the store.
     */
    method Submit(store: QuizStore, generatedId: string, now: string) returns (r: Result<Quiz, SubmitError>)
      modifies store
      ensures var v := ValidateManual(title, description, subject, difficulty, examType, isPublic, questions);
        && (v.Err? ==> r == Err(v.error) && store.quizzes == old(store.quizzes))
        && (v.Ok? ==> r == Ok(NewQuiz(v.value, generatedId, now)) && store.quizzes == old(store.quizzes) + [r.value])
    {
      var v := ValidateManual(title, description, subject, difficulty, examType, isPublic, questions);
      if v.Err? {
        return Err(v.error);
      }
      var quiz := store.CreateQuiz(v.value, generatedId, now);
      return Ok(quiz);
    }
  }
}
