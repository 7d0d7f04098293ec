/**
 * The question card of a running session: whether the question is answered
 * and answered correctly, how each option is marked, when option clicks
 * are forwarded and when the "Show Explanation" button appears. The card
 * only derives values from what it is given.
 */
module QuizQuestionView {
  import opened Wrappers
  import opened QuizModel

  /** The two session modes. */
  datatype Mode = Practice | Exam

  /** `selectedAnswer !== undefined`. */
  predicate IsAnswered(selected: Option<int>) {
    selected.Some?
  }

  /** `isAnswered && selectedAnswer === question.correctAnswer`. */
  predicate IsCorrect(q: Question, selected: Option<int>) {
    IsAnswered(selected) && selected.value == q.correctAnswer
  }

  /** Correctness is revealed on the options only in practice mode with the explanation open. */
  predicate ShowsCorrectness(showExplanation: bool, mode: Mode) {
    showExplanation && mode == Practice
  }

  /** How one option button is drawn. */
  datatype Mark = Neutral | Highlighted | MarkedCorrect | MarkedWrong

  /**
   * The mark of option `index`, following the component's branches: the
   * selected option is highlighted while correctness is hidden; once it is
   * shown, the correct option is marked correct, a selected wrong option is
   * marked wrong, and the rest stay neutral.
   */
  function OptionMark(q: Question, index: int, selected: Option<int>, showExplanation: bool, mode: Mode): Mark {
    var isSelected := selected == Some(index);
    var isCorrectOption := index == q.correctAnswer;
    var showCorrectness := ShowsCorrectness(showExplanation, mode);
    if isSelected && !showCorrectness then Highlighted
    else if showCorrectness then
      if isCorrectOption then MarkedCorrect
      else if isSelected && !isCorrectOption then MarkedWrong
      else Neutral
    else Neutral
  }

  /** The marks of all option buttons, in option order. */
  function OptionMarks(q: Question, selected: Option<int>, showExplanation: bool, mode: Mode): (ms: seq<Mark>)
    ensures |ms| == |q.options|
    ensures forall i :: 0 <= i < |ms| ==> ms[i] == OptionMark(q, i, selected, showExplanation, mode)
  {
    seq(|q.options|, i => OptionMark(q, i, selected, showExplanation, mode))
  }

  /**
   * With correctness shown, the correct option carries the correct mark, the
   * selected option when wrong carries the wrong mark, and every other option
   * is neutral.
   */
  lemma MarksWhenShown(q: Question, selected: Option<int>, showExplanation: bool, mode: Mode)
    requires ShowsCorrectness(showExplanation, mode)
    ensures var ms := OptionMarks(q, selected, showExplanation, mode);
      forall i :: 0 <= i < |ms| ==>
        && (ms[i] == MarkedCorrect <==> i == q.correctAnswer)
        && (ms[i] == MarkedWrong <==> selected == Some(i) && i != q.correctAnswer)
        && (ms[i] == Neutral <==> i != q.correctAnswer && selected != Some(i))
        && ms[i] != Highlighted
  {
  }

  /** With correctness hidden, only the selected option is highlighted and nothing is marked right or wrong. */
  lemma MarksWhenHidden(q: Question, selected: Option<int>, showExplanation: bool, mode: Mode)
    requires !ShowsCorrectness(showExplanation, mode)
    ensures var ms := OptionMarks(q, selected, showExplanation, mode);
      forall i :: 0 <= i < |ms| ==>
        && (ms[i] == Highlighted <==> selected == Some(i))
        && (ms[i] == Neutral <==> selected != Some(i))
  {
  }

  /** With correctness shown and correctAnswer indexing an option, exactly one option is marked correct. */
  lemma ExactlyOneMarkedCorrect(q: Question, selected: Option<int>, showExplanation: bool, mode: Mode)
    requires ShowsCorrectness(showExplanation, mode)
    requires 0 <= q.correctAnswer < |q.options|
    ensures multiset(OptionMarks(q, selected, showExplanation, mode))[MarkedCorrect] == 1
  {
    var ms := OptionMarks(q, selected, showExplanation, mode);
    var c := q.correctAnswer;
    NoneMarkedCorrect(ms[..c]);
    NoneMarkedCorrect(ms[c + 1..]);
    assert ms == ms[..c] + [ms[c]] + ms[c + 1..];
  }

  /** A run of marks with no correct mark counts zero of them (helper). */
  lemma NoneMarkedCorrect(ms: seq<Mark>)
    requires forall i :: 0 <= i < |ms| ==> ms[i] != MarkedCorrect
    ensures multiset(ms)[MarkedCorrect] == 0
  {
    assert MarkedCorrect !in multiset(ms);
  }

  /**
   * Clicking option `index`: `!showExplanation && onAnswerSelect(index)`.
   * The answer forwarded to the session, if any.
   */
  function ClickedAnswer(index: int, showExplanation: bool): (forwarded: Option<int>)
    ensures forwarded.Some? <==> !showExplanation
    ensures forwarded.Some? ==> forwarded.value == index
  {
    if !showExplanation then Some(index) else None
  }

  /** The "Show Explanation" button: practice mode, answered, explanation not yet shown. */
  predicate ShowExplanationButton(mode: Mode, selected: Option<int>, showExplanation: bool) {
    mode == Practice && IsAnswered(selected) && !showExplanation
  }

  /** The button and the revealed correctness never appear together. */
  lemma ButtonExcludesCorrectness(mode: Mode, selected: Option<int>, showExplanation: bool)
    ensures ShowExplanationButton(mode, selected, showExplanation) ==> !ShowsCorrectness(showExplanation, mode)
  {
  }
}
