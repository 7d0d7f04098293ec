/**
 * The quiz-taking page: a session over one quiz that goes from mode
 * selection through answering, navigation, flagging and the exam countdown
 * to the results screen and back (retake).
 *
 * The page keeps its state in separate component fields. Here they are
 * the fields of `Session`, and `State()` gathers them into one
 * `SessionState` value. Each handler is a pure transition on that value
 * (the functions below, about which the lemmas speak). The matching
 * method of `Session` applies the transition to its fields, and on finish
 * it also updates the quiz store and the user store.
 */
module QuizSession {
  import opened Wrappers
  import opened QuizModel
  import opened JsBuiltins
  import opened QuizResults
  import opened QuizQuestionView
  import opened QuizRepository
  import opened Auth

  // ---------------------------------------------------------------------------
  // Score
  // ---------------------------------------------------------------------------

  /**
   * `calculateScore`: `Math.round(correct / n * 100)` on exact integers.
   * It lies in [0, 100] and is the percentage of correct answers rounded
   * to the nearest integer, halves up.
   */
  function Score(questions: seq<Question>, answers: Answers): (r: int)
    requires |questions| > 0 && ValidAnswers(answers, |questions|)
    ensures 0 <= r <= 100
    ensures var n, c := |questions|, CorrectCount(questions, answers);
      2 * n * r - n <= 200 * c < 2 * n * r + n
  {
    var n, c := |questions|, CorrectCount(questions, answers);
    AnsweredAtMostTotal(answers, n);
    RoundDivBetween(100 * c, n, 0, 100);
    RoundDiv(100 * c, n)
  }

  /** A run of outcomes that are all the same counts that outcome once per element (helper). */
  lemma {:induction false} CountAllSame(b: seq<Outcome>, o: Outcome)
    requires forall i :: 0 <= i < |b| ==> b[i] == o
    ensures multiset(b)[o] == |b|
  {
    if b != [] {
      CountAllSame(b[..|b| - 1], o);
      assert b == b[..|b| - 1] + [b[|b| - 1]];
    }
  }

  /** No answers at all: score 0, nothing correct or incorrect, every question skipped. */
  lemma NoAnswersScoresZero(questions: seq<Question>)
    requires |questions| > 0
    ensures Score(questions, map[]) == 0
    ensures TilesOf(questions, map[]) == Tiles(0, 0, |questions|)
  {
    assert CorrectBelow(questions, map[], |questions|) == {};
    RoundDivExact(0, |questions|);
  }

  /** Every question answered correctly scores exactly 100. */
  lemma AllCorrectScoresHundred(questions: seq<Question>, answers: Answers)
    requires |questions| > 0 && ValidAnswers(answers, |questions|)
    requires forall i :: 0 <= i < |questions| ==> i in answers && answers[i] == questions[i].correctAnswer
    ensures Score(questions, answers) == 100
  {
    var b := Breakdown(questions, answers);
    TilesMatchBreakdown(questions, answers);
    CountAllSame(b, Correct);
    RoundDivExact(100, |questions|);
  }

  /** Every question answered, none correctly, scores exactly 0. */
  lemma AllWrongScoresZero(questions: seq<Question>, answers: Answers)
    requires |questions| > 0 && ValidAnswers(answers, |questions|)
    requires forall i :: 0 <= i < |questions| ==> i in answers && answers[i] != questions[i].correctAnswer
    ensures Score(questions, answers) == 0
  {
    var b := Breakdown(questions, answers);
    TilesMatchBreakdown(questions, answers);
    CountAllSame(b, Incorrect);
    assert Correct !in multiset(b);
    RoundDivExact(0, |questions|);
  }

  /** Two questions with correct answers 0 and 1, both answered 0: 50%, one correct, one incorrect. */
  lemma HalfRightScoresFifty(questions: seq<Question>)
    requires |questions| == 2
    requires questions[0].correctAnswer == 0 && questions[1].correctAnswer == 1
    ensures Score(questions, map[0 := 0, 1 := 0]) == 50
    ensures Breakdown(questions, map[0 := 0, 1 := 0]) == [Correct, Incorrect]
    ensures TilesOf(questions, map[0 := 0, 1 := 0]) == Tiles(1, 1, 0)
  {
    var answers := map[0 := 0, 1 := 0];
    assert CorrectBelow(questions, answers, 2) == {0};
    assert |answers| == 2 by { assert answers.Keys == {0, 1}; }
  }

  // ---------------------------------------------------------------------------
  // Exam countdown
  // ---------------------------------------------------------------------------

  /**
   * The exam's time budget in milliseconds: two minutes per question, or
   * half an hour when that product is 0 (`|| 1800000`).
   */
  function ExamDuration(n: nat): (ms: nat)
    ensures n > 0 ==> ms == 120000 * n
    ensures n == 0 ==> ms == 1800000
  {
    if n * 2 * 60 * 1000 != 0 then n * 2 * 60 * 1000 else 1800000
  }

  /**
   * One tick of the countdown: at 1000 or less the exam is finished and the
   * time set to 0, otherwise one second is taken off.
   */
  function TickTime(t: int): (r: (int, bool))
    ensures r.1 <==> t <= 1000
    ensures r.0 == if t <= 1000 then 0 else t - 1000
  {
    if t <= 1000 then (0, true) else (t - 1000, false)
  }

  /** The number of ticks from t up to and including the one that finishes the exam. */
  function TicksToFinish(t: int): nat
    decreases t
  {
    if TickTime(t).1 then 1 else 1 + TicksToFinish(TickTime(t).0)
  }

  /** From a whole number of seconds, the countdown finishes after exactly that many ticks. */
  lemma {:induction false} TicksToFinishWholeSeconds(k: nat)
    requires k > 0
    ensures TicksToFinish(1000 * k) == k
  {
    if k > 1 {
      TicksToFinishWholeSeconds(k - 1);
      assert TickTime(1000 * k).0 == 1000 * (k - 1);
    }
  }

  /** An exam of n questions finishes on its 120·n-th tick (1800th with no questions). */
  lemma ExamFinishesAfter(n: nat)
    ensures TicksToFinish(ExamDuration(n)) == if n == 0 then 1800 else 120 * n
  {
    if n == 0 {
      TicksToFinishWholeSeconds(1800);
    } else {
      TicksToFinishWholeSeconds(120 * n);
      assert ExamDuration(n) == 1000 * (120 * n);
    }
  }

  // ---------------------------------------------------------------------------
  // The clock shown during an exam
  // ---------------------------------------------------------------------------

  /** `formatTime` of the page: minutes, a colon and the seconds padded to two digits. */
  function FormatClock(ms: nat): string {
    var (m, s) := TimeParts(ms);
    Decimal(m) + ":" + PadStart(Decimal(s), 2, '0')
  }

  /** The clock reads back as whole minutes and exactly two digits of seconds, below 60. */
  lemma FormatClockReadsBack(ms: nat)
    ensures exists mt: string, st: string ::
      && AllDigits(mt) && AllDigits(st) && |st| == 2
      && FormatClock(ms) == mt + ":" + st
      && DecimalValue(st) < 60
      && 60000 * DecimalValue(mt) + 1000 * DecimalValue(st) <= ms
      && ms < 60000 * DecimalValue(mt) + 1000 * DecimalValue(st) + 1000
  {
    var (m, s) := TimeParts(ms);
    DecimalRoundTrip(m);
    DecimalRoundTrip(s);
    PadStartZerosValue(Decimal(s), 2);
    var mt, st := Decimal(m), PadStart(Decimal(s), 2, '0');
    assert |Decimal(s)| <= 2 by { if s >= 10 { assert Decimal(s) == Decimal(s / 10) + [DigitChar(s % 10)]; } }
    assert FormatClock(ms) == mt + ":" + st;
  }

  // ---------------------------------------------------------------------------
  // Navigation grid
  // ---------------------------------------------------------------------------

  datatype NavColor = CurrentColor | AnsweredColor | FlaggedColor | PlainColor

  /**
   * The colour of a question's button in the navigation grid: the current
   * question first, then answered, then flagged.
   */
  function NavColorOf(index: int, current: int, answers: Answers, flagged: set<int>): (c: NavColor)
    ensures c == CurrentColor <==> index == current
    ensures c == AnsweredColor <==> index != current && index in answers
    ensures c == FlaggedColor <==> index != current && index !in answers && index in flagged
    ensures c == PlainColor <==> index != current && index !in answers && index !in flagged
  {
    if index == current then CurrentColor
    else if index in answers then AnsweredColor
    else if index in flagged then FlaggedColor
    else PlainColor
  }

  // ---------------------------------------------------------------------------
  // Session state and its transitions
  // ---------------------------------------------------------------------------

  /** The page's state fields; `mode` is None before a mode is chosen. */
  datatype SessionState = SessionState(
    mode: Option<Mode>,
    currentQuestion: int,
    answers: Answers,
    flagged: set<int>,
    timeStarted: Option<int>,
    timeRemaining: Option<int>,
    showResults: bool,
    showExplanation: bool)

  /** The state a freshly loaded quiz page starts in. */
  function InitialState(): SessionState {
    SessionState(None, 0, map[], {}, None, None, false, false)
  }

  /**
   * `handleModeSelect` and the timer effect it triggers: an exam with a
   * (truthy) start time gets a fresh time budget; practice leaves the
   * remaining time as it was.
   */
  function SelectMode(s: SessionState, m: Mode, now: int, n: nat): SessionState {
    s.(mode := Some(m), timeStarted := Some(now),
       timeRemaining := if m == Exam && now != 0 then Some(ExamDuration(n)) else s.timeRemaining)
  }

  /** `handleAnswerSelect`: records the answer; practice mode opens the explanation. */
  function SelectAnswer(s: SessionState, questionIndex: int, answerIndex: int): SessionState {
    s.(answers := s.answers[questionIndex := answerIndex],
       showExplanation := if s.mode == Some(Practice) then true else s.showExplanation)
  }

  /** Whether the explanation is open on arriving at question i: practice mode and i answered. */
  predicate ExplanationOnArrival(s: SessionState, i: int) {
    s.mode == Some(Practice) && i in s.answers
  }

  /** `handleNextQuestion`: forward one question unless at the last; the explanation is always closed. */
  function Next(s: SessionState, n: int): SessionState {
    if s.currentQuestion < n - 1 then s.(currentQuestion := s.currentQuestion + 1, showExplanation := false)
    else s
  }

  /** `handlePreviousQuestion`: back one question unless at the first. */
  function Previous(s: SessionState): SessionState {
    if s.currentQuestion > 0 then
      s.(currentQuestion := s.currentQuestion - 1,
         showExplanation := ExplanationOnArrival(s, s.currentQuestion - 1))
    else s
  }

  /** `handleQuestionJump`: to any index, without a bounds check. */
  function Jump(s: SessionState, i: int): SessionState {
    s.(currentQuestion := i, showExplanation := ExplanationOnArrival(s, i))
  }

  /** `toggleFlag`. */
  function ToggleFlag(s: SessionState, i: int): SessionState {
    s.(flagged := if i in s.flagged then s.flagged - {i} else s.flagged + {i})
  }

  /** The "Show Explanation" button's handler. */
  function RevealExplanation(s: SessionState): SessionState {
    s.(showExplanation := true)
  }

  /** A click on option k of the current question, through the card's guard. */
  function ClickOption(s: SessionState, k: int): SessionState {
    if ClickedAnswer(k, s.showExplanation).Some? then SelectAnswer(s, s.currentQuestion, k) else s
  }

  /** The state part of `handleFinishQuiz`: the results screen is shown. */
  function Finish(s: SessionState): SessionState {
    s.(showResults := true)
  }

  /**
   * The retake handler: answers emptied, back to the first question,
   * results and explanation closed, a new start time and no mode. Flags
   * and the remaining time are kept.
   */
  function Retake(s: SessionState, now: int): SessionState {
    s.(answers := map[], currentQuestion := 0, showResults := false, showExplanation := false,
       timeStarted := Some(now), mode := None)
  }

  /** The state part of one timer tick (the finish it may trigger included). */
  function Tick(s: SessionState): SessionState
    requires s.timeRemaining.Some?
  {
    var (t, finishes) := TickTime(s.timeRemaining.value);
    var s' := if finishes then Finish(s) else s;
    s'.(timeRemaining := Some(t))
  }

  /** The statistics `handleFinishQuiz` hands to the user store. */
  function FinishStats(answered: int, score: int): (stats: Stats)
    ensures stats.Keys == {"questionsAnswered", "accuracy"}
    ensures stats["questionsAnswered"] == answered && stats["accuracy"] == score
  {
    map["questionsAnswered" := answered, "accuracy" := score]
  }

  // ---------------------------------------------------------------------------
  // Properties of the transitions
  // ---------------------------------------------------------------------------

  /**
   * Next moves forward by one exactly when the current question is before
   * the last, and then closes the explanation; at the last question (or
   * beyond) nothing changes. Previous moves back by one exactly when the
   * index is above 0 and then sets the explanation by the arrival rule.
   */
  lemma NavigationSteps(s: SessionState, n: int)
    ensures var s' := Next(s, n);
      if s.currentQuestion < n - 1
      then s'.currentQuestion == s.currentQuestion + 1 && !s'.showExplanation
           && s'.(currentQuestion := s.currentQuestion, showExplanation := s.showExplanation) == s
      else s' == s
    ensures var s' := Previous(s);
      if s.currentQuestion > 0
      then s'.currentQuestion == s.currentQuestion - 1
           && s'.showExplanation == ExplanationOnArrival(s, s'.currentQuestion)
           && s'.(currentQuestion := s.currentQuestion, showExplanation := s.showExplanation) == s
      else s' == s
  {
  }

  /** Next and Previous keep a valid question index valid. */
  lemma NavigationStaysInRange(s: SessionState, n: int)
    requires 0 <= s.currentQuestion < n
    ensures 0 <= Next(s, n).currentQuestion < n
    ensures 0 <= Previous(s).currentQuestion < n
  {
  }

  /** Previous undoes Next, and the explanation comes back open exactly when the arrival rule says. */
  lemma PreviousUndoesNext(s: SessionState, n: int)
    requires 0 <= s.currentQuestion < n - 1
    ensures Previous(Next(s, n)).currentQuestion == s.currentQuestion
    ensures Previous(Next(s, n)).showExplanation == ExplanationOnArrival(s, s.currentQuestion)
    ensures Previous(Next(s, n)).answers == s.answers
  {
  }

  /**
   * Selecting an answer sets that question's entry and no other; practice
   * mode opens the explanation and exam mode leaves it as it was.
   */
  lemma SelectAnswerChangesOneEntry(s: SessionState, qi: int, ai: int)
    ensures var s' := SelectAnswer(s, qi, ai);
      && AnswerAt(s'.answers, qi) == Some(ai)
      && (forall k :: k != qi ==> AnswerAt(s'.answers, k) == AnswerAt(s.answers, k))
      && s'.answers.Keys == s.answers.Keys + {qi}
      && (s.mode == Some(Practice) ==> s'.showExplanation)
      && (s.mode != Some(Practice) ==> s'.showExplanation == s.showExplanation)
      && s'.(answers := s.answers, showExplanation := s.showExplanation) == s
  {
  }

  /** Toggling a flag flips only that question's membership; toggling twice restores the set. */
  lemma ToggleFlagFlipsOne(s: SessionState, i: int)
    ensures var s' := ToggleFlag(s, i);
      && (i in s'.flagged <==> i !in s.flagged)
      && (forall k :: k != i ==> (k in s'.flagged <==> k in s.flagged))
      && s'.(flagged := s.flagged) == s
    ensures ToggleFlag(ToggleFlag(s, i), i) == s
  {
    var s2 := ToggleFlag(ToggleFlag(s, i), i);
    assert s2.flagged == s.flagged;
  }

  /**
   * Once the explanation is open, option clicks change nothing; in practice
   * mode this latches: after a click is recorded, further clicks are inert,
   * and coming back to an answered question (by jump or by previous) makes
   * them inert again.
   */
  lemma ExplanationLatchesAnswer(s: SessionState, i: int, k1: int, k2: int)
    ensures s.showExplanation ==> ClickOption(s, k1) == s
    ensures s.mode == Some(Practice) ==> ClickOption(ClickOption(s, k1), k2) == ClickOption(s, k1)
    ensures s.mode == Some(Practice) && i in s.answers ==> ClickOption(Jump(s, i), k1) == Jump(s, i)
    ensures s.mode == Some(Practice) && s.currentQuestion > 0 && s.currentQuestion - 1 in s.answers ==>
      ClickOption(Previous(s), k1) == Previous(s)
  {
  }

  /**
   * Moving on by Next always closes the explanation, even onto a question
   * already answered: in practice mode the next click there overwrites the
   * recorded answer, so the latch does not survive Next.
   */
  lemma NextReopensAnswered(s: SessionState, n: int, k: int)
    requires s.mode == Some(Practice) && s.currentQuestion < n - 1 && s.currentQuestion + 1 in s.answers
    ensures ClickOption(Next(s, n), k) == Next(s, n).(answers := s.answers[s.currentQuestion + 1 := k], showExplanation := true)
    ensures s.answers[s.currentQuestion + 1] != k ==> ClickOption(Next(s, n), k) != Next(s, n)
  {
    assert ClickOption(Next(s, n), k).answers[s.currentQuestion + 1] == k;
  }

  /**
   * The "Show Explanation" button opens the explanation and nothing else,
   * and from then on option clicks change nothing until a navigation
   * closes it again.
   */
  lemma RevealLatchesClicks(s: SessionState, k: int)
    ensures RevealExplanation(s).showExplanation
    ensures RevealExplanation(s).(showExplanation := s.showExplanation) == s
    ensures ClickOption(RevealExplanation(s), k) == RevealExplanation(s)
  {
  }

  /**
   * The card and the review agree on a question: the card calls it answered
   * exactly when the review does not skip it, and correct exactly when the
   * review marks it Correct.
   */
  lemma CardAgreesWithReview(q: Question, answers: Answers, i: int)
    ensures IsAnswered(AnswerAt(answers, i)) <==> Classify(q, AnswerAt(answers, i)) != Skipped
    ensures IsCorrect(q, AnswerAt(answers, i)) <==> Classify(q, AnswerAt(answers, i)) == Correct
  {
  }

  /** In practice mode, arriving at an unanswered question closes the explanation and at an answered one opens it. */
  lemma ArrivalRule(s: SessionState, i: int)
    ensures Jump(s, i).showExplanation <==> s.mode == Some(Practice) && i in s.answers
    ensures s.mode == Some(Exam) ==> !Jump(s, i).showExplanation
  {
  }

  /** Retake starts over on the same quiz but keeps the flags and the remaining time. */
  lemma RetakeKeepsFlags(s: SessionState, now: int)
    ensures var s' := Retake(s, now);
      && s'.flagged == s.flagged && s'.timeRemaining == s.timeRemaining
      && s'.answers == map[] && s'.currentQuestion == 0 && s'.mode.None?
      && !s'.showResults && !s'.showExplanation
  {
  }

  /**
   * Nothing stops a second finish: finishing twice records two attempts on
   * the quiz, and the user's statistics are simply overwritten again.
   */
  lemma FinishTwiceRecordsTwice(qs: seq<Quiz>, id: string, score: int, t1: string, t2: string, i: int)
    requires 0 <= i < |qs| && qs[i].id == id
    ensures WithAttempt(WithAttempt(qs, id, score, t1), id, score, t2)[i].attempts == qs[i].attempts + 2
  {
  }

  /**
   * A tick above one second takes one second off and changes nothing else;
   * a tick at or below it shows the results and sets the time to 0, and so
   * does every later tick (the interval is never cleared).
   */
  lemma TickSteps(s: SessionState)
    requires s.timeRemaining.Some?
    ensures var t := s.timeRemaining.value;
      if t > 1000 then Tick(s) == s.(timeRemaining := Some(t - 1000))
      else Tick(s) == s.(timeRemaining := Some(0), showResults := true)
    ensures s.timeRemaining.value <= 1000 ==> Tick(Tick(s)) == Tick(s)
  {
  }

  // ---------------------------------------------------------------------------
  // The page
  // ---------------------------------------------------------------------------

  class Session {
    /** The quiz `getQuiz` found for the page's id (a missing quiz never opens a session). */
    const quiz: Quiz
    const store: QuizStore
    const auth: AuthStore

    var mode: Option<Mode>
    var currentQuestion: int
    var answers: Answers
    var flaggedQuestions: set<int>
    var timeStarted: Option<int>
    var timeRemaining: Option<int>
    var showResults: bool
    var showExplanation: bool

    /** The page's state fields as one value. */
    function State(): SessionState
      reads this
    {
      SessionState(mode, currentQuestion, answers, flaggedQuestions, timeStarted, timeRemaining,
                   showResults, showExplanation)
    }

    /** Writes a state value back into the fields (helper). */
    method SetState(s: SessionState)
      modifies this
      ensures State() == s
    {
      mode, currentQuestion, answers, flaggedQuestions := s.mode, s.currentQuestion, s.answers, s.flagged;
      timeStarted, timeRemaining := s.timeStarted, s.timeRemaining;
      showResults, showExplanation := s.showResults, s.showExplanation;
    }

    constructor (quiz: Quiz, store: QuizStore, auth: AuthStore)
      ensures this.quiz == quiz && this.store == store && this.auth == auth
      ensures State() == InitialState()
    {
      this.quiz, this.store, this.auth := quiz, store, auth;
      mode, currentQuestion, answers, flaggedQuestions := None, 0, map[], {};
      timeStarted, timeRemaining, showResults, showExplanation := None, None, false, false;
    }

    method HandleModeSelect(m: Mode, now: int)
      modifies this
      ensures State() == SelectMode(old(State()), m, now, |quiz.questions|)
    {
      SetState(SelectMode(State(), m, now, |quiz.questions|));
    }

    method HandleAnswerSelect(questionIndex: int, answerIndex: int)
      modifies this
      ensures State() == SelectAnswer(old(State()), questionIndex, answerIndex)
    {
      answers := answers[questionIndex := answerIndex];
      if mode == Some(Practice) {
        showExplanation := true;
      }
    }

    method HandleNextQuestion()
      modifies this
      ensures State() == Next(old(State()), |quiz.questions|)
    {
      if currentQuestion < |quiz.questions| - 1 {
        currentQuestion := currentQuestion + 1;
        showExplanation := false;
      }
    }

    method HandlePreviousQuestion()
      modifies this
      ensures State() == Previous(old(State()))
    {
      if currentQuestion > 0 {
        showExplanation := mode == Some(Practice) && currentQuestion - 1 in answers;
        currentQuestion := currentQuestion - 1;
      }
    }

    method HandleQuestionJump(questionIndex: int)
      modifies this
      ensures State() == Jump(old(State()), questionIndex)
    {
      currentQuestion := questionIndex;
      showExplanation := mode == Some(Practice) && questionIndex in answers;
    }

    method HandleToggleFlag(questionIndex: int)
      modifies this
      ensures State() == ToggleFlag(old(State()), questionIndex)
    {
      if questionIndex in flaggedQuestions {
        flaggedQuestions := flaggedQuestions - {questionIndex};
      } else {
        flaggedQuestions := flaggedQuestions + {questionIndex};
      }
    }

    method HandleShowExplanation()
      modifies this
      ensures State() == RevealExplanation(old(State()))
    {
      showExplanation := true;
    }

    /** A click on option k of the current question card. */
    method HandleOptionClick(k: int)
      modifies this
      ensures State() == ClickOption(old(State()), k)
    {
      if !showExplanation {
        HandleAnswerSelect(currentQuestion, k);
      }
    }

    /**
     * `handleFinishQuiz`: records the score on the quiz, overwrites the
     * user's answered count and accuracy, and shows the results. There is
     * no guard against a second call.
     */
    method HandleFinishQuiz(nowIso: string)
      requires |quiz.questions| > 0 && ValidAnswers(answers, |quiz.questions|)
      modifies this, store, auth
      ensures var score := Score(quiz.questions, old(answers));
        && store.quizzes == WithAttempt(old(store.quizzes), quiz.id, score, nowIso)
        && auth.user == MergeStats(old(auth.user), FinishStats(|old(answers)|, score))
      ensures State() == Finish(old(State()))
    {
      var score := Score(quiz.questions, answers);
      store.UpdateQuizStats(quiz.id, score, 0, nowIso);
      auth.UpdateStats(FinishStats(|answers|, score));
      showResults := true;
    }

    /** The retake handler on the results screen. */
    method HandleRetake(now: int)
      modifies this
      ensures State() == Retake(old(State()), now)
    {
      answers := map[];
      currentQuestion := 0;
      showResults := false;
      showExplanation := false;
      timeStarted := Some(now);
      mode := None;
    }

    /**
     * One tick of the exam interval, which runs only in exam mode once the
     * budget is set. At 1000 ms or less it finishes the quiz.
     */
    method HandleTick(nowIso: string)
      requires mode == Some(Exam) && timeRemaining.Some?
      requires timeRemaining.value <= 1000 ==> |quiz.questions| > 0 && ValidAnswers(answers, |quiz.questions|)
      modifies this, store, auth
      ensures State() == Tick(old(State()))
      ensures old(timeRemaining.value) > 1000 ==>
        store.quizzes == old(store.quizzes) && auth.user == old(auth.user)
      ensures old(timeRemaining.value) <= 1000 ==>
        var score := Score(quiz.questions, old(answers));
        && store.quizzes == WithAttempt(old(store.quizzes), quiz.id, score, nowIso)
        && auth.user == MergeStats(old(auth.user), FinishStats(|old(answers)|, score))
    {
      if timeRemaining.value <= 1000 {
        HandleFinishQuiz(nowIso);
        timeRemaining := Some(0);
      } else {
        timeRemaining := Some(timeRemaining.value - 1000);
      }
    }
  }

  /**
   * Two finishes on one session, as the page allows: the quiz's stored
   * record counts two more attempts and the results stay shown.
   */
  method FinishTwice(session: Session, t1: string, t2: string)
    requires |session.quiz.questions| > 0 && ValidAnswers(session.answers, |session.quiz.questions|)
    modifies session, session.store, session.auth
    ensures |session.store.quizzes| == |old(session.store.quizzes)|
    ensures forall i :: 0 <= i < |session.store.quizzes| && old(session.store.quizzes)[i].id == session.quiz.id ==>
      session.store.quizzes[i].attempts == old(session.store.quizzes)[i].attempts + 2
    ensures session.showResults && session.answers == old(session.answers)
  {
    session.HandleFinishQuiz(t1);
    session.HandleFinishQuiz(t2);
  }
}
