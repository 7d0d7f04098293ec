/**
 * The results screen shown when a session finishes: the correct, incorrect
 * and skipped tiles, the per-question review, the score colour and message
 * bands, and the time-spent text. Everything here is derived from the
 * quiz's questions and the session's answers; nothing changes state.
 */
module QuizResults {
  import opened Wrappers
  import opened QuizModel
  import opened JsBuiltins

  /** The session's answers: question index to chosen option index. */
  type Answers = map<int, int>

  /**
   * Every answer key indexes a question. The source looks each key up with
   * `quiz.questions[questionIndex].correctAnswer`, which throws on a key
   * outside the quiz, so every count that reads answers needs this.
   */
  predicate ValidAnswers(answers: Answers, n: int) {
    forall k :: k in answers ==> 0 <= k < n
  }

  /** `answers[i]`, absent (`undefined`) when question i has no answer. */
  function AnswerAt(answers: Answers, i: int): Option<int> {
    if i in answers then Some(answers[i]) else None
  }

  // ---------------------------------------------------------------------------
  // Tiles
  // ---------------------------------------------------------------------------

  /** The answered question indexes below i. */
  function AnsweredBelow(answers: Answers, i: int): set<int> {
    set k | k in answers && 0 <= k < i
  }

  /** The answered question indexes below i whose answer equals the question's correctAnswer. */
  function CorrectBelow(questions: seq<Question>, answers: Answers, i: int): set<int>
    requires i <= |questions|
  {
    set k | k in answers && 0 <= k < i && answers[k] == questions[k].correctAnswer
  }

  /**
   * The Correct tile: the number of answer entries that match their
   * question's correctAnswer. It never exceeds the number of answers.
   */
  function CorrectCount(questions: seq<Question>, answers: Answers): (r: nat)
    requires ValidAnswers(answers, |questions|)
    ensures r <= |answers|
  {
    var c := CorrectBelow(questions, answers, |questions|);
    assert c <= answers.Keys;
    SubsetCard(c, answers.Keys);
    |c|
  }

  /** A subset has no more elements than its superset (helper). */
  lemma SubsetCard(a: set<int>, b: set<int>)
    requires a <= b
    ensures |a| <= |b|
  {
    assert b == a + (b - a);
  }

  /** The first n question indexes. */
  function IndexRange(n: nat): (r: set<int>)
    ensures forall k :: k in r <==> 0 <= k < n
  {
    if n == 0 then {} else IndexRange(n - 1) + {n - 1}
  }

  /** There are n indexes below n (helper). */
  lemma {:induction false} IndexRangeCard(n: nat)
    ensures |IndexRange(n)| == n
  {
    if n > 0 {
      IndexRangeCard(n - 1);
    }
  }

  /** With every key a question index, there are no more answers than questions. */
  lemma AnsweredAtMostTotal(answers: Answers, n: nat)
    requires ValidAnswers(answers, n)
    ensures |answers| <= n
  {
    assert answers.Keys <= IndexRange(n);
    SubsetCard(answers.Keys, IndexRange(n));
    IndexRangeCard(n);
  }

  /** The three counting tiles. */
  datatype Tiles = Tiles(correct: int, incorrect: int, skipped: int)

  /**
   * The tiles as the results screen computes them: Incorrect is answered
   * minus correct and Skipped is total minus answered.
   */
  function TilesOf(questions: seq<Question>, answers: Answers): (t: Tiles)
    requires ValidAnswers(answers, |questions|)
    ensures t.correct >= 0 && t.incorrect >= 0 && t.skipped >= 0
    ensures t.correct + t.incorrect == |answers|
    ensures t.correct + t.incorrect + t.skipped == |questions|
  {
    var correct := CorrectCount(questions, answers);
    AnsweredAtMostTotal(answers, |questions|);
    Tiles(correct, |answers| - correct, |questions| - |answers|)
  }

  // ---------------------------------------------------------------------------
  // Per-question review
  // ---------------------------------------------------------------------------

  datatype Outcome = Correct | Incorrect | Skipped

  /**
   * One row of the review: Skipped without an answer, otherwise Correct when
   * the answer equals correctAnswer and Incorrect when it does not.
   */
  function Classify(q: Question, userAnswer: Option<int>): (o: Outcome)
    ensures o == Skipped <==> userAnswer.None?
    ensures o == Correct <==> userAnswer == Some(q.correctAnswer)
    ensures o == Incorrect <==> userAnswer.Some? && userAnswer.value != q.correctAnswer
  {
    if userAnswer.None? then Skipped
    else if userAnswer.value == q.correctAnswer then Correct
    else Incorrect
  }

  /** The review list, one outcome per question in quiz order. */
  function Breakdown(questions: seq<Question>, answers: Answers): (b: seq<Outcome>)
    ensures |b| == |questions|
    ensures forall i :: 0 <= i < |b| ==> b[i] == Classify(questions[i], AnswerAt(answers, i))
  {
    seq(|questions|, i requires 0 <= i < |questions| => Classify(questions[i], AnswerAt(answers, i)))
  }

  /** The counts of a prefix of the review list against the answer sets below i. */
  lemma {:induction false} BreakdownPrefixCounts(questions: seq<Question>, answers: Answers, i: nat)
    requires i <= |questions|
    ensures var m := multiset(Breakdown(questions, answers)[..i]);
      && m[Correct] == |CorrectBelow(questions, answers, i)|
      && m[Correct] + m[Incorrect] == |AnsweredBelow(answers, i)|
      && m[Skipped] == i - |AnsweredBelow(answers, i)|
  {
    if i > 0 {
      var j := i - 1;
      BreakdownPrefixCounts(questions, answers, j);
      var b := Breakdown(questions, answers);
      assert b[..i] == b[..j] + [b[j]];
      assert multiset(b[..i]) == multiset(b[..j]) + multiset{b[j]};
      BelowSetsStep(questions, answers, j);
    }
  }

  /** How the answered and correct sets grow by one question index (helper). */
  lemma BelowSetsStep(questions: seq<Question>, answers: Answers, j: nat)
    requires j < |questions|
    ensures |AnsweredBelow(answers, j + 1)| == |AnsweredBelow(answers, j)| + (if j in answers then 1 else 0)
    ensures |CorrectBelow(questions, answers, j + 1)| == |CorrectBelow(questions, answers, j)|
      + (if Classify(questions[j], AnswerAt(answers, j)) == Correct then 1 else 0)
  {
    var c, c' := CorrectBelow(questions, answers, j), CorrectBelow(questions, answers, j + 1);
    var a, a' := AnsweredBelow(answers, j), AnsweredBelow(answers, j + 1);
    if j in answers {
      assert a' == a + {j};
      if answers[j] == questions[j].correctAnswer {
        assert c' == c + {j};
      } else {
        assert c' == c;
      }
    } else {
      assert a' == a;
      assert c' == c;
    }
  }

  /**
   * The tiles agree with the review list: the number of rows marked Correct,
   * Incorrect and Skipped are the Correct, Incorrect and Skipped tiles.
   */
  lemma TilesMatchBreakdown(questions: seq<Question>, answers: Answers)
    requires ValidAnswers(answers, |questions|)
    ensures var m, t := multiset(Breakdown(questions, answers)), TilesOf(questions, answers);
      m[Correct] == t.correct && m[Incorrect] == t.incorrect && m[Skipped] == t.skipped
  {
    var b := Breakdown(questions, answers);
    BreakdownPrefixCounts(questions, answers, |questions|);
    assert b[..|questions|] == b;
    assert AnsweredBelow(answers, |questions|) == answers.Keys;
  }

  // ---------------------------------------------------------------------------
  // Score colour and message
  // ---------------------------------------------------------------------------

  datatype ScoreColor = Green | Yellow | Red

  /** The colour of the big score figure. */
  function ScoreColorOf(score: int): (c: ScoreColor)
    ensures c == Green <==> 80 <= score
    ensures c == Yellow <==> 60 <= score < 80
    ensures c == Red <==> score < 60
  {
    if score >= 80 then Green
    else if score >= 60 then Yellow
    else Red
  }

  /** The five encouragement messages, best first. */
  datatype ScoreMessage = Outstanding | Excellent | GoodJob | NotBad | KeepStudying {
    /** The message text (the source appends an emoji, not modelled). */
    function Text(): string {
      match this
      case Outstanding => "Outstanding!"
      case Excellent => "Excellent work!"
      case GoodJob => "Good job!"
      case NotBad => "Not bad, keep practicing!"
      case KeepStudying => "Keep studying, you'll improve!"
    }

    /** The band's position, 0 for the lowest band. */
    function Rank(): nat {
      match this
      case KeepStudying => 0
      case NotBad => 1
      case GoodJob => 2
      case Excellent => 3
      case Outstanding => 4
    }
  }

  /** The message under the results heading, banded at 90, 80, 70 and 60. */
  function ScoreMessageOf(score: int): (m: ScoreMessage)
    ensures m == Outstanding <==> 90 <= score
    ensures m == Excellent <==> 80 <= score < 90
    ensures m == GoodJob <==> 70 <= score < 80
    ensures m == NotBad <==> 60 <= score < 70
    ensures m == KeepStudying <==> score < 60
  {
    if score >= 90 then Outstanding
    else if score >= 80 then Excellent
    else if score >= 70 then GoodJob
    else if score >= 60 then NotBad
    else KeepStudying
  }

  /** A higher score never gets a lower message band. */
  lemma ScoreMessageMonotone(s1: int, s2: int)
    requires s1 <= s2
    ensures ScoreMessageOf(s1).Rank() <= ScoreMessageOf(s2).Rank()
  {
  }

  /** The colour and the message agree: green with the top two bands, yellow with the middle two. */
  lemma ColorMatchesMessage(score: int)
    ensures ScoreColorOf(score) == Green <==> ScoreMessageOf(score).Rank() >= 3
    ensures ScoreColorOf(score) == Yellow <==> ScoreMessageOf(score).Rank() in {1, 2}
    ensures ScoreColorOf(score) == Red <==> ScoreMessageOf(score) == KeepStudying
  {
  }

  // ---------------------------------------------------------------------------
  // Time spent
  // ---------------------------------------------------------------------------

  /**
   * `Math.floor(ms / 60000)` and `Math.floor((ms % 60000) / 1000)`: whole
   * minutes and the whole seconds left over, so the pair is ms truncated to
   * whole seconds.
   */
  function TimeParts(ms: nat): (r: (nat, nat))
    ensures r.1 < 60
    ensures 60000 * r.0 + 1000 * r.1 <= ms < 60000 * r.0 + 1000 * r.1 + 1000
  {
    var rest := ms % 60000;
    assert ms == 60000 * (ms / 60000) + rest;
    assert rest == 1000 * (rest / 1000) + rest % 1000;
    (ms / 60000, rest / 1000)
  }

  /** The Time Spent tile: minutes, "m ", seconds, "s". */
  function FormatDuration(ms: nat): string {
    var (m, s) := TimeParts(ms);
    Decimal(m) + "m " + Decimal(s) + "s"
  }

  /**
   * The tile reads back as the elapsed time truncated to whole seconds: two
   * digit runs whose values are the minutes and the seconds (below 60).
   */
  lemma FormatDurationReadsBack(ms: nat)
    ensures exists mt: string, st: string ::
      && AllDigits(mt) && AllDigits(st) && |st| <= 2
      && FormatDuration(ms) == mt + "m " + st + "s"
      && DecimalValue(st) < 60
      && 60000 * DecimalValue(mt) + 1000 * DecimalValue(st) <= ms
      && ms < 60000 * DecimalValue(mt) + 1000 * DecimalValue(st) + 1000
  {
    var (m, s) := TimeParts(ms);
    DecimalRoundTrip(m);
    DecimalRoundTrip(s);
    var mt, st := Decimal(m), Decimal(s);
    assert |st| <= 2 by { if s >= 10 { assert Decimal(s) == Decimal(s / 10) + [DigitChar(s % 10)]; } }
    assert FormatDuration(ms) == mt + "m " + st + "s";
  }
}
