/**
 * The quiz store: an in-memory list of quizzes that every operation
 * replaces wholesale (append, map-update, filter). The simulated network
 * delay and the browser persistence are not modelled; each operation is a
 * synchronous update of `quizzes`.
 */
module QuizRepository {
  import opened Wrappers
  import opened QuizModel
  import opened JsBuiltins

  // ---------------------------------------------------------------------------
  // Records
  // ---------------------------------------------------------------------------

  /** The creator's view of a stored quiz, with the id it ended up with. */
  function DataOf(q: Quiz): QuizData {
    QuizData(Some(q.id), q.title, q.description, q.subject, q.examType, q.difficulty,
             q.questions, q.creationMethod, q.isPublic)
  }

  /**
   * The record `createQuiz` stores: the generated id, then the caller's data
   * spread over it (so an id in the data wins), both timestamps, no
   * attempts, a zero average and not favourited.
   */
  function NewQuiz(data: QuizData, generatedId: string, now: string): (q: Quiz)
    ensures q.id == if data.id.Some? then data.id.value else generatedId
    ensures DataOf(q) == data.(id := Some(q.id))
    ensures q.createdAt == now && q.lastAccessed == now
    ensures q.attempts == 0 && q.averageScore == 0 && !q.isFavorited
  {
    Quiz(if data.id.Some? then data.id.value else generatedId,
         data.title, data.description, data.subject, data.examType, data.difficulty,
         data.questions, data.creationMethod, data.isPublic,
         now, now, 0, 0, false)
  }

  /**
   * One finished session recorded on a quiz: one more attempt, the average
   * recomputed from the previous (already rounded) average and rounded to
   * the nearest integer, and the access time refreshed. The timeSpent the
   * caller passes is not used by the source.
   */
  function RecordAttempt(q: Quiz, score: int, now: string): (r: Quiz)
    ensures r.attempts == q.attempts + 1
    ensures var n, total := r.attempts, q.averageScore * q.attempts + score;
      2 * n * r.averageScore - n <= 2 * total < 2 * n * r.averageScore + n
    ensures r.lastAccessed == now
    ensures r.(attempts := q.attempts, averageScore := q.averageScore, lastAccessed := q.lastAccessed) == q
  {
    var n := q.attempts + 1;
    q.(attempts := n,
       averageScore := RoundDiv(q.averageScore * q.attempts + score, n),
       lastAccessed := now)
  }

  /** Scores between 0 and 100 keep the running average between 0 and 100. */
  lemma AverageStaysInRange(q: Quiz, score: int, now: string)
    requires 0 <= q.averageScore <= 100 && 0 <= score <= 100
    ensures 0 <= RecordAttempt(q, score, now).averageScore <= 100
  {
    var n := q.attempts + 1;
    var total := q.averageScore * q.attempts + score;
    ScaledAverageBounds(q.averageScore, q.attempts);
    assert n * 0 <= total <= n * 100;
    RoundDivBetween(total, n, 0, 100);
  }

  /** An average in [0, 100] over t attempts sums to between 0 and 100·t (helper). */
  lemma {:induction false} ScaledAverageBounds(avg: int, t: nat)
    requires 0 <= avg <= 100
    ensures 0 <= avg * t <= 100 * t
  {
    if t > 0 {
      ScaledAverageBounds(avg, t - 1);
      assert avg * t == avg * (t - 1) + avg;
    }
  }

  /** Two sessions on a fresh quiz: two attempts and the rounded mean of the two scores. */
  lemma TwoAttemptsAverage(q: Quiz, s1: int, s2: int, t1: string, t2: string)
    requires q.attempts == 0
    ensures var r := RecordAttempt(RecordAttempt(q, s1, t1), s2, t2);
      r.attempts == 2 && r.averageScore == RoundDiv(s1 + s2, 2)
  {
    RoundDivExact(s1, 1);
    assert RecordAttempt(q, s1, t1).averageScore == s1;
  }

  // ---------------------------------------------------------------------------
  // The store's list operations
  // ---------------------------------------------------------------------------

  /** `quizzes.map(...)` in `updateQuizStats`: matching records record the attempt. */
  function WithAttempt(qs: seq<Quiz>, id: string, score: int, now: string): (r: seq<Quiz>)
    ensures |r| == |qs|
    ensures forall i :: 0 <= i < |qs| ==>
      r[i] == if qs[i].id == id then RecordAttempt(qs[i], score, now) else qs[i]
  {
    seq(|qs|, i requires 0 <= i < |qs| => if qs[i].id == id then RecordAttempt(qs[i], score, now) else qs[i])
  }

  /** Recording an attempt keeps the order and the ids, and an unknown id changes nothing. */
  lemma WithAttemptKeepsIds(qs: seq<Quiz>, id: string, score: int, now: string)
    ensures forall i :: 0 <= i < |qs| ==> WithAttempt(qs, id, score, now)[i].id == qs[i].id
    ensures (forall i :: 0 <= i < |qs| ==> qs[i].id != id) ==> WithAttempt(qs, id, score, now) == qs
  {
  }

  /** `quizzes.map(...)` in `toggleFavorite`: matching records flip isFavorited. */
  function WithFavoriteToggled(qs: seq<Quiz>, id: string): (r: seq<Quiz>)
    ensures |r| == |qs|
    ensures forall i :: 0 <= i < |qs| ==>
      r[i] == if qs[i].id == id then qs[i].(isFavorited := !qs[i].isFavorited) else qs[i]
  {
    seq(|qs|, i requires 0 <= i < |qs| => if qs[i].id == id then qs[i].(isFavorited := !qs[i].isFavorited) else qs[i])
  }

  /** Toggling twice restores the list; an unknown id changes nothing. */
  lemma ToggleTwiceRestores(qs: seq<Quiz>, id: string)
    ensures WithFavoriteToggled(WithFavoriteToggled(qs, id), id) == qs
    ensures (forall i :: 0 <= i < |qs| ==> qs[i].id != id) ==> WithFavoriteToggled(qs, id) == qs
  {
    var once := WithFavoriteToggled(qs, id);
    var twice := WithFavoriteToggled(once, id);
    assert forall i :: 0 <= i < |qs| ==> once[i].id == qs[i].id;
    assert forall i :: 0 <= i < |qs| ==> twice[i] == qs[i];
  }

  /** `quizzes.filter(quiz => quiz.id !== id)` in `deleteQuiz`. */
  function Without(qs: seq<Quiz>, id: string): (r: seq<Quiz>)
    ensures |r| <= |qs|
    ensures forall i :: 0 <= i < |r| ==> r[i].id != id
  {
    if qs == [] then []
    else if qs[0].id == id then Without(qs[1..], id)
    else [qs[0]] + Without(qs[1..], id)
  }

  /** Filtering keeps the order: the kept records of a concatenation are those of each part, in turn. */
  lemma {:induction false} WithoutAppend(a: seq<Quiz>, b: seq<Quiz>, id: string)
    ensures Without(a + b, id) == Without(a, id) + Without(b, id)
  {
    if a == [] {
      assert a + b == b;
    } else {
      var ab := a + b;
      assert ab[0] == a[0] && ab[1..] == a[1..] + b;
      WithoutAppend(a[1..], b, id);
      if a[0].id == id {
        assert Without(ab, id) == Without(a[1..] + b, id);
      } else {
        assert Without(ab, id) == [a[0]] + Without(a[1..] + b, id);
        assert Without(a, id) == [a[0]] + Without(a[1..], id);
      }
    }
  }

  /** Every record without the id is kept as often as it occurs; none with the id is kept. */
  lemma {:induction false} WithoutCounts(qs: seq<Quiz>, id: string, q: Quiz)
    ensures multiset(Without(qs, id))[q] == if q.id == id then 0 else multiset(qs)[q]
  {
    if qs != [] {
      WithoutCounts(qs[1..], id, q);
      assert qs == [qs[0]] + qs[1..];
    }
  }

  /** Deleting is idempotent, and deleting an absent id leaves the list as it was. */
  lemma {:induction false} WithoutIdempotent(qs: seq<Quiz>, id: string)
    ensures Without(Without(qs, id), id) == Without(qs, id)
    ensures (forall i :: 0 <= i < |qs| ==> qs[i].id != id) ==> Without(qs, id) == qs
  {
    if qs != [] {
      WithoutIdempotent(qs[1..], id);
    }
  }

  // ---------------------------------------------------------------------------
  // The canned AI quiz
  // ---------------------------------------------------------------------------

  /** The two sample questions `generateAIQuiz` offers for a topic. */
  function SampleQuestions(topic: string, difficulty: Difficulty): seq<Question> {
    [ Question("1",
        "Which of the following is the primary function of the heart in " + topic + "?",
        ["Pumping blood throughout the body", "Filtering toxins from blood",
         "Producing red blood cells", "Storing oxygen"],
        0,
        "The heart's primary function is to pump blood throughout the body, delivering oxygen and nutrients to tissues.",
        difficulty, Some(topic)),
      Question("2",
        "In " + topic + ", what is the normal resting heart rate for adults?",
        ["40-60 bpm", "60-100 bpm", "100-120 bpm", "120-140 bpm"],
        1,
        "The normal resting heart rate for adults is 60-100 beats per minute.",
        difficulty, Some(topic)) ]
  }

  /** The quiz data `generateAIQuiz` hands to `createQuiz`. The exam type is always NEET-UG. */
  function AiQuizData(topic: string, difficulty: Difficulty, questionCount: int): QuizData {
    QuizData(None,
             "AI Generated: " + topic + " Quiz",
             "AI-generated quiz covering " + topic + " concepts at " + difficulty.Name() + " difficulty level",
             topic, "NEET-UG", difficulty,
             SliceTo(SampleQuestions(topic, difficulty), questionCount),
             AiGenerated, false)
  }

  /**
   * The generated quiz holds the first min(questionCount, 2) sample
   * questions (a negative count drops from the back, as `slice` does); each
   * has four options, a correctAnswer among them, the requested difficulty
   * and the topic.
   */
  lemma AiQuestionsWellFormed(topic: string, difficulty: Difficulty, questionCount: int)
    ensures var qs := AiQuizData(topic, difficulty, questionCount).questions;
      && qs <= SampleQuestions(topic, difficulty)
      && (0 <= questionCount ==> |qs| == if questionCount < 2 then questionCount else 2)
      && (questionCount < 0 ==> |qs| == if questionCount < -2 then 0 else 2 + questionCount)
      && forall i :: 0 <= i < |qs| ==>
           && |qs[i].options| == 4 && 0 <= qs[i].correctAnswer < 4
           && qs[i].difficulty == difficulty && qs[i].topic == Some(topic)
  {
    var qs := AiQuizData(topic, difficulty, questionCount).questions;
    var all := SampleQuestions(topic, difficulty);
    assert forall i :: 0 <= i < |qs| ==> qs[i] == all[i];
  }

  // ---------------------------------------------------------------------------
  // The store
  // ---------------------------------------------------------------------------

  class QuizStore {
    /** The stored quizzes, in creation order. */
    var quizzes: seq<Quiz>

    constructor ()
      ensures quizzes == []
    {
      quizzes := [];
    }

    /** `createQuiz`: appends the new record and returns it. `generatedId` is `Date.now().toString()`. */
    method CreateQuiz(data: QuizData, generatedId: string, now: string) returns (quiz: Quiz)
      modifies this
      ensures quiz == NewQuiz(data, generatedId, now)
      ensures quizzes == old(quizzes) + [quiz]
    {
      quiz := NewQuiz(data, generatedId, now);
      quizzes := quizzes + [quiz];
    }

    /** `getQuiz`: the first quiz with the id, or nothing when no quiz has it. */
    method GetQuiz(id: string) returns (found: Option<Quiz>)
      ensures found.None? <==> forall i :: 0 <= i < |quizzes| ==> quizzes[i].id != id
      ensures found.Some? ==> found.value.id == id && exists i ::
        && 0 <= i < |quizzes| && quizzes[i] == found.value
        && (forall j :: 0 <= j < i ==> quizzes[j].id != id)
    {
      var i := 0;
      while i < |quizzes|
        invariant 0 <= i <= |quizzes|
        invariant forall j :: 0 <= j < i ==> quizzes[j].id != id
      {
        if quizzes[i].id == id {
          return Some(quizzes[i]);
        }
        i := i + 1;
      }
      return None;
    }

    /** `updateQuizStats`: every quiz with the id records the attempt; `timeSpent` is unused. */
    method UpdateQuizStats(quizId: string, score: int, timeSpent: int, now: string)
      modifies this
      ensures quizzes == WithAttempt(old(quizzes), quizId, score, now)
    {
      quizzes := WithAttempt(quizzes, quizId, score, now);
    }

    /** `toggleFavorite`. */
    method ToggleFavorite(quizId: string)
      modifies this
      ensures quizzes == WithFavoriteToggled(old(quizzes), quizId)
    {
      quizzes := WithFavoriteToggled(quizzes, quizId);
    }

    /** `deleteQuiz`. */
    method DeleteQuiz(quizId: string)
      modifies this
      ensures quizzes == Without(old(quizzes), quizId)
    {
      quizzes := Without(quizzes, quizId);
    }

    /** `generateAIQuiz`: builds the canned quiz for the topic and creates it. */
    method GenerateAIQuiz(topic: string, difficulty: Difficulty, questionCount: int, generatedId: string, now: string)
      returns (quiz: Quiz)
      modifies this
      ensures quiz == NewQuiz(AiQuizData(topic, difficulty, questionCount), generatedId, now)
      ensures quizzes == old(quizzes) + [quiz]
    {
      quiz := CreateQuiz(AiQuizData(topic, difficulty, questionCount), generatedId, now);
    }
  }
}
