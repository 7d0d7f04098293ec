/**
 * The records the quiz platform passes around: a question, the data a
 * creator hands to the store, and the stored quiz. Timestamps and ids made
 * from `Date.now()` are opaque strings supplied by the caller.
 */
module QuizModel {
  import opened Wrappers

  /** The three difficulty levels the creators offer. */
  datatype Difficulty = Basic | Intermediate | Advanced {
    /** The value the creators' form controls carry. */
    function Name(): string {
      match this
      case Basic => "basic"
      case Intermediate => "intermediate"
      case Advanced => "advanced"
    }
  }

  /** Provenance tag set by each creator. */
  datatype CreationMethod = AiGenerated | CopyPaste | Manual

  /**
   * A multiple-choice question. `correctAnswer` is a zero-based index into
   * `options`; nothing in the source enforces that it is in range. `topic`
   * is present on generated questions and absent on manually written ones.
   */
  datatype Question = Question(
    id: string,
    text: string,
    options: seq<string>,
    correctAnswer: int,
    explanation: string,
    difficulty: Difficulty,
    topic: Option<string>)

  /**
   * What a creator passes to `createQuiz`. `id` is absent unless the caller
   * supplies one; when present it wins over the generated id.
   */
  datatype QuizData = QuizData(
    id: Option<string>,
    title: string,
    description: string,
    subject: string,
    examType: string,
    difficulty: Difficulty,
    questions: seq<Question>,
    creationMethod: CreationMethod,
    isPublic: bool)

  /** A stored quiz: the creator's data plus the fields the store maintains. */
  datatype Quiz = Quiz(
    id: string,
    title: string,
    description: string,
    subject: string,
    examType: string,
    difficulty: Difficulty,
    questions: seq<Question>,
    creationMethod: CreationMethod,
    isPublic: bool,
    createdAt: string,
    lastAccessed: string,
    attempts: nat,
    averageScore: int,
    isFavorited: bool)
}
