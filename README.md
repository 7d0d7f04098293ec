# Medical quiz platform: quiz logic in Dafny

This project models the quiz logic of a React medical-exam quiz platform,
with everything that only draws the page removed. The model has five parts.

- **Quiz page.** A session over one quiz moves through these stages: choose
  practice or exam mode, answer, navigate (next, previous, jump), flag
  questions, and, in an exam, run a countdown. It then finishes with a score
  and a results screen, from which the user can retake the quiz.
- **Results screen and question card.** These derive the correct, incorrect
  and skipped tiles, the per-question review, the score colour and message,
  the time-spent text, the marking of each option, and the guard that makes
  option clicks inert once the explanation is open.
- **Quiz store.** A list of quiz records with these operations: create
  (append with defaults), get (first match), record an attempt (running
  rounded average), toggle favourite, delete, and generate a canned AI quiz.
- **User store.** A single user slot. Login and register fill it with a mock
  user, logout empties it, and a stats update merges into it.
- **Three quiz creators.**
  - The manual editor keeps a non-empty question list, edits it field by
    field, and submits only the complete questions.
  - The AI generator is a three-step wizard.
  - The copy-paste creator is a two-step wizard that builds two placeholder
    questions.

The model has one Dafny module per source file:

| module | file |
|---|---|
| `QuizSession` | `quiz_session.dfy` |
| `QuizResults` | `quiz_results.dfy` |
| `QuizQuestionView` | `quiz_question.dfy` |
| `QuizRepository` | `quiz_store.dfy` |
| `Auth` | `auth_store.dfy` |
| `ManualCreator` | `manual_creator.dfy` |
| `AiGenerator` | `ai_generator.dfy` |
| `CopyPasteCreator` | `copy_paste_creator.dfy` |

Three support modules complete it:

- `QuizModel` holds the records.
- `JsBuiltins` holds the JavaScript built-ins the logic relies on: `Math.round`
  of a ratio, `slice`, `trim`, number-to-text and `padStart`.
- `Wrappers` holds `Option` and `Result`.

Stateful parts are classes whose methods reassign their fields:

- `QuizStore.quizzes`
- `AuthStore.user`
- the `Session` page fields
- the three creator forms

Each method's `ensures` ties the new state to a pure function of the old one,
and the lemmas prove what the source promises about those functions.

Some behaviours of the code are modelled as written, and a lemma states each
one:

- Next always closes the explanation.
- Jump has no bounds check.
- Retake keeps the flags.
- Finishing twice records two attempts.
- The exam interval keeps finishing on every tick once time is up.
- The AI quiz's exam type is always NEET-UG, whatever exam type the wizard
  selected.
- Picking "Overall Topic" generates a quiz on the literal topic
  "Overall Topic".

## Model

| member | source | states |
|---|---|---|
| QuizSession.Score | src/pages/QuizPage.jsx:123-129 | The score is within 0..100 and is the half-up rounding of 100·correct/n: `2nr - n <= 200c < 2nr + n`. |
| QuizSession.NoAnswersScoresZero | src/pages/QuizPage.jsx:123-129 | With no answers the score is 0, and the tiles are 0 correct, 0 incorrect, n skipped. |
| QuizSession.AllCorrectScoresHundred | src/pages/QuizPage.jsx:123-129 | When every question is answered correctly the score is 100. |
| QuizSession.AllWrongScoresZero | src/pages/QuizPage.jsx:123-129 | When every question is answered wrongly the score is 0. |
| QuizSession.HalfRightScoresFifty | src/pages/QuizPage.jsx:123-129 | Two questions with one right and one wrong give 50, the review [Correct, Incorrect], and tiles 1/1/0. |
| QuizSession.ExamDuration | src/pages/QuizPage.jsx:43 | The exam budget is 120000·n ms, or 1800000 ms when n is 0. |
| QuizSession.TickTime | src/pages/QuizPage.jsx:47-53 | A tick at or below 1000 ms finishes the exam and sets the time to 0; otherwise it takes off 1000 ms. |
| QuizSession.TicksToFinishWholeSeconds | src/pages/QuizPage.jsx:47-53 | From 1000·k ms the countdown finishes on exactly the k-th tick. |
| QuizSession.ExamFinishesAfter | src/pages/QuizPage.jsx:43-53 | An exam of n questions finishes on tick 120·n, or tick 1800 when n is 0. |
| QuizSession.TickSteps | src/pages/QuizPage.jsx:46-54 | A tick above one second only takes off a second. A tick at or below it sets the time to 0 and shows results, and so does every later tick. |
| QuizSession.FormatClockReadsBack | src/pages/QuizPage.jsx:131-135 | The exam clock is `m:ss`, with exactly two second digits below 60, and it reads back as the time truncated to whole seconds. |
| QuizSession.NavColorOf | src/pages/QuizPage.jsx:238-245 | The nav button colour follows the priority current > answered > flagged > plain; each colour is stated as an iff. |
| QuizSession.FinishStats | src/pages/QuizPage.jsx:115-118 | The stats sent on finish have exactly the keys questionsAnswered and accuracy, holding the answered count and the score. |
| QuizSession.NavigationSteps | src/pages/QuizPage.jsx:76-88 | Next moves +1 and closes the explanation only when below n-1, otherwise it changes nothing. Previous moves -1 only when above 0 and applies the arrival rule. Nothing else changes. |
| QuizSession.NavigationStaysInRange | src/pages/QuizPage.jsx:76-88 | Next and previous keep a valid index valid. |
| QuizSession.PreviousUndoesNext | src/pages/QuizPage.jsx:76-88 | Previous after a real next returns to the index, with the explanation set by the arrival rule and the answers unchanged. |
| QuizSession.SelectAnswerChangesOneEntry | src/pages/QuizPage.jsx:65-74 | Selecting an answer sets that entry only. Practice mode opens the explanation; exam mode leaves it unchanged. |
| QuizSession.ToggleFlagFlipsOne | src/pages/QuizPage.jsx:95-105 | Toggling a flag flips only that index's membership, and toggling twice restores the state. |
| QuizSession.ExplanationLatchesAnswer | src/components/quiz/QuizQuestion.jsx:66 | Option clicks are inert while the explanation is open. In practice mode a second click, or a click after returning to an answered question by jump or by previous, changes nothing. |
| QuizSession.NextReopensAnswered | src/pages/QuizPage.jsx:76-81 | Next always closes the explanation, so in practice mode a click on an already answered next question overwrites its answer (and reopens the explanation): the latch does not survive Next. |
| QuizSession.RevealLatchesClicks | src/pages/QuizPage.jsx:286 | Revealing the explanation sets showExplanation, changes nothing else, and makes every later option click a no-op. |
| QuizSession.CardAgreesWithReview | src/components/quiz/QuizQuestion.jsx:17-18 | The card's isAnswered holds iff the review does not classify the question as skipped, and its isCorrect holds iff the review classifies it Correct. |
| QuizSession.ArrivalRule | src/pages/QuizPage.jsx:90-93 | A jump opens the explanation exactly in practice mode on an answered question, and never in exam mode. |
| QuizSession.RetakeKeepsFlags | src/pages/QuizPage.jsx:157-164 | Retake empties the answers, goes to index 0, clears results, explanation and mode, and keeps the flags and remaining time. |
| QuizSession.FinishTwiceRecordsTwice | src/pages/QuizPage.jsx:107-121 | With no guard, finishing twice adds two attempts to the quiz. |
| QuizSession.Session.HandleModeSelect | src/pages/QuizPage.jsx:41-63 | Sets the mode and start time. An exam with a truthy start time gets a fresh budget. |
| QuizSession.Session.HandleAnswerSelect | src/pages/QuizPage.jsx:65-74 | The new state is SelectAnswer of the old one. |
| QuizSession.Session.HandleNextQuestion | src/pages/QuizPage.jsx:76-81 | The new state is Next of the old one. |
| QuizSession.Session.HandlePreviousQuestion | src/pages/QuizPage.jsx:83-88 | The new state is Previous of the old one. |
| QuizSession.Session.HandleQuestionJump | src/pages/QuizPage.jsx:90-93 | The new state is Jump of the old one; there is no bounds check. |
| QuizSession.Session.HandleToggleFlag | src/pages/QuizPage.jsx:95-105 | The new state is ToggleFlag of the old one. |
| QuizSession.Session.HandleOptionClick | src/components/quiz/QuizQuestion.jsx:66 | The click goes through the card's guard, then to answer select on the current question. |
| QuizSession.Session.HandleFinishQuiz | src/pages/QuizPage.jsx:107-121 | Records the score on the quiz, merges questionsAnswered and accuracy into the user, and shows the results. |
| QuizSession.FinishTwice | src/pages/QuizPage.jsx:107-121 | A client finishing one session twice: the quiz list keeps its length, the quiz's stored record gains two attempts, and the results stay shown with the answers unchanged. |
| QuizSession.Session.HandleShowExplanation | src/pages/QuizPage.jsx:286 | The "Show Explanation" callback applies RevealExplanation to the session state: only showExplanation changes, to true. |
| QuizSession.Session.constructor | src/pages/QuizPage.jsx:21-29 | No mode, question 0, no answers, no flags, no start or remaining time, results and explanation hidden. |
| QuizSession.Session.HandleRetake | src/pages/QuizPage.jsx:157-164 | The new state is Retake of the old one. |
| QuizSession.Session.HandleTick | src/pages/QuizPage.jsx:47-53 | The new state is Tick of the old one. Above 1000 ms the stores are untouched; at or below it, finish updates both stores. |
| QuizResults.CorrectCount | src/components/quiz/QuizResults.jsx:11-13 | Correct counts the answer entries that match correctAnswer, and it is at most the number of answers. |
| QuizResults.AnsweredAtMostTotal | src/components/quiz/QuizResults.jsx:9-10 | When every key is a question index, there are no more answers than questions. |
| QuizResults.TilesOf | src/components/quiz/QuizResults.jsx:9-13 | The tiles are non-negative, correct + incorrect = answered, and the three sum to the total. |
| QuizResults.Classify | src/components/quiz/QuizResults.jsx:110-121 | Skipped iff unanswered, Correct iff the answer equals correctAnswer, Incorrect iff answered otherwise. |
| QuizResults.Breakdown | src/components/quiz/QuizResults.jsx:110-113 | One outcome per question in order, each the classification of that question's answer. |
| QuizResults.BreakdownPrefixCounts | src/components/quiz/QuizResults.jsx:110-113 | The outcome counts of a review prefix equal the sizes of the answer sets below that index. |
| QuizResults.TilesMatchBreakdown | src/components/quiz/QuizResults.jsx:9-121 | The numbers of Correct, Incorrect and Skipped rows equal the three tiles. |
| QuizResults.ScoreColorOf | src/components/quiz/QuizResults.jsx:21-25 | Green iff ≥80, yellow iff 60..79, red iff <60. |
| QuizResults.ScoreMessageOf | src/components/quiz/QuizResults.jsx:27-33 | Five bands with cut-offs at 90, 80, 70 and 60, each stated as an iff. |
| QuizResults.ScoreMessageMonotone | src/components/quiz/QuizResults.jsx:27-33 | A higher score never gets a lower message band. |
| QuizResults.ColorMatchesMessage | src/components/quiz/QuizResults.jsx:21-33 | Green goes with the top two message bands, yellow with the middle two, red with the last. |
| QuizResults.TimeParts | src/components/quiz/QuizResults.jsx:16-17 | Seconds are below 60, and minutes:seconds is ms truncated to whole seconds. |
| QuizResults.FormatDurationReadsBack | src/components/quiz/QuizResults.jsx:15-19 | The tile is `<digits>m <digits>s` and reads back as the minutes and seconds of the elapsed time. |
| QuizQuestionView.OptionMarks | src/components/quiz/QuizQuestion.jsx:40-61 | One mark per option, each following the component's branches. |
| QuizQuestionView.MarksWhenShown | src/components/quiz/QuizQuestion.jsx:43-61 | With correctness shown: correct iff the correct option, wrong iff a selected wrong option, neutral otherwise, never highlighted. |
| QuizQuestionView.MarksWhenHidden | src/components/quiz/QuizQuestion.jsx:49-50 | With correctness hidden, only the selected option is highlighted and all others are neutral. |
| QuizQuestionView.ExactlyOneMarkedCorrect | src/components/quiz/QuizQuestion.jsx:52-55 | With correctness shown and correctAnswer in range, exactly one option is marked correct. |
| QuizQuestionView.ClickedAnswer | src/components/quiz/QuizQuestion.jsx:66 | A click is forwarded iff the explanation is closed, and then carries the option index. |
| QuizQuestionView.ButtonExcludesCorrectness | src/components/quiz/QuizQuestion.jsx:43-97 | The "Show Explanation" button never shows alongside the correctness marks. |
| QuizRepository.NewQuiz | src/store/quizStore.js:17-25 | A supplied id wins over the generated one. The creator's data is kept, both timestamps are now, and there are 0 attempts, average 0 and not favourited. |
| QuizRepository.RecordAttempt | src/store/quizStore.js:47-56 | Attempts +1, and the average is round((avg·attempts + score)/(attempts+1)). lastAccessed is now; all other fields are unchanged. |
| QuizRepository.AverageStaysInRange | src/store/quizStore.js:48-54 | With the old average and the score in 0..100, the new average is too. |
| QuizRepository.TwoAttemptsAverage | src/store/quizStore.js:48-54 | From a fresh quiz, two attempts give 2 attempts and the average round((s1 + s2)/2), since the first average is s1 itself. |
| QuizRepository.WithAttempt | src/store/quizStore.js:44-61 | Same length; matching records record the attempt, others are unchanged. |
| QuizRepository.WithAttemptKeepsIds | src/store/quizStore.js:44-61 | Ids and order are kept, and an unknown id changes nothing. |
| QuizRepository.WithFavoriteToggled | src/store/quizStore.js:63-69 | Same length; only matching records flip isFavorited. |
| QuizRepository.ToggleTwiceRestores | src/store/quizStore.js:63-69 | Toggling twice restores the list, and an unknown id changes nothing. |
| QuizRepository.Without | src/store/quizStore.js:71-75 | No kept record carries the id, and the list does not grow. |
| QuizRepository.WithoutAppend | src/store/quizStore.js:71-75 | The filter distributes over concatenation, so order is kept. |
| QuizRepository.WithoutCounts | src/store/quizStore.js:71-75 | Every record without the id is kept as often as it occurs; none with it is kept. |
| QuizRepository.WithoutIdempotent | src/store/quizStore.js:71-75 | Deleting twice is deleting once, and an absent id changes nothing. |
| QuizRepository.AiQuestionsWellFormed | src/store/quizStore.js:83-123 | The generated quiz holds a prefix of the two samples of length min(count, 2), with slice semantics for negative counts. Each has four options, an in-range answer, the difficulty and the topic. |
| QuizRepository.QuizStore.CreateQuiz | src/store/quizStore.js:17-32 | Appends exactly NewQuiz of the data at the end and returns it. |
| QuizRepository.QuizStore.GetQuiz | src/store/quizStore.js:39-42 | Returns the first record with the id, or nothing iff no record has it. |
| QuizRepository.QuizStore.UpdateQuizStats | src/store/quizStore.js:44-61 | The new list is WithAttempt of the old one. |
| QuizRepository.QuizStore.ToggleFavorite | src/store/quizStore.js:63-69 | The new list is WithFavoriteToggled of the old one. |
| QuizRepository.QuizStore.DeleteQuiz | src/store/quizStore.js:71-75 | The new list is Without of the old one. |
| QuizRepository.QuizStore.GenerateAIQuiz | src/store/quizStore.js:77-127 | Appends and returns NewQuiz of the canned AI quiz data. |
| Auth.ZeroStats | src/store/authStore.js:22-27 | The four stats keys, all 0. |
| Auth.NameFromEmail | src/store/authStore.js:18 | The name is a prefix of the email with no '@', stopping at the first '@' or at the end. |
| Auth.NameFromEmailUnique | src/store/authStore.js:18 | Any prefix with those properties is the derived name. |
| Auth.MockUser | src/store/authStore.js:15-55 | Id "1", tier free, zero stats, the dicebear avatar of the email, and the given name. |
| Auth.MergeStats | src/store/authStore.js:68-78 | No user: nothing. Otherwise the new keys overwrite, other keys stay, and other user fields are unchanged. |
| Auth.MergeStatsIdempotent | src/store/authStore.js:68-78 | Merging the same stats twice is merging them once. |
| Auth.AuthStore.Login | src/store/authStore.js:10-35 | The user becomes the mock user named after the email prefix. |
| Auth.AuthStore.Register | src/store/authStore.js:37-62 | The user becomes the mock user with the given name. |
| Auth.AuthStore.Logout | src/store/authStore.js:64-66 | No user afterwards. |
| Auth.AuthStore.UpdateStats | src/store/authStore.js:68-78 | The new user is MergeStats of the old one. |
| ManualCreator.BlankQuestion | src/components/quiz/ManualQuizCreator.jsx:44-51 | Four empty options, correctAnswer 0, empty text and explanation, the given id and difficulty. |
| ManualCreator.RemoveId | src/components/quiz/ManualQuizCreator.jsx:57 | No kept question carries the id, and the list does not grow. |
| ManualCreator.RemoveAbsentId | src/components/quiz/ManualQuizCreator.jsx:57 | Removing an absent id changes nothing. |
| ManualCreator.RemoveIdCounts | src/components/quiz/ManualQuizCreator.jsx:57 | Every question without the id is kept as often as it occurs; none with it is kept. |
| ManualCreator.RemoveIdDistinct | src/components/quiz/ManualQuizCreator.jsx:55-59 | With distinct ids, removal drops at most one question and keeps the ids distinct. |
| ManualCreator.RemoveKeepsOne | src/components/quiz/ManualQuizCreator.jsx:55-59 | From two or more distinct-id questions, removal leaves at least one. |
| ManualCreator.ApplyEdit | src/components/quiz/ManualQuizCreator.jsx:63 | Only the named field changes. |
| ManualCreator.UpdateQuestionIn | src/components/quiz/ManualQuizCreator.jsx:61-65 | Only questions with the id are edited; the rest are unchanged and the length is kept. |
| ManualCreator.ReplaceOption | src/components/quiz/ManualQuizCreator.jsx:70 | Only option k changes, and the number of options is kept. |
| ManualCreator.UpdateOptionIn | src/components/quiz/ManualQuizCreator.jsx:67-73 | Only the options of questions with the id change; the rest are unchanged. |
| ManualCreator.UpdatesKeepShape | src/components/quiz/ManualQuizCreator.jsx:61-73 | Edits keep ids, distinctness and option counts. An out-of-range option index changes nothing. |
| ManualCreator.CompleteQuestions | src/components/quiz/ManualQuizCreator.jsx:87-91 | Every kept question is complete (non-blank text, options and explanation). |
| ManualCreator.CompleteQuestionsAppend | src/components/quiz/ManualQuizCreator.jsx:87-91 | The filter distributes over concatenation, so original order is kept. |
| ManualCreator.CompleteQuestionsCounts | src/components/quiz/ManualQuizCreator.jsx:87-91 | Each complete question is kept as often as it occurs; no incomplete one is kept. |
| ManualCreator.CompleteQuestionsEmpty | src/components/quiz/ManualQuizCreator.jsx:87-96 | The filter is empty iff no question is complete. |
| ManualCreator.ValidateManual | src/components/quiz/ManualQuizCreator.jsx:75-103 | Checks in order: blank title, then blank subject, then no complete question, each as an iff. Otherwise the data carries the form details, the complete questions (at least one) and creationMethod Manual. |
| ManualCreator.ManualQuizEditor.constructor | src/components/quiz/ManualQuizCreator.jsx:12-30 | Default details, and one blank question with id "1". |
| ManualCreator.ManualQuizEditor.AddQuestion | src/components/quiz/ManualQuizCreator.jsx:43-53 | Appends one blank question with the quiz's difficulty and keeps the list valid. |
| ManualCreator.ManualQuizEditor.RemoveQuestion | src/components/quiz/ManualQuizCreator.jsx:55-59 | Removes by id only when more than one question remains, so the list stays non-empty. |
| ManualCreator.ManualQuizEditor.UpdateQuestion | src/components/quiz/ManualQuizCreator.jsx:61-65 | The new list is UpdateQuestionIn of the old one, and the list stays valid. |
| ManualCreator.ManualQuizEditor.UpdateOption | src/components/quiz/ManualQuizCreator.jsx:67-73 | The new list is UpdateOptionIn of the old one, and the list stays valid. |
| ManualCreator.ManualQuizEditor.Submit | src/components/quiz/ManualQuizCreator.jsx:75-116 | A refused submit leaves the store untouched; an accepted one appends NewQuiz of the validated data. |
| CopyPasteCreator.PlaceholderQuestions | src/components/quiz/CopyPasteQuizCreator.jsx:48-77 | Two questions with ids "1" and "2", four options each, correctAnswer 0 and 1, the chosen difficulty and topic Custom Content. |
| CopyPasteCreator.BuildCopyPasteQuiz | src/components/quiz/CopyPasteQuizCreator.jsx:40-88 | Refused iff the title is blank. An empty description becomes the default. Subject Custom Content, CopyPaste, not public, and the placeholder questions. |
| CopyPasteCreator.BuiltQuizShape | src/components/quiz/CopyPasteQuizCreator.jsx:48-88 | The built quiz never has an empty description and holds two questions whose correct option is non-empty. |
| CopyPasteCreator.CopyPasteWizard.constructor | src/components/quiz/CopyPasteQuizCreator.jsx:12-19 | Step 1, empty text, title and description, intermediate difficulty, NEET-UG. |
| CopyPasteCreator.CopyPasteWizard.ProcessText | src/components/quiz/CopyPasteQuizCreator.jsx:32-38 | Blank text keeps the step; otherwise the step becomes 2. |
| CopyPasteCreator.CopyPasteWizard.Back | src/components/quiz/CopyPasteQuizCreator.jsx:164 | Back to step 1. |
| CopyPasteCreator.CopyPasteWizard.CreateQuiz | src/components/quiz/CopyPasteQuizCreator.jsx:40-101 | Called from step 2, so the pasted material is non-blank; a refused creation leaves the store untouched, otherwise NewQuiz of the built data is appended. |
| AiGenerator.SubtopicChoices | src/components/quiz/AIQuizGenerator.jsx:144-163 | "Overall Topic" first, and every choice is non-empty. |
| AiGenerator.GenerationTopic | src/components/quiz/AIQuizGenerator.jsx:79 | The subtopic when non-empty, otherwise the topic. |
| AiGenerator.ProgressBarConsistent | src/components/quiz/AIQuizGenerator.jsx:291-303 | At step s exactly s of the three dots are filled, and a connector is filled iff the next dot is. |
| AiGenerator.GenerationUsesSubtopic | src/components/quiz/AIQuizGenerator.jsx:71-163 | A subtopic picked from the buttons, "Overall Topic" included, is exactly what generation asks for; the topic fallback is never used. |
| AiGenerator.GeneratedQuizOnStepThree | src/components/quiz/AIQuizGenerator.jsx:76-203 | On step 3 with an offered count, the generated data has the subtopic as subject, two questions and the exam type NEET-UG. |
| AiGenerator.AiQuizWizard.constructor | src/components/quiz/AIQuizGenerator.jsx:12-19 | Step 1, empty topic and subtopic, intermediate difficulty, 10 questions, NEET-UG. |
| AiGenerator.AiQuizWizard.SelectTopic | src/components/quiz/AIQuizGenerator.jsx:66-69 | Sets the topic, clears the subtopic, and goes to step 2. |
| AiGenerator.AiQuizWizard.SelectSubtopic | src/components/quiz/AIQuizGenerator.jsx:71-74 | Sets the subtopic and goes to step 3; the topic is unchanged. |
| AiGenerator.AiQuizWizard.BackToTopics | src/components/quiz/AIQuizGenerator.jsx:137 | Step 1; the form data is unchanged. |
| AiGenerator.AiQuizWizard.BackToSubtopics | src/components/quiz/AIQuizGenerator.jsx:180 | Step 2; the form data is unchanged. |
| AiGenerator.AiQuizWizard.ChooseQuestionCount | src/components/quiz/AIQuizGenerator.jsx:200-203 | The count becomes one of 5, 10, 15, 20 and 25. |
| AiGenerator.AiQuizWizard.Generate | src/components/quiz/AIQuizGenerator.jsx:76-82 | Called from step 3 of a valid wizard: appends and returns the store's AI quiz for the generation topic, difficulty and count; its subject is the chosen subtopic, it has two questions, and its exam type is NEET-UG whatever exam type was selected. |
| JsBuiltins.RoundDiv | src/pages/QuizPage.jsx:128 | `Math.round(p/q)` as the unique integer r with r - 1/2 ≤ p/q < r + 1/2. |
| JsBuiltins.RoundDivBetween | src/store/quizStore.js:49-54 | Rounding a ratio within [lo, hi] stays within [lo, hi]. |
| JsBuiltins.SliceTo | src/store/quizStore.js:120 | `slice(0, end)` is a prefix, with clamping and counting from the back for a negative end. |
| JsBuiltins.BlankIffTrimsToEmpty | src/components/quiz/ManualQuizCreator.jsx:77 | A string is blank (all ECMAScript whitespace) iff trimming it leaves nothing. |
| JsBuiltins.DecimalRoundTrip | src/components/quiz/QuizResults.jsx:18 | The decimal rendering of a number reads back as that number. |
| JsBuiltins.PadStart | src/pages/QuizPage.jsx:134 | `padStart` reaches the width with fill characters in front of the unchanged string. |

## Left out

- Rendering, animation, toasts, navigation, `Link`, sharing and confirm dialogs are not modelled. They are presentation and browser APIs.
- The simulated delays, the `isLoading` flags and the zustand `persist` storage are not modelled. Store calls are synchronous updates, and `createQuiz`'s failure branch is not reachable without an exception, so it is not modelled.
- `Date.now()` and `new Date().toISOString()` are caller-supplied opaque inputs (`generatedId`, `now`, `joinDate`, `nowIso`). Time spent (`Date.now() - timeStarted`, src/pages/QuizPage.jsx:110) is a caller-supplied number of milliseconds. It is formatted for the results screen (src/components/quiz/QuizResults.jsx:94) by `FormatDuration` and `TimeParts`. The store's `updateQuizStats` receives it but does not use it, so `HandleFinishQuiz` does not take it.
- QuizSession.Session.HandleTick: it uses the live answers and quiz, which keeps the rule that every tick calls finish once the time is up. In the source, the interval holds the `handleFinishQuiz` of the render that started the exam, so the stats that an expiring exam records use the answers from that moment. The interval's scheduling and React effect lifetimes are left out.
- QuizSession.Score: it requires a non-empty quiz. With no questions the page fails while rendering the first question, so finish cannot be reached.
- QuizSession.Session.HandleFinishQuiz: it requires every answer key to be a question index, because the source's lookup of `quiz.questions[questionIndex]` throws otherwise.
- The progress percentage on the quiz page is floating-point display and is left out. `Math.round` is exact half-up rounding, without float artefacts at exact halves.
- QuizResults.ScoreMessageOf: the emoji that ends each message is not modelled.
- ManualCreator.ManualQuizEditor.AddQuestion: it requires the new id to be fresh. The source takes the id from `Date.now()` and relies on it being new; with a repeated id, remove-by-id could empty the list.
- AiGenerator.AiQuizWizard.SelectSubtopic: it accepts only the step-2 button values ("Overall Topic" or a catalogue subtopic of the current topic), because those are its only callers.
- Plain form inputs (title, description, subject, difficulty, exam type, public flag, pasted text) are modelled as direct assignments to the form classes' public fields. Those classes have no setter methods.
- Each question's `difficulty` is the `Difficulty` datatype. The source's select inputs can only produce its three values.
- The page's lookup of the quiz by route id is not modelled: a `Session` is built from the quiz that `getQuiz` found. The "not found" redirect is navigation.
