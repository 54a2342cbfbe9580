# ishara-frontend views, modelled in Dafny

This project models the logic inside four React views of the ishara-frontend
sign-language learning app. The rendering is left out. What remains:

- **Camera sign detector** (`src/components/CameraSignDetector.jsx`). It turns each
  camera frame's hand landmarks into wrist-relative features and picks the
  arg-max letter of the classifier's 26 scores. A display gate decides what
  the view shows: a label shown only above 0.2 confidence, cleared when no
  hand is seen. The view also holds the model-loading state and the skeleton
  table used to draw the hand.
- **Quiz** (`src/components/QuizMode.jsx`). It generates ten questions from the 17
  described letters, runs a ten-second countdown per question, scores
  answers, advances after the feedback pause, restarts, and picks the final
  message tier.
- **Alphabet reference** (`src/components/AlphabetReference.jsx`). The selected letter
  moves with Previous/Next, wrapping around A–Z. The description and tip
  tables are looked up for it.
- **Progress dashboard** (`src/components/ProgressDashboard.jsx`). Its derived views
  are the badge for an achievement, the locked badges, the last-ten quiz
  history newest first with its "Quiz #" numbers, the colour of a score, and
  the leaderboard medals.

Modules:

- `Wrappers`: `Option`.
- `Sequences`: `indexOf`, `filter` of one value, reordering by a permutation.
- `Percentages`: a score as a percentage, with exact integer threshold tests.
- `SignDetection`, `Quiz`, `Alphabet` and `ProgressDashboard`: one module per view.

The detector, the quiz and the alphabet reference keep their state in a
class whose methods are the source's event handlers. The detector's frame
handler is proved against a pure function of the old state, and the
properties of the display are lemmas about that function. The quiz handlers
state their new fields directly in their contracts. The progress dashboard
holds no state of its own, so it is modelled by pure functions only.

Randomness is a parameter. Each `sort(() => Math.random() - 0.5)` is modelled
as an arbitrary permutation of the indices, and the proofs hold for every
permutation. The classifier is an abstract function from a feature vector to
either 26 scores or an inference error. Timers are discrete events:

- `Tick` is one interval callback;
- `Advance(q)` is the 2-second `setTimeout` callback, with the question index
  it captured.

A frame whose first hand has fewer than 21 landmarks goes through these
steps in the code:

- `handsDetected` is set to true first;
- `drawLandmarks` then reads a missing landmark and throws inside the async
  handler;
- so the prediction is neither updated nor cleared.

`SignDetection.Step` models exactly that, and `SignDetection.CanDrawIff`
proves that drawing fails exactly below 21 landmarks.

## Model

| member | source | states |
|---|---|---|
| Sequences.IndexOf | src/components/AlphabetReference.jsx:171 | `indexOf` gives -1 exactly when the value is absent; otherwise it gives the first position holding it |
| Sequences.IndexOfDistinct | src/components/AlphabetReference.jsx:181-183 | in a list without repeats, `indexOf` of the element at position j is j |
| Sequences.Without | src/components/QuizMode.jsx:62-63 | `filter(l => l !== letter)` keeps exactly the other elements |
| Sequences.WithoutDistinct | src/components/QuizMode.jsx:62-63 | filtering a repeat-free list removes exactly one element when present, and keeps it repeat-free |
| Sequences.Pick | src/components/QuizMode.jsx:58 | a reordering by a permutation has the same length; entry i is the element the permutation names |
| Sequences.PickDistinct | src/components/QuizMode.jsx:58 | reordering a repeat-free list by a permutation keeps it repeat-free |
| Sequences.PickFrom | src/components/QuizMode.jsx:64-67 | reordering adds no element that was not in the list |
| Sequences.PickKeepsAll | src/components/QuizMode.jsx:67 | reordering by a permutation loses no element |
| SignDetection.LabelsAreAlphabet | src/components/CameraSignDetector.jsx:16-17 | `LABELS` is A..Z in order: 26 distinct letters |
| SignDetection.SkeletonIsTree | src/components/CameraSignDetector.jsx:140-146 | 20 bones with start < end <= 20; every landmark 1..20 ends exactly one bone and the wrist ends none, so the bones form a tree rooted at the wrist |
| SignDetection.CanDraw | src/components/CameraSignDetector.jsx:151-155 | the condition under which drawing reads no missing landmark: every bone's end index is a landmark (its characterisation is `CanDrawIff`) |
| SignDetection.CanDrawIff | src/components/CameraSignDetector.jsx:150-155 | drawing reads every bone's endpoints, so it succeeds exactly for hands of at least 21 landmarks |
| SignDetection.Features | src/components/CameraSignDetector.jsx:122-135 | the feature vector has three values per landmark |
| SignDetection.RelativeToAt | src/components/CameraSignDetector.jsx:126-131 | features 3i..3i+2 are landmark i minus the wrist, x then y then z |
| SignDetection.ExtractFeatures | src/components/CameraSignDetector.jsx:122-135 | the loop's result equals the feature function: 3 values per landmark, in landmark order, each landmark's offset from the wrist |
| SignDetection.WristFeaturesZero | src/components/CameraSignDetector.jsx:124-131 | the first three features are 0 |
| SignDetection.TranslationInvariant | src/components/CameraSignDetector.jsx:127-131 | shifting every landmark by the same offset leaves the features unchanged |
| SignDetection.MaxOf | src/components/CameraSignDetector.jsx:101 | `Math.max(...p)` is one of the scores and at least every score |
| SignDetection.ArgMax | src/components/CameraSignDetector.jsx:101-102 | the chosen index holds a largest score, and every earlier score is strictly smaller |
| SignDetection.Step | src/components/CameraSignDetector.jsx:84-118 | after any frame, `handsDetected` holds exactly when the frame has a hand; a frame without one leaves the label empty and the confidence as it was |
| SignDetection.NoHandClears | src/components/CameraSignDetector.jsx:115-118 | a frame without a hand clears the label and `handsDetected`, whatever the previous state; confidence is untouched |
| SignDetection.HandFrameUsesFirstHand | src/components/CameraSignDetector.jsx:84-86 | a frame with a hand sets `handsDetected`; hands after the first do not matter |
| SignDetection.LabelChangesOnlyWhenConfident | src/components/CameraSignDetector.jsx:104-107 | on a hand frame, label or confidence change only if the arg-max score is above 0.2; they become that letter and score |
| SignDetection.ConfidentFrameShows | src/components/CameraSignDetector.jsx:101-113 | a scored frame above 0.2 shows its arg-max letter and score; at or below 0.2 it changes only `handsDetected` |
| SignDetection.StepKeepsShown | src/components/CameraSignDetector.jsx:73-119 | every frame keeps the display valid: empty, or one label letter with confidence above 0.2 while a hand is present |
| SignDetection.Scenario | src/components/CameraSignDetector.jsx:73-119 | the frames no hand, confident A, weak B, no hand show "", "A", "A", "" |
| SignDetection.CameraSignDetector.constructor | src/components/CameraSignDetector.jsx:9-14 | the initial state: loading, no model, no error, empty label |
| SignDetection.CameraSignDetector.ModelLoaded | src/components/CameraSignDetector.jsx:24-27 | a successful load sets the model and ends loading |
| SignDetection.CameraSignDetector.ModelLoadFailed | src/components/CameraSignDetector.jsx:28-32 | a failed load sets the error "Failed to load ML model" and ends loading; no model is set and frames are never wired |
| SignDetection.CameraSignDetector.WireFrames | src/components/CameraSignDetector.jsx:38-39 | frame processing is wired up only once a model is set |
| SignDetection.CameraSignDetector.OnResults | src/components/CameraSignDetector.jsx:73-119 | one frame changes the displayed state exactly as the gate function does, and keeps the view invariant |
| Quiz.DescribedLettersAreKeys | src/components/QuizMode.jsx:30-48 | the 17 described letters are the description table's keys, each listed once |
| Quiz.OtherLetters | src/components/QuizMode.jsx:62-63 | the letters other than the question's: 16 distinct described letters |
| Quiz.MakeQuestion | src/components/QuizMode.jsx:61-74 | a question asks about its letter, that letter is the correct answer, and there are four answers |
| Quiz.MapQuestions | src/components/QuizMode.jsx:61-75 | one question per selected letter, in order |
| Quiz.WrongAnswersFrom | src/components/QuizMode.jsx:62-65 | the wrong answers are three distinct letters other than the question's |
| Quiz.AnswersFromOthers | src/components/QuizMode.jsx:67 | the shuffled answers are four distinct letters: the question's letter and its three wrong answers |
| Quiz.MakeQuestionWellFormed | src/components/QuizMode.jsx:61-74 | each question: correct answer is its letter, its description is the table's, 4 distinct described answers including the correct one |
| Quiz.CorrectAnswerOnce | src/components/QuizMode.jsx:67 | the correct answer occurs exactly once among the answers |
| Quiz.GenerateQuestions | src/components/QuizMode.jsx:56-78 | ten questions, each about one of the described letters |
| Quiz.GeneratedQuizWellFormed | src/components/QuizMode.jsx:56-78 | for every outcome of the shuffles: 10 questions with distinct letters from the 17 described ones, each well formed |
| Quiz.ResultTier | src/components/QuizMode.jsx:178-194 | the tier from integer comparisons: at least 90%, 70–90%, 50–70%, below 50%; the bands are exclusive and cover every score |
| Quiz.ResultTierMonotone | src/components/QuizMode.jsx:182-194 | a higher score never gets a worse message |
| Quiz.QuizMode.constructor | src/components/QuizMode.jsx:22-28 | the initial state, with the questions from the mount effect |
| Quiz.QuizMode.HandleAnswer | src/components/QuizMode.jsx:96-102 | records the answer and shows feedback; +1 exactly for the correct letter; a timeout never scores, so the score never exceeds the answers given |
| Quiz.QuizMode.ClickAnswer | src/components/QuizMode.jsx:288 | a click while feedback is shown changes nothing; otherwise it is an answer |
| Quiz.QuizMode.Tick | src/components/QuizMode.jsx:80-90 | only while started, not complete and unanswered: above 1 it counts down and changes nothing else; at 1 or less it records a timed-out answer (one more answer, no point, feedback shown) and resets to 10; stays within 1..10 |
| Quiz.QuizMode.Advance | src/components/QuizMode.jsx:104-113 | after a non-last question: next index, answer/feedback/timer reset; after the last: only `quizComplete` is set |
| Quiz.QuizMode.Restart | src/components/QuizMode.jsx:117-126 | new questions and every field back to its initial value |
| Quiz.QuizMode.Start | src/components/QuizMode.jsx:128-131 | starts the quiz with 10 seconds on the clock |
| Percentages.Percentage | src/components/QuizMode.jsx:178 | the percentage times the total is 100 times the score; it is never negative, and at most 100 when the score is at most the total |
| Percentages.PercentageAtLeast | src/components/QuizMode.jsx:178 | `(score / total) * 100 >= c` exactly when `100 * score >= c * total` |
| Alphabet.LettersAreAlphabet | src/components/AlphabetReference.jsx:5-7 | the alphabet is A..Z in order, each once; the initial selection 'A' is at index 0 |
| Alphabet.TablesCoverAlphabet | src/components/AlphabetReference.jsx:10-66 | the description and tip tables have entries for exactly the 26 letters |
| Alphabet.NextIndex | src/components/AlphabetReference.jsx:182 | one on, or 0 from the last index |
| Alphabet.PrevIndex | src/components/AlphabetReference.jsx:172 | one back, or the last index from 0 |
| Alphabet.NextLetter | src/components/AlphabetReference.jsx:180-183 | the letter after any letter is in the alphabet |
| Alphabet.PrevLetter | src/components/AlphabetReference.jsx:170-173 | the letter before any letter is in the alphabet |
| Alphabet.NextMovesForward | src/components/AlphabetReference.jsx:180-183 | Next moves from letter i to letter i+1; from Z it wraps to A |
| Alphabet.PrevMovesBack | src/components/AlphabetReference.jsx:170-173 | Previous moves from letter i to letter i−1; from A it wraps to Z |
| Alphabet.NextPrevRoundTrip | src/components/AlphabetReference.jsx:170-183 | Previous undoes Next, and Next undoes Previous |
| Alphabet.NextTimesIndex | src/components/AlphabetReference.jsx:180-183 | k presses of Next advance the index by k modulo 26 |
| Alphabet.NextCycle | src/components/AlphabetReference.jsx:180-183 | 26 presses of Next return to the starting letter |
| Alphabet.AlphabetReference.constructor | src/components/AlphabetReference.jsx:5 | the selection starts at 'A' |
| Alphabet.AlphabetReference.Previous | src/components/AlphabetReference.jsx:170-173 | selects the previous letter; the selection stays in the alphabet |
| Alphabet.AlphabetReference.Next | src/components/AlphabetReference.jsx:180-183 | selects the next letter; the selection stays in the alphabet |
| Alphabet.AlphabetReference.Select | src/components/AlphabetReference.jsx:94 | a grid button selects its letter |
| Alphabet.AlphabetReference.Shown | src/components/AlphabetReference.jsx:139-149 | the selected letter is a key of both the description and the tip table, so both lookups are always defined |
| ProgressDashboard.BadgeIdsAreKeys | src/components/ProgressDashboard.jsx:58-65 | the six badge ids, each once, are the table's keys |
| ProgressDashboard.BadgeFor | src/components/ProgressDashboard.jsx:132 | a known id gets its table badge; an id naming an inherited object member gets a badge with no emoji and colour "undefined" |
| ProgressDashboard.FallbackOnlyForUnknown | src/components/ProgressDashboard.jsx:132 | the fallback badge is shown exactly for ids that are neither table keys nor inherited object members |
| ProgressDashboard.InheritedIdsMissTheFallback | src/components/ProgressDashboard.jsx:132 | ids such as "toString" or "__proto__" are not table keys, yet the lookup is truthy, so they get neither a table badge nor the fallback |
| ProgressDashboard.IsUnlocked | src/components/ProgressDashboard.jsx:156 | `some(a => a.badgeId === id)` holds exactly when some achievement has that id |
| ProgressDashboard.Locked | src/components/ProgressDashboard.jsx:155-156 | the locked list holds exactly the ids that no achievement unlocks |
| ProgressDashboard.LockedBadges | src/components/ProgressDashboard.jsx:155-157 | the locked badges are exactly the table's keys that no achievement unlocks |
| ProgressDashboard.LockedKeepsOrder | src/components/ProgressDashboard.jsx:155-156 | the filter keeps table order: filtering a concatenation concatenates the filtered parts |
| ProgressDashboard.LockedPartition | src/components/ProgressDashboard.jsx:155-156 | locked and unlocked ids are disjoint, repeat-free, and together as many as the ids |
| ProgressDashboard.LockedBadgesPartition | src/components/ProgressDashboard.jsx:58-65 | with the badge table: locked and unlocked known badges split the six ids between them |
| ProgressDashboard.RecentHistory | src/components/ProgressDashboard.jsx:175 | the window holds at most ten entries, never more than the history, all taken from it |
| ProgressDashboard.RecentHistoryNewestFirst | src/components/ProgressDashboard.jsx:175 | the window shows min(10, n) entries, newest first: entry i is history[n−1−i] |
| ProgressDashboard.QuizNumber | src/components/ProgressDashboard.jsx:183 | the label of displayed entry i is the history length minus i (its meaning is `QuizNumberIsPosition`) |
| ProgressDashboard.QuizNumberIsPosition | src/components/ProgressDashboard.jsx:175-183 | "Quiz #(n − i)" is the 1-based position of displayed entry i in the whole history, falling by one down the list |
| ProgressDashboard.ColorOf | src/components/ProgressDashboard.jsx:176-177 | green exactly at ≥ 80%, yellow exactly at 60–80%, red below 60%; out of 0 questions: green for a positive score (Infinity), red for 0 (NaN) |
| ProgressDashboard.ColorMonotone | src/components/ProgressDashboard.jsx:176-177 | a better score out of the same total never gets a worse colour |
| ProgressDashboard.MarkerFor | src/components/ProgressDashboard.jsx:264 | rows 0, 1, 2 get a medal; every other row shows `#rank` |
| ProgressDashboard.Highlighted | src/components/ProgressDashboard.jsx:259 | the first three leaderboard rows get the highlighted background (its link to the medals is `MedalsMatchHighlight`) |
| ProgressDashboard.MedalsMatchHighlight | src/components/ProgressDashboard.jsx:258-264 | exactly the medal rows are highlighted; each medal goes to one row |

## Left out

- Device and library work is not modelled: TensorFlow.js model loading, `model.predict`, and tensor creation and disposal. The classifier is an abstract function returning 26 scores or an inference error.
- Other device I/O is not modelled either: MediaPipe hand tracking and camera setup, canvas drawing, and speech synthesis. The skeleton table is kept as data, along with the fact that drawing throws on short hands.
- A classifier output of any length other than 26 is not modelled, and neither is IEEE behaviour (NaN scores, rounding). Scores and coordinates are `real`.
- SignDetection.CameraSignDetector.OnResults: each frame is processed whole. The async overlap of a frame's inference with the next frame's handler is not modelled. In the source, a slow confident inference can finish after a later no-hand frame has cleared the label and set `handsDetected` to false, and then show a letter with no hand present. So the part of `Shown` that ties a label to `handsDetected` (kept by `StepKeepsShown`) holds only in this atomic model.
- `saveQuizProgress` is not part of this model. It is a network POST, and it names variables out of its scope, so it always ends in its own catch.
- Quiz.QuizMode.Tick: the interval's wall-clock timing is not modelled. Ticks are discrete events allowed whenever the source's guard allows them, so ticks during the feedback pause after a timeout are possible too. The score bound is stated against the number of answers recorded, not the number of questions.
- Quiz.QuizMode.HandleAnswer: calling a side effect from inside a React state updater is not modelled; the answer is recorded once per call.
- React's batching of `setState` calls is not modelled; each handler's updates take effect together.
- Progress and leaderboard fetches, demo-token `localStorage` writes, the fallback demo data, and date and `toFixed` formatting are I/O or presentation. They are not part of this model.
- `src/components/Login.jsx`, `src/App.jsx` and `src/components/Dashboard.jsx` are not part of this model.
- Alphabet.AlphabetReference.Previous: the source handles a selected letter outside the alphabet (`indexOf` gives -1) by going to Z, and Next by going to A. The class invariant keeps the selection in the alphabet, so those paths are only modelled in the index functions.
