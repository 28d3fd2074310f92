# Cosmic Facts: session, quiz and narration logic in Dafny

Cosmic Facts is a web app for children. It photographs a planet picture, asks an AI
service which planet it shows, fetches fun facts about it, generates a quiz from those
facts, and can read the facts aloud. All the recognition and generation is done by the
external service. This project models the client-side logic around those calls:

- `Actions` (`actions.dfy`): the four server actions. Each one turns a service call into
  either data or a fixed error message. The planet identifier also rejects empty names
  and names that say "not a planet" in any letter case. The quiz action sends the facts
  joined with single spaces.
- `Session` (`session.dfy`): the controller's session record and its six phases. It covers
  the three-call capture pipeline, quiz submission, reset, and the player's transitions
  between screens. It also states an invariant that holds in every state the player can see.
- `Scoring` (`scoring.dfy`): marking a submitted quiz, and the result screen's
  "perfect score" test.
- `QuizView` (`quiz_view.dfy`): the answer map built one radio click at a time, and the
  submit guard.
- `PlanetDisplay` (`planet_display.dfy`): the case-insensitive picture lookup with its
  default entry, and the two-flag narration button.
- Helpers: `Text` holds ASCII lower-casing, `includes` and `join`. `Indices` counts index
  sets. `Types` holds the quiz question record. `Wrappers` holds `Option`. `Seqs` holds `Last`.

The AI flows are fields of a `Services` record. Each field is a total function from the
flow's input to `Returned(value)` or `Threw`. So the model asserts nothing about what the
service answers. In particular, a quiz question's `correctAnswer` need not be one of its
`options`, and the number of facts, questions or options is not fixed. An async handler is
modelled as the list of states it passes through (`Run`, `NarrateRun`), together with the
error message it shows, if any. Each player action carries its own `Services` value
(`Session.Input`), so the service may answer differently from one action to the next.

The quiz prompt asks for three questions, each with four options and a correct answer
among them (`src/ai/flows/generate-quiz-questions.ts:52-54`). That is only a request in
the prompt text. The output schema (`src/ai/flows/generate-quiz-questions.ts:22-32`) does
not enforce it, and no code checks it. The model does not assume it either.

## Model

| member | source | states |
|---|---|---|
| Actions.IdentifyPlanetFromImage | src/app/actions.ts:9-23 | a thrown call gives the fixed "failed to analyze" error; a returned name is passed through as data exactly when it is non-empty and does not contain "not a planet" after lower-casing; otherwise the "doesn't look like a planet" error |
| Actions.AcceptedNameHasNoNegativePhrase | src/app/actions.ts:15-18 | an accepted name has no substring equal to "not a planet" in any letter case |
| Actions.NegativePhraseInAnyCaseIsRejected | src/app/actions.ts:15-16 | if the returned name contains "not a planet" in any mix of letter cases, the result is the "doesn't look like a planet" error |
| Actions.RejectionIgnoresCase | src/app/actions.ts:15 | two names that differ only in letter case are both accepted or both rejected |
| Actions.GetFunFacts | src/app/actions.ts:25-34 | the generated facts are returned unchanged; a throw gives the fixed fun-facts error and nothing else does |
| Actions.QuizRequestFor | src/app/actions.ts:41-42 | the generator receives the planet name unchanged and the facts joined in order with single spaces, so every fact occurs in the text and a single fact is sent as it is |
| Actions.GetQuiz | src/app/actions.ts:36-48 | the generated questions are returned exactly; a throw gives the fixed quiz error and nothing else does |
| Actions.GetNarrationAudio | src/app/actions.ts:50-60 | the synthesized audio URI is returned unchanged; a throw gives the fixed narration error and nothing else does |
| Text.IncludesIffOccurs | src/app/actions.ts:15 | the `includes` search succeeds exactly when the phrase occurs at some position of the string |
| Text.JoinIncludesEachPart | src/components/planet-display.tsx:49 | joining the facts with a separator loses none of them: each can still be found in the joined text |
| Text.LowerIdentifiesCaseVariants | src/components/planet-display.tsx:35 | two strings lower-case to the same string exactly when they differ only in letter case |
| Scoring.CorrectCount | src/components/cosmic-facts-main.tsx:66-71 | the number of correct answers never exceeds the number of questions |
| Scoring.CorrectCountIsCorrectIndices | src/components/cosmic-facts-main.tsx:66-71 | counting question by question gives the size of the set of indices whose recorded answer equals the correct answer |
| Scoring.ScoreQuiz | src/components/cosmic-facts-main.tsx:66-71 | the marking loop returns the number of question indices whose recorded answer is the correct one; missing answers earn nothing; the score is at most the question count |
| Scoring.Grade | src/components/cosmic-facts-main.tsx:72 | the stored result has total equal to the question count and score equal to the number of correctly answered indices, so 0 <= score <= total |
| Scoring.GradeReadsOnlyQuestionIndices | src/components/cosmic-facts-main.tsx:67-68 | answers under keys that are not question indices do not affect the result |
| Scoring.PerfectIffAllCorrect | src/components/quiz-result.tsx:16 | the result is perfect (score equals total) exactly when every question has a recorded answer equal to its correct answer |
| Scoring.WorkedExample | src/components/cosmic-facts-main.tsx:65-73 | answers A, X, C against correct answers A, B, C give score 2 out of 3 |
| Session.ResetState | src/components/cosmic-facts-main.tsx:76-83 | reset gives phase idle, with no image, planet name or result and with no facts or questions; this equals the state the controller is mounted with |
| Session.HandleImageCapture | src/components/cosmic-facts-main.tsx:30-63 | the first state stores the image and shows the loader before any call; every state before the last is still identifying; the last is the facts screen exactly when all three actions succeed, and then it holds their three results; otherwise it is the reset state, an error is shown, and no state is the facts screen |
| Session.CaptureShowsFirstError | src/components/cosmic-facts-main.tsx:35-57 | the error shown is the message of the first action that failed, and the pipeline stops right after that action |
| Session.HandleQuizSubmit | src/components/cosmic-facts-main.tsx:65-74 | submission moves to results with score equal to the number of correctly answered indices and total equal to the question count; no other field changes |
| Session.Step | src/components/cosmic-facts-main.tsx:97-120 | an action whose control is not on screen changes nothing; an offered action runs its own handler: scan and start-quiz set only the phase, cancel returns to idle, a capture runs the pipeline to its end, submit grades the submitted answers, retry resets; the phase then changes, and only along idle→capturing, capturing→idle, capturing→facts, facts→quizzing, quizzing→results or results→idle |
| Session.CancelChangesOnlyPhase | src/components/cosmic-facts-main.tsx:99 | cancelling the camera returns to idle with every other field unchanged |
| Session.StepPreservesValid | src/components/cosmic-facts-main.tsx:97-111 | every player action preserves the screen invariant: never left identifying, a result exactly on the results screen, idle and capturing are the reset state, the image and planet name are present on the facts, quiz and results screens, and score <= total == question count |
| Session.ReachableIsValid | src/components/cosmic-facts-main.tsx:21-26 | any sequence of player actions from a valid state, such as the mounted one, ends in a valid state |
| Session.InitialIsValid | src/components/cosmic-facts-main.tsx:21-26 | the state the controller is mounted with satisfies the screen invariant |
| QuizView.HandleAnswerChange | src/components/quiz-view.tsx:20-22 | the chosen question gets the new answer; every other key and its answer is unchanged; re-answering keeps the key count, and a first answer adds one |
| QuizView.Choose | src/components/quiz-view.tsx:41-47 | a radio click records the clicked option's own text for its question; every other answer is unchanged; recorded answers stay shown options of shown questions |
| QuizView.CollectIsRecorded | src/components/quiz-view.tsx:17-22 | starting from no answers, any sequence of clicks leaves every key a question index whose answer is one of that question's options |
| QuizView.AllAnsweredIffEveryIndex | src/components/quiz-view.tsx:18 | for such answers, the key count equals the question count exactly when every question index has an answer |
| QuizView.HandleSubmit | src/components/quiz-view.tsx:24-27 | submission goes through exactly when the key count equals the question count, and for answers recorded by the radio groups that is exactly when every question index has an answer; the answer map is handed on unchanged |
| QuizView.SubmittedAnswersCoverEveryQuestion | src/components/quiz-view.tsx:41-56 | whatever the clicks, once submission is allowed the collected map answers every question index with one of that question's options |
| PlanetDisplay.Lookup | src/components/planet-display.tsx:35-36 | a name whose lower-cased form is one of the eight planets gets that planet's picture; every other name gets the default picture |
| PlanetDisplay.LookupIgnoresCase | src/components/planet-display.tsx:35-36 | names that differ only in letter case get the same picture |
| PlanetDisplay.LookupHint | src/components/planet-display.tsx:17-27 | a planet's own picture carries the hint "cartoon <planet>", and any other name shows "cartoon planet" |
| PlanetDisplay.LookupAsWritten | src/components/planet-display.tsx:36 | the lookup as written returns a picture exactly when the lower-cased name is not an inherited object property |
| PlanetDisplay.ConstructorGetsNoPicture | src/components/planet-display.tsx:36 | as written, the name "Constructor" reads the inherited `constructor` property instead of a picture |
| PlanetDisplay.LookupAgreesOutsideInheritedKeys | src/components/planet-display.tsx:35-36 | for every other name, the lookup as written returns the same picture as the corrected lookup |
| PlanetDisplay.NarrationText | src/components/planet-display.tsx:49 | the narrated text is the facts joined in order with ". ", and it contains every fact |
| PlanetDisplay.HandleNarrate | src/components/planet-display.tsx:38-63 | pressing while generating or narrating makes no request, plays nothing, shows no error, leaves the generating flag as it was and ends not narrating; otherwise it requests the facts joined with ". ", generates during the call and not afterwards, then narrates and plays the returned audio exactly when the call returned, and shows the fixed narration error exactly when it threw |
| PlanetDisplay.AudioEnded | src/components/planet-display.tsx:69 | the end of playback clears the narrating flag and leaves the generating flag alone |
| PlanetDisplay.NarrationStep | src/components/planet-display.tsx:69-101 | a playback end runs the `ended` handler; a press on the enabled button runs the whole narrate handler; a press while the button is disabled (generating) changes nothing |
| PlanetDisplay.PressTwiceToggles | src/components/planet-display.tsx:39-61 | from the mount state, a press whose synthesis returns leaves the button narrating and not generating, and a second press returns it to the mount state |
| PlanetDisplay.NeverLeftGenerating | src/components/planet-display.tsx:101 | with presses ignored while the button is disabled, the generating flag is never left set between events |
| PlanetDisplay.SilentNeverLeftGenerating | src/components/planet-display.tsx:30-31 | starting from the mount state (neither generating nor narrating), no sequence of presses and playback ends leaves the button generating between events |

## Findings

| source | as written | input that shows it | evidently intended | confidence | as-written member | corrected member |
|---|---|---|---|---|---|---|
| src/components/planet-display.tsx:36 | `planetImages[planetKey] \|\| planetImages.default` indexes a plain object literal, so a key that names an inherited `Object.prototype` property returns that truthy value instead of falling back | planet name "Constructor" (or "__proto__") | any name without its own table entry shows the default picture | medium; not executed | PlanetDisplay.ConstructorGetsNoPicture | PlanetDisplay.Lookup |

## Left out

- Camera capture in `src/components/camera-capture.tsx` is device I/O over the browser's media and canvas APIs, so it is not modelled. Only the captured data URI enters the model, through `Session.CaptureImage`.
- The AI flows in `src/ai/flows/*.ts` are prompt templates around an external model. Their results are the abstract `Services` functions. `src/ai/flows/text-to-speech.ts` is not part of this model.
- Toasts are not rendered. Only the message text is kept, as `toast`. `console.error` logging is also left out.
- Audio playback is left out: `play`, `pause`, `currentTime` and element setup and teardown. The audio element is taken to exist once the screen is mounted, so the `audioRef.current` null checks always pass.
- React scheduling is left out: `useTransition`/`isPending`, batching of state updates, and stale closures. Each handler runs to completion before the next player action, and a handler's intermediate states are listed in order.
- Controls are only offered on their own screen. An action whose control is not on screen leaves the session unchanged.
- A service call that never settles is not modelled: every `Call` returns or throws. The source has no time-out (`src/components/cosmic-facts-main.tsx:34-61`, `src/components/planet-display.tsx:50`). A hung call would leave the session on the identifying loader, or leave `isGenerating` set. `Session.StepPreservesValid` (never left identifying) and `PlanetDisplay.NeverLeftGenerating` hold only because every call ends.
- A rejected action call is not modelled. The actions are server functions (`src/app/actions.ts:1`), so each `await` on the client is a remote call, and the client never catches its rejection (`src/components/cosmic-facts-main.tsx:34`, `:44`, `:53`, `src/components/planet-display.tsx:50`). If such a call rejects, there is no toast and no reset, and `isGenerating` stays set. `Session.HandleImageCapture` (every failure resets), `Session.StepPreservesValid` (never left identifying) and `PlanetDisplay.NeverLeftGenerating` hold only because every action call resolves to data or an error.
- `Services` returns the same answer for the same input within one player action. A fresh `Services` value comes with each action.
- If the identifier's structured output were missing, reading `result.planetName` would throw inside the `try`. The model covers that case as `Threw`.
- Lower-casing covers only ASCII letters, not the full Unicode rules of JavaScript's `toLowerCase`.
- Answer-map keys are modelled as integers. JavaScript stores record keys as strings.
- Scores are unbounded naturals. In JavaScript they are doubles, which are exact at these sizes.
- The quiz screen starts from an empty answer map each time it is mounted (`QuizView.InitialAnswers`). The model does not link this mount to the controller's phase change.
- `src/components/quiz-result.tsx`, `src/components/icons.tsx`, `src/app/page.tsx` and `src/ai/dev.ts` are presentation or configuration. Only the perfect-score test of quiz-result is modelled.
