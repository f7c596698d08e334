# Story Point Showdown: game-state model

This project models the game logic of the story-point quiz in `src/pages/Index.tsx`. The player works through a fixed deck of ten humorous user stories. For each story they pick an estimate from the scale 1, 2, 3, 5, 8, 13, 20 and submit it. They are told whether it matches the story's actual points, and then move to the next story. After the tenth story a summary shows three figures: the player's total, the deck's total and the absolute difference between them.

The model has three modules:

- `Deck` (deck.dfy) holds the ten stories, each with its number and actual points. It also holds the estimation scale, the projection of the deck to its points, and the left-to-right sum used by every total.
- `Totals` (totals.dfy) holds the derived figures: `totalEstimated`, `totalActual` (over the first n stories, with the slice's clamping at the end of the deck), `finalTotalActual` and `difference`. Lemmas about them include the deck total of 69, the step and monotonicity of the running total, and the zero difference of a game where every estimate was exact.
- `Game` (session.dfy) is a `Session` class whose fields are the component's state hooks. Its methods are the handlers, which update those fields in place:
  - `SelectEstimate` is the selector's change handler.
  - `SubmitEstimate`, `NextStory` and `ResetGame` are the three button handlers.
  - `ClearMessage` and `HideFeedback` are the effects of the two timer callbacks.

  `Valid()` is the invariant over reachable states, and every handler keeps it. It says:
  - the index is in bounds;
  - there is one estimate per story played;
  - every estimate is on the scale;
  - once a story is submitted, `isCorrect` judges the last estimate against that story;
  - completion happens only on the last story;
  - the verdict overlay is up only after a submit, so the verdict it shows is always the current story's.

  Three client methods drive the handlers through short games:
  - `CorrectFirstEstimate` estimates 3 for the first story, is told it is correct, and moves on to the second story;
  - `WrongFirstEstimate` submits with nothing selected, then estimates 1 for the first story and is told it is wrong;
  - `ResetAfterCompletion` plays the whole deck with exact estimates (`PerfectPlaythrough`) and then starts a new game.

A handler's preconditions are the conditions under which the page shows its control:
- the selector and the Submit button appear only while the current story is not yet submitted (line 379);
- the Next Story / Finish Game button appears only after submission (line 421);
- the whole quiz view is replaced by the summary once the game is completed (line 274).

The Start New Game button, whose handler is `ResetGame`, appears only on the summary (line 305). The model still gives `ResetGame` no precondition, deliberately allowing more than the page does, because resetting is safe from any state.

Details of the source that the model keeps:
- The summary shows three figures: the player's total, the deck's total and their difference (lines 274-276).
- `resetGame` does not reset `isCorrect`. The model keeps the old value. The invariant makes the overlay appear only after a submit (`FeedbackShowsCurrentVerdict`), and a reset hides the overlay and clears the submitted flag, so the stale value is never shown.
- `handleNextStory` does not clear `message`.
- `handleEstimateSubmit` leaves `selectedEstimate` as it is. The model's invariant records that, after a submit, the selection equals the last recorded estimate.

## Model

| member | source | states |
|---|---|---|
| Deck.DeckWellFormed | src/pages/Index.tsx:21-132 | The deck has ten stories, story i is numbered i+1, and every story's actual points are a value of the estimation scale |
| Deck.StoryPointsPositive | src/pages/Index.tsx:21-132 | Every story is worth at least one point |
| Deck.Sum | src/pages/Index.tsx:271-275 | The `reduce` with `(sum, x) => sum + x` from 0, as a left-to-right fold. It has no contract of its own; `SumAppend` and `SumWithinScale` state its properties |
| Deck.Points | src/pages/Index.tsx:272 | The points projection has one entry per story, and entry i is story i's actualPoints |
| Deck.SumWithinScale | src/pages/Index.tsx:387 | A sum of n scale values lies between n and 20·n |
| Totals.TotalEstimated | src/pages/Index.tsx:271 | `totalEstimated`, the sum of the history. It has no contract of its own; `SumAppend`, `SubmitEstimate`, `RunningTotalsAgree` and `ProgressBounds` state its properties |
| Totals.TotalActual | src/pages/Index.tsx:272 | `totalActual`, the points of the first n stories. It has no contract of its own; `TotalActualStep`, `TotalActualMonotone` and `TotalActualBounded` state its properties |
| Totals.FinalTotalActual | src/pages/Index.tsx:275 | `finalTotalActual`, the points of the whole deck. It has no contract of its own; `DeckTotal` states that it is 69 |
| Totals.SumAppend | src/pages/Index.tsx:271 | Appending an estimate to the history raises the reduce-based total by exactly that estimate |
| Totals.SliceEnd | src/pages/Index.tsx:272 | `slice(0, n)` keeps n stories, or the whole deck when n is past its end |
| Totals.TotalActualStep | src/pages/Index.tsx:272 | Counting one more story adds exactly that story's points to `totalActual` |
| Totals.TotalActualMonotone | src/pages/Index.tsx:272 | `totalActual` never decreases as the history grows |
| Totals.TotalActualBounded | src/pages/Index.tsx:272-275 | `totalActual` never exceeds `finalTotalActual` |
| Totals.DeckTotal | src/pages/Index.tsx:275 | `finalTotalActual` is 69, and it equals `totalActual` over all ten stories |
| Totals.Difference | src/pages/Index.tsx:276 | `difference` is non-negative, and the estimated total is the deck total plus or minus it |
| Totals.RunningTotalsAgree | src/pages/Index.tsx:271-272 | When each estimate so far equals its story's points, `totalEstimated` equals `totalActual` |
| Totals.PerfectGame | src/pages/Index.tsx:271-276 | Ten exact estimates total 69 and leave a difference of 0 |
| Totals.DifferenceBound | src/pages/Index.tsx:276 | Ten scale estimates total between 10 and 200, so the difference is at most 131 |
| Game.Session.constructor | src/pages/Index.tsx:135-142 | The initial hook values: index 0, no selection, not submitted, empty history, not completed, no feedback, not correct, empty message |
| Game.Session.Valid | src/pages/Index.tsx:135-142 | The reachable-state invariant over the hooks. It has no contract of its own; the handlers' `ensures Valid()`, `ProgressBounds`, `CompletedSummary` and `FeedbackShowsCurrentVerdict` state what it gives |
| Game.Session.CurrentPhase | src/pages/Index.tsx:379 | Which view the page renders: the summary when the game is completed (line 274), otherwise the selector before a submit and the revealed answer after it. It has no contract of its own; the handlers' preconditions and postconditions use it |
| Game.Session.CurrentStory | src/pages/Index.tsx:270 | The story on screen is numbered index+1 and is worth a scale value |
| Game.Session.SelectEstimate | src/pages/Index.tsx:382-392 | Picking a scale value makes it the selection and changes nothing else |
| Game.Session.SubmitEstimate | src/pages/Index.tsx:218-247 | With no selection, only the prompt message is set. With a selection, exactly that value is appended to the history, `totalEstimated` rises by that value, and `isCorrect` holds iff it equals the current story's points. `hasSubmitted` and `showFeedback` are set, and the index is unchanged. The invariant is kept |
| Game.Session.NextStory | src/pages/Index.tsx:249-258 | Before the last story, the index goes up by exactly one and the selection, submitted flag and feedback are cleared. On the last story, the game is completed and the index stays at 9. The history and message are unchanged, and the index stays in [0, 10) |
| Game.Session.ResetGame | src/pages/Index.tsx:260-268 | Every hook it sets is back at its initial value: index 0, no selection, not submitted, empty history, not completed, no feedback, empty message. `isCorrect` is left as it was |
| Game.Session.ClearMessage | src/pages/Index.tsx:221 | The prompt timer's callback empties the message and changes nothing else |
| Game.Session.HideFeedback | src/pages/Index.tsx:244-246 | The feedback timer's callback hides the verdict overlay and changes nothing else |
| Game.ProgressBounds | src/pages/Index.tsx:271-272 | In every reachable state, the history has at most ten entries. `totalEstimated` lies between its length and 20 times its length, and `totalActual` is at most 69 |
| Game.FeedbackShowsCurrentVerdict | src/pages/Index.tsx:359-366 | While the verdict overlay is up, a story has just been submitted and `isCorrect` judges that estimate against the story on screen |
| Game.CompletedSummary | src/pages/Index.tsx:274-276 | On the summary, exactly one estimate per story was recorded and `totalActual` equals `finalTotalActual`, which is 69 |
| Game.PerfectPlaythrough | src/pages/Index.tsx:249-276 | Playing every story with its own points ends on the summary with a total of 69 and a difference of 0 |

## Left out

- Audio: the lazy Tone.js set-up on the first click or key press, and the success and failure sounds (lines 143-206). They are calls into a foreign library with no effect on game state, and the `audioInitialized` hook is not modelled either.
- Speech: the spoken feedback (lines 208-216) is a browser API with no effect on game state.
- Timers: the delays of the two `setTimeout` callbacks (3 and 2 seconds) are not modelled. Their effects are the explicit operations `ClearMessage` and `HideFeedback`, which may be called at any point or never. So the model loses the link between a submit and the timer it starts: it does not promise that the prompt stays up for 3 seconds, that the overlay stays up for 2, or that either is ever cleared.
- Rendering: all markup is a projection of the state. Only the render conditions that decide which handler can be reached are modelled, as preconditions.
- Story text and reasoning: the prompt strings and the four reasoning strings of each story are display data and are not part of `Deck.Story`.
- String parsing: the selector holds a string, and `parseInt` converts it. The model holds an optional integer instead: the empty string is `None`, and a selected scale value is `Some`.
- Build configuration: vite.config.ts is not part of this model. It holds only build settings.
