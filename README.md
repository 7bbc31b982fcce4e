# Timing game: the click state machine

This project models the core of the hypercasual timing game: what the `TimingGame` component does with each click. A run has four phases:

- The first click starts the run.
- The second click sets the rhythm, which is the interval between the two clicks.
- Every later click must reproduce the current rhythm. A click that arrives later than the target interval ends the run. Any other click is scored by its deviation from the target, and the measured interval becomes the next target.
- After the game is over, clicks are ignored until the player presses the restart button.

The model has two files:

- `timing_game.dfy` (module `TimingGame`):
  - the game-state record as the datatype `GameState`;
  - the feedback classification (`Deviation`, `FeedbackType`, `Points`);
  - the pure specification of one click (`Step`), which returns the next state together with the feedback entry, sound, high-score save request and particle burst that the click produces;
  - the component as the class `TimingGame`. Its fields hold the state record, the feedback list and the on-screen particle bursts. Its methods are `HandleClick`, `AddFeedback` and `Restart`. `HandleClick` is proved against `Step`, `Restart` against `Initial`, and `AddFeedback` against `FeedbackType` and `Points`.
- `timing_game_properties.dfy` (module `TimingGameProperties`):
  - what each phase does with one click;
  - the classification lemmas;
  - lemmas over any sequence of clicks (`Run`): the invariant `Valid` is kept, game over is terminal, monotone high score and score, non-increasing target, and the score of a run of perfect clicks;
  - three concrete runs.

Decisions that follow the code:

- **Thresholds.** The classification compares the percentage deviation against 0.01, 0.1 and 1 (`hypercasual-timing-game.tsx:125-127`). The other variant of the component, `claude v3 - 2025.ts:197-199`, compares against 5, 10 and 20 instead; the two variants differ only in these thresholds. That variant's extra early-arrival guard (`:267-270`) can change the game-over decision only for a negative target, which a clock that does not run backwards never produces. This model follows `hypercasual-timing-game.tsx`.
- **Round bonus.** A scored click adds the round number from before the increment (`:216`). So the perfect click in the 500/1500/2500 ms scenario scores 1000 + 2 = 1002 (`PerfectThenLate`).
- **Zero timestamp.** A last-click time of 0 counts as "no last click" and gives an interval of 0 (`:159`). A run whose first click is at time 0 therefore gets a target of 0, and a third click that comes later than the second ends the run (`StartAtTimeZero`).
- **Target of 0.** The browser computes NaN or infinity for the deviation, every threshold comparison fails, and the click is worth 0 points as "TOO EARLY!". `Deviation` returns `None` in that case instead of dividing.
- **Non-scoring clicks.** The start click and the second click produce no feedback entry.

Timestamps are exact `real` milliseconds. The high score read from storage is the `stored` argument of the constructor and of `Restart`. A high-score save is returned by `HandleClick` as `save`. The requested sound is returned as `sound`. A particle burst is recorded as its position in `bursts`.

## Model

| member | source | states |
|---|---|---|
| `TimingGame.TimingGame.constructor` | hypercasual-timing-game.tsx:87-100 | the game starts idle with zero round, score, combo and times, `firstClickAfterStart` set, the stored high score, and empty feedback and particle lists |
| `TimingGame.TimingGame.HandleClick` | hypercasual-timing-game.tsx:151-221 | the new state, appended feedback entry, particle burst, requested sound and save request are exactly those of the one-click specification; a click after game over changes nothing; the high score never drops; at most one feedback entry is added; the invariant `Valid` is kept |
| `TimingGame.TimingGame.AddFeedback` | hypercasual-timing-game.tsx:131-149 | appends one entry with the classification of the deviation, its points and the click position, and returns those points, which are 0, 100, 500 or 1000 |
| `TimingGame.TimingGame.Restart` | hypercasual-timing-game.tsx:223-238 | from any state, every field returns to its initial value except the high score, which is re-read; the phase is idle; the feedback and particle lists are empty |
| `TimingGame.Initial` | hypercasual-timing-game.tsx:87-97 | the record a game starts and restarts in: not playing, round, score, combo, last-click time and target all 0, not over, `firstClickAfterStart` set, and the high score read from storage |
| `TimingGame.Step` | hypercasual-timing-game.tsx:151-221 | one click, phases tested in the handler's order: after game over nothing changes and nothing is produced; from idle the run starts (round 1, score 0, target the measured interval) with a click sound and a burst; the second click sets the target and increments the round, with a click sound and a burst; in active play an interval above the target sets game over and the high score to the maximum, with the game-over sound and a save iff the score beats the high score; otherwise one feedback entry, round + 1, score + points + old round, combo kept or reset, target the interval, with the perfect sound and a burst iff points are earned |
| `TimingGame.Interval` | hypercasual-timing-game.tsx:159 | the interval is the time since the last click, or 0 when the last-click time is 0 |
| `TimingGame.Deviation` | hypercasual-timing-game.tsx:203 | the deviation is undefined exactly when the target is 0; otherwise it is non-negative, 0 exactly when the interval equals the target, and times the target's magnitude it equals 100 times the absolute error |
| `TimingGame.FeedbackType` | hypercasual-timing-game.tsx:124-129 | first match wins: PERFECT iff deviation ≤ 0.01, AMAZING iff 0.01 < deviation ≤ 0.1, GOOD iff 0.1 < deviation ≤ 1, TOO EARLY iff the deviation is above 1 or not a number |
| `TimingGame.Points` | hypercasual-timing-game.tsx:125-128 | points are always one of 0, 100, 500 and 1000; 1000 exactly for PERFECT, 500 exactly for AMAZING, 100 exactly for GOOD and 0 exactly for TOO EARLY |
| `TimingGameProperties.InitialIsIdle` | hypercasual-timing-game.tsx:87-97 | the initial state is idle, satisfies the invariant `Valid` and holds the stored high score |
| `TimingGameProperties.ClickAfterGameOverIsIgnored` | hypercasual-timing-game.tsx:152 | after game over a click leaves the state unchanged and produces no feedback, sound, save or particles |
| `TimingGameProperties.StartClick` | hypercasual-timing-game.tsx:161-173 | from idle a click starts the run: playing, round 1, score 0, last click at t, target set to the measured interval, awaiting the second click, click sound, particles, no feedback, high score and combo kept |
| `TimingGameProperties.SecondClick` | hypercasual-timing-game.tsx:176-186 | the second click sets the target to the measured interval (t minus the last click time when that is nonzero), records t, clears the flag, increments the round, and leaves score and combo unchanged; no feedback |
| `TimingGameProperties.LateClickEndsRun` | hypercasual-timing-game.tsx:189-200 | an interval above the target ends the run: the next record is the old one with only `gameOver` set and the high score updated, so playing state, flag, score, round, combo and times are unchanged; the high score becomes the maximum of the old high score and the score; a save of the score is requested iff the score beats the old high score |
| `TimingGameProperties.ScoredClick` | hypercasual-timing-game.tsx:203-220 | an interval within the target appends one feedback entry with the classified label, its points and the click position; the round increments; the score grows by exactly the points plus the old round; the combo increments on points and resets otherwise; the target becomes the interval, which is no larger |
| `TimingGameProperties.ZeroTargetScoresNothing` | hypercasual-timing-game.tsx:203-204 | with a target of 0 a scored click is classified TOO EARLY, earns 0 points and resets the combo |
| `TimingGameProperties.FeedbackIffScored` | hypercasual-timing-game.tsx:161-204 | a click appends feedback iff it comes in active play with an interval not above the target |
| `TimingGameProperties.PhaseTransitions` | hypercasual-timing-game.tsx:151-221 | game over is terminal; idle goes to awaiting the second click; that goes to active play; active play stays active or ends |
| `TimingGameProperties.StepMonotone` | hypercasual-timing-game.tsx:195-199 | no click lowers the high score; from a state satisfying `Valid` no click lowers the score |
| `TimingGameProperties.StepPreservesValid` | hypercasual-timing-game.tsx:151-221 | one click keeps an invariant, satisfied by every reachable state, that ties round, score, combo and times to the phase and keeps the high score at least the final score after game over |
| `TimingGameProperties.PointsAntitone` | hypercasual-timing-game.tsx:124-129 | a smaller deviation never earns fewer points |
| `TimingGameProperties.PerfectWindow` | hypercasual-timing-game.tsx:203-204 | for a positive target, a click is PERFECT iff its interval is within one ten-thousandth of the target |
| `TimingGameProperties.ScoredDeviationBounded` | hypercasual-timing-game.tsx:189-203 | with a positive target and a timestamp no earlier than the last click, a scored click's deviation lies between 0 and 100 percent |
| `TimingGameProperties.DeviationWithinTarget` | hypercasual-timing-game.tsx:203 | an interval between 0 and a positive target deviates from it by at most 100 percent |
| `TimingGameProperties.RunPreservesValid` | hypercasual-timing-game.tsx:151-221 | any sequence of clicks keeps the invariant `Valid` |
| `TimingGameProperties.RunAfterGameOver` | hypercasual-timing-game.tsx:152 | once the game is over, any sequence of clicks leaves the state unchanged |
| `TimingGameProperties.RunMonotone` | hypercasual-timing-game.tsx:189-220 | over any sequence of clicks the high score never decreases, and from a state satisfying `Valid` the score never decreases |
| `TimingGameProperties.RunTargetNonIncreasing` | hypercasual-timing-game.tsx:189-219 | from active play, the target interval never increases over any sequence of clicks, and the game stays in active play or over |
| `TimingGameProperties.PerfectClick` | hypercasual-timing-game.tsx:203-220 | after any number of perfect clicks, one more click exactly one target interval later earns 1000 points plus the round bonus: round and combo grow by one, the last click moves one target interval on, and the target is kept |
| `TimingGameProperties.PerfectRun` | hypercasual-timing-game.tsx:203-220 | clicks that reproduce a positive target exactly never end the run; after n of them the state is `AfterPerfect`: round and combo grow by n, the score by 1000 plus the round bonus per click, the last-click time by n target intervals, and the target and everything else are unchanged |
| `TimingGameProperties.SpanIsProduct` | hypercasual-timing-game.tsx:159 | n target intervals laid end to end, the time n perfect clicks take, amount to n times the target |
| `TimingGameProperties.PerfectPointsClosedForm` | hypercasual-timing-game.tsx:216 | n perfect clicks from round r earn 1000·n + n·r + n(n−1)/2 |
| `TimingGameProperties.PerfectThenLate` | hypercasual-timing-game.tsx:151-221 | clicks at 500, 1500 and 2500 ms give round 3, score 1002, target 1000 and combo 1; a fourth at 3800 ms ends the run with score and high score 1002 |
| `TimingGameProperties.EarlyClickScoresNothing` | hypercasual-timing-game.tsx:189-220 | an interval of 400 ms against a 1000 ms target does not end the run; it scores 0 points plus the round bonus, resets the combo and makes 400 ms the target |
| `TimingGameProperties.StartAtTimeZero` | hypercasual-timing-game.tsx:159-189 | a run started at time 0 gets a target of 0, and a third click later than the second ends it with score 0 |

## Left out

- Sound synthesis (`SoundManager`, `hypercasual-timing-game.tsx:5-66`) is Web Audio plumbing. Only the name of the requested sound is modelled.
- Browser storage in `getHighScore` and `saveHighScore` (`:69-83`) is I/O. The parsed high score is an input, with parse failure already turned into 0 by the caller. A save is a returned request. Storage failures are not modelled.
- In the particle effect (`createParticles`, `:109-122`), each burst of eight particles is recorded only by its position. Particle ids, angles, random speeds and the one-second removal timer are presentation.
- Feedback entries are not removed after one second (`:144-146`), because that removal runs on an asynchronous timer. The entry's id (a wall-clock timestamp) and its colour class are also not modelled. The colour class is fixed by the label.
- Click coordinates come from the DOM (`:154-156`), and the clock comes from `performance.now()` (`:158`). Both are opaque inputs.
- Rendering, animation and the progress bar (`:240-351`) are UI.
- Floating point: timestamps and deviations are exact reals. Rounding at the thresholds and the NaN/infinity arithmetic of the browser are not modelled; the zero-target case is the only one made explicit.
- React batching: the handler reads a snapshot of the state while its updates apply to the latest state. The model assumes that each click sees the state left by the previous click.
- `complete-game-package.js` holds only an app wrapper and styling, and `claude v3 - 2025.ts` is a different variant of the component. Neither is part of this model.
