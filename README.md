# Colour perception game: round and scoring engine in Dafny

This project models the engine of `ColorPerceptionGame` from `script.js`, a
browser mini-game. Each round shows a grid of near-identical colours around a
random base colour, and one of them is the target. A click is classified by its
RGB distance to the target and scored as perfect, close or wrong. Levels raise
the grid size and the difficulty meter and narrow the variance. The project also
models the three bounded meters of the dialogue game `ManipulationBattle`:
willpower, manipulation level and AI confidence.

Files:

- `js_math.dfy` (module `JsMath`): `Math.min` and `Math.max` on integers.
- `colors.dfy` (module `Colors`): the pure arithmetic. It covers `clamp`, the
  per-level variance, `randomVariance`, one palette cell, the squared colour
  distance and the classification of a pick.
- `color_game.dfy` (module `ColorGame`): class `ColorPerceptionGame`. Its fields
  are the source's fields. Its methods are `startRound`, `generateColors` (a loop
  that rebuilds `colors`), the pick handlers, `gameOver`, `nextLevel`, the
  interval tick and `handleTimeout`. The invariant `Valid()` covers:
  - the grid size as a function of the level;
  - the difficulty meter;
  - non-negative counters and accuracy within [0, 100];
  - the timer state;
  - one in-range colour per cell, with the target among them.
- `manipulation.dfy` (module `Manipulation`): class `ManipulationBattle`, holding
  the three meters and the pattern set. It also holds the keyword tests that
  drive them: lower-casing and `includes`.

Randomness is an input. Every `Math.random` call of one `generateColors`
arrives as a `RoundDraws` value, which holds:

- the base colour, with each channel in [0, 255];
- three draws per cell, each in [0, 2 · variance);
- the target index, in [0, gridSize²).

The host's timers are calls. The `setTimeout` after a pick becomes a call of
`NextLevel`. The `setTimeout` after a timeout becomes a call of `StartRound`.
Each firing of the one-second interval becomes a call of `Tick`. The field
`timerActive` records whether that interval is installed.

The perception game's distance is `Math.sqrt` of an integer sum of squares. The
model classifies on the sum itself: 0 is perfect, below 100 is close, anything
else is wrong. `ClassifyMatchesDistance` proves that these thresholds agree with
comparing the exact square root against 0 and 10.

Behaviour kept as the code has it, although a reader of the game might expect
otherwise:

- A wrong pick does not reset `currentStreak` (script.js:504-510). No other
  operation resets it either. So the invariant `highestStreak == currentStreak`
  holds in every reachable state.
- A wrong pick sets `isGameOver` and clears the interval. `handleColorPick` still
  schedules `nextLevel` afterwards (script.js:464), and nothing reads
  `isGameOver`. So `NextLevel` accepts a game that is over, and play goes on.
- The pick index is not range-checked (script.js:448-449). An index with no
  colour makes `calculateColorDifference` throw before any field changes. This
  is `InvalidPick` with the state unchanged.
- `randomVariance` yields offsets in [−variance, variance − 1], not
  [−variance, variance].

## Model

| member | source | states |
|---|---|---|
| `Colors.Clamp` | script.js:416-418 | the result is in [0, 255]; a value already in [0, 255] is unchanged; values below map to 0 and values above map to 255 |
| `Colors.ClampNoFurther` | script.js:416-418 | clamping never moves a value further from a point inside [0, 255] |
| `Colors.Variance` | script.js:389 | the variance is `max(5, 50 − 2·level)`: at least 5 and at least 50 − 2·level, and equal to one of them |
| `Colors.VarianceNonIncreasing` | script.js:389 | a higher level never gives a larger variance |
| `Colors.VarianceRange` | script.js:389 | from level 1 on, the variance lies in [5, 48], and it is 5 exactly from level 23 on |
| `Colors.RandomVariance` | script.js:412-414 | a draw in [0, 2·variance) gives an offset in [−variance, variance − 1] |
| `Colors.RandomVarianceBijective` | script.js:412-414 | every offset in [−variance, variance − 1] comes from exactly one admissible draw |
| `Colors.Cell` | script.js:396-400 | a palette cell is the base perturbed channel by channel and clamped; every channel is in [0, 255] |
| `Colors.CellNearBase` | script.js:396-400 | for a base in range, each channel of a cell lies within [base − variance, base + variance − 1] |
| `Colors.CellsClose` | script.js:391-402 | two cells of one palette differ by less than 2·variance in every channel |
| `Colors.DistSq` | script.js:467-472 | the squared distance is non-negative, and it is 0 exactly when the two colours are equal |
| `Colors.DistSqSymmetric` | script.js:467-472 | the distance does not depend on the order of the two colours |
| `Colors.Classify` | script.js:452-461 | a pick is perfect iff it equals the target, close iff it differs with squared distance below 100, and wrong iff the squared distance is at least 100 |
| `Colors.ClassifySymmetric` | script.js:452-461 | classifying a against b gives the same outcome as b against a |
| `Colors.ClassifyMatchesDistance` | script.js:450-461 | for the non-negative root `difference` of the squared distance: perfect iff `difference == 0`, close iff `0 < difference < 10`, wrong iff `difference >= 10` |
| `Colors.CloseBaseScore` | script.js:496 | in exact arithmetic, `floor(50·level·(1 − difference/10))` for a close pick lies in [0, 50·level), so a close pick never lowers the score |
| `ColorGame.GridSizeAt` | script.js:349 | the grid edge reached at a level under the `nextLevel` rule always lies in [3, 8] |
| `ColorGame.GridSizeClosedForm` | script.js:512-516 | the `nextLevel` rule, applied from level 1 with edge 3, gives exactly `min(8, 3 + level / 3)` |
| `ColorGame.GridSizeMonotone` | script.js:512-516 | the grid edge never decreases as the level rises |
| `ColorGame.DifficultyAt` | script.js:517 | the difficulty meter is in [0, 100] and is full from level 20 on |
| `ColorGame.PerfectStreakBonus` | script.js:480 | `floor(streak · 0.5 · 100)` is exactly 50 · streak |
| `ColorGame.ColorPerceptionGame.constructor` | script.js:342-364 | starts at score 0, level 1, 30 seconds, accuracy 100, grid 3, difficulty 0, with no streak and the interval running; the first palette comes from the given draws |
| `ColorGame.ColorPerceptionGame.StartRound` | script.js:374-380 | resets the time to 30 and installs the interval; builds a new palette; keeps every counter, the level and the grid size |
| `ColorGame.ColorPerceptionGame.GenerateColors` | script.js:382-406 | builds `colors` with gridSize² entries; entry k is the cell of draw k around the base at the level's variance; the target is entry `targetIndex`; no counter changes |
| `ColorGame.ColorPerceptionGame.HandleColorPick` | script.js:447-465 | an index outside the palette is rejected with nothing changed; otherwise the outcome is `Classify(colors[index], target)` and the state changes exactly as that outcome's handler says; the palette is kept |
| `ColorGame.ColorPerceptionGame.HandlePerfectPick` | script.js:474-487 | the streak grows by 1 and the highest streak becomes `max(highest, streak)`; the score grows by 100·level + 50·streak; perfect picks grow by 1; accuracy becomes `min(100, accuracy + 5)`; nothing else changes |
| `ColorGame.ColorPerceptionGame.HandleClosePick` | script.js:489-502 | the streak grows by 1 and the highest streak is updated; the score grows by the two non-negative amounts; accuracy becomes `max(0, accuracy − 5)`; perfect picks and everything else are unchanged |
| `ColorGame.ColorPerceptionGame.HandleWrongPick` | script.js:504-510 | missed shades grow by 1; accuracy becomes `max(0, accuracy − 10)`; the game is over and the interval cleared; score, streak and perfect picks are unchanged |
| `ColorGame.ColorPerceptionGame.GameOver` | script.js:588-590 | sets `isGameOver` and clears the interval, changing nothing else |
| `ColorGame.ColorPerceptionGame.NextLevel` | script.js:512-519 | the level grows by 1; the grid grows by 1 only when the new level is divisible by 3 and the grid is below 8, so it stays in [3, 8] and never shrinks; difficulty becomes `min(100, 5·level)`; then a new round starts |
| `ColorGame.ColorPerceptionGame.Tick` | script.js:523-531 | one second less; it times out exactly when the last second runs out, and then counts a missed shade and clears the interval |
| `ColorGame.ColorPerceptionGame.HandleTimeout` | script.js:535-540 | clears the interval and counts one missed shade; level, grid size and every other counter are unchanged |
| `Manipulation.Lower` | script.js:142 | lower-casing keeps the length, leaves no upper-case ASCII letter, maps each upper-case letter to its lower-case letter and keeps every other character |
| `Manipulation.LowerIdempotent` | script.js:142 | lower-casing twice gives the same string as lower-casing once |
| `Manipulation.Includes` | script.js:167-168 | `text.includes(word)` holds iff the word occurs at some position of the text |
| `Manipulation.IncludesAny` | script.js:174-177 | `some` over the keywords holds iff some keyword occurs in the text |
| `Manipulation.ManipulationBattle.constructor` | script.js:2-7 | willpower starts at 100, manipulation at 0, AI confidence at 95, with no patterns |
| `Manipulation.ManipulationBattle.EvaluateResponse` | script.js:138-164 | adds one label per absolute keyword in the lower-cased response; AI confidence becomes `max(0, c − 5)` for a response longer than 50 characters and `min(100, c + 3)` otherwise; the meters stay in [0, 100] |
| `Manipulation.ManipulationBattle.EvaluateCustomMessage` | script.js:166-188 | a surrender phrase gives the AI the win with the meters unchanged; a counter keyword gives willpower `min(100, w + 10)` and AI confidence `max(0, c − 15)`; any other message gives willpower `max(0, w − 5)` and manipulation `min(100, m + 10)`; the meters stay in [0, 100] |
| `Manipulation.ManipulationBattle.AiCounter` | script.js:190-205 | the AI wins, with nothing changed, exactly when willpower is 0 or manipulation is 100; otherwise willpower becomes `max(0, w − 5)` and manipulation `min(100, m + 5)` |
| `Manipulation.ManipulationBattle.ResetGame` | script.js:318-329 | the meters return to 100, 0 and 95, and the patterns are cleared |

## Left out

- Rendering and event wiring are browser I/O with nothing to verify. This covers `renderGrid`, `rgbToString`, `updateDisplay`, `setupEventListeners`, `addMessage`, `showSubliminal`, the game-over overlay and its style block, the time-warning class and `handleVictory`'s screen.
- `setTimeout` and `setInterval` belong to the host's event loop. The delays (1 s, 2 s, 3 s) and the order in which pending callbacks fire are not modelled. The host calls `NextLevel`, `StartRound`, `Tick` and `ResetGame` when they fire.
- `Math.random` is replaced by the `RoundDraws` parameters. The floating-point expression behind each draw is not modelled; only the integer range it yields is.
- `updateColorStats` and `rgbToHue` compute floating-point display statistics (an RGB difference and a hue spread), so they are left out.
- `Math.sqrt` is not computed. Classification uses the squared distance, and `ClassifyMatchesDistance` ties it to the exact root. The rounding of the double-precision root is not modelled.
- ColorGame.ColorPerceptionGame.HandleClosePick: the two amounts it adds are opaque non-negative parameters. The reason is that they are floating-point expressions. The base `floor(50·level·(1 − difference/10))` is stated in exact arithmetic by `CloseBaseScore`. The bonus `floor(streak·0.3·50)` can fall one below 15·streak in double precision.
- ColorGame.ColorPerceptionGame.HandleColorPick: the close amounts are passed in rather than computed from the distance, for the same reason.
- JavaScript numbers are doubles, so values above 2^53 lose precision. The model uses unbounded integers, and no counter gets near that bound in play.
- Manipulation.Lower: only ASCII letters are lower-cased. JavaScript's `toLowerCase` also maps non-ASCII letters, and full Unicode case mapping is not modelled.
- Manipulation.ManipulationBattle.EvaluateResponse: lengths are counted in Dafny characters, not in UTF-16 code units. The two differ only for characters outside the Basic Multilingual Plane.
- Manipulation.ManipulationBattle.EvaluateResponse: the vulnerability meter `min(100, length/100·20 + manipulationLevel)` is floating point and only displayed.
- The dialogue content is random canned text with no state beyond the fields modelled here. This covers `generateAIResponse`, `getPersonalityResponse`, the personalities, `selectTechnique`, `useResponse` and `startGame`.
- `sendCustomMessage`'s `trim` and its empty-message check are input handling before `evaluateCustomMessage`.
