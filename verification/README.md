# Reflex shooting game and fireworks: a Dafny model

This project models the browser reflex game of `assets/js/game.js` and `game.js`.
The player clicks a target that jumps around a game area. Each hit scores a point.
Every tenth point raises the level. A level-up makes the target faster and smaller
and adds a little time. The game ends when the 30-second clock runs out or the
five allowed misses are used up.

`game.js` is the older copy of the same game. From the game state on, its line N
is line N+1 of `assets/js/game.js`. Besides the fireworks canvas and the final log line,
which only `assets/js/game.js` has, two differences remain: the colour of the timer
text above ten seconds (`updateTimer`), and the `@keyframes shake` style block that
only `game.js` injects (lines 461-470). The table below
cites the formulas of `levelUp`, `handleTargetHit` and the end-to-end scenarios in
`game.js`, and the session's methods in `assets/js/game.js`. The same lines exist
in the other file, one line away. Of the fireworks canvas, the model keeps the bookkeeping of one firework: its bounded trail,
the explosion into 50 to 100 particles, their fading and removal, and `isDone`.

Modules:

- `Geometry`: the clamped random placement of `moveTarget`, over `real` pixel positions.
- `Difficulty`: the game counters as a value (`Stats`) and the rules of a hit and a level-up.
  It also defines the level curve `OnCurve`: level = score / 10 + 1, maxLevel = level, and
  the speed and size of that level. Every game stays on this curve.
- `Session`: the class `GameSession`. Its fields are the module-level variables of the script.
  Its methods are the script's functions and its two interval callbacks.
  The constructor, `StartGame`, `HandleTargetHit` and `LevelUp` state their new counters through
  the `Difficulty` functions `Fresh`, `Hit` and `LevelUp`. `CountdownTick` and `HandleMissedClick`
  state their one-step decrement of the time or the misses directly.
  The invariant `Valid()` says five things:
  - the counters stay on the curve;
  - only a running game can be paused;
  - both intervals exist exactly while a game runs, and the move interval runs at the current speed;
  - a running game has time and misses left;
  - a running game does not show the game-over screen (`gameOver` is `None`).
- `Fireworks`: the trail queue, the particle batch and fade, and the class `Firework`.
- `Scenarios`: whole games played through the class's contracts.
- `Wrappers`: `Option`.
- `Arith`: `Math.max` and `Math.min` on integers and on positions.

Timers are not scheduled. `CountdownTick` and `AutoMoveTick` are the interval callbacks, and the
host calls them. Whether each interval is set, and the period of the move interval, are fields.
Random numbers, layout sizes and the canvas height are parameters.

Two facts the proofs bring out:

- `maxLevel` always equals `level`. The level never drops during a game, and `startGame` resets both.
- The level-up rule `missesRemaining = Math.max(3, missesRemaining - 1)` is a floor, not only a reduction.
  Take a player with one or two misses left who reaches level 6, 9, 12, ...: they get back up to three
  (`Difficulty.MissFloorRaisesLowCounts`). The model keeps this behaviour as written.

The state machine follows the code's two flags `gameActive` and `isPaused`, not a four-valued phase.
"Ended" and "not started yet" have the same flags (neither active nor paused). The field `gameOver`
tells them apart: it is set once a game ends, and only `startGame` clears it.
While a game runs, the model proves that the time left and the misses left are at least 1.

## Model

| member | source | states |
|---|---|---|
| Geometry.Clamp | assets/js/game.js:223-224 | The clamped coordinate lies in [0, max(0, room)]. A draw inside the room is kept, and with no room the result is 0. |
| Geometry.Coordinate | assets/js/game.js:219-224 | The coordinate drawn for a target in an area lies in [0, max(0, area - target)], and is 0 when the target is at least as wide as the area. |
| Geometry.Place | assets/js/game.js:216-228 | Both coordinates of the placed target lie in the area's free room, so the target never leaves the area. |
| Geometry.DrawInsideRoomIsKept | assets/js/game.js:223 | When the target fits, a `Math.random()` draw in [0, 1) is never altered by the clamp. |
| Difficulty.Fresh | game.js:71-79 | The reset values (0, 1, 30, 5, 2000, 70, 1) lie on the level curve. |
| Difficulty.NextSpeed | game.js:238 | The new speed is at least 400 ms. From 400 ms or more it is at most 200 ms faster and never slower. |
| Difficulty.NextSize | game.js:241 | The new size is at least 30 px. From 30 px or more it is at most 5 px smaller and never larger. |
| Difficulty.BonusTime | game.js:246 | The bonus is at least 2 s, at most 6 s for a non-negative level, and exactly 2 s from level 12 on. |
| Difficulty.BonusNeverGrows | game.js:245-246 | Less bonus time at higher levels: for levels a <= b the bonus at b is at most the bonus at a. |
| Difficulty.ReducedMisses | game.js:251-252 | Off levels 6, 9, 12, ... the misses are unchanged. On them the result is at least 3 and at most one below the old count; with 4 or more left exactly one is taken away. From 3 or more it never rises. |
| Difficulty.MissFloorRaisesLowCounts | game.js:251-252 | On levels 6, 9, 12, ... a count under 3 is raised to 3. |
| Difficulty.LevelUp | game.js:233-252 | A level-up keeps the score and raises the level by one, and maxLevel becomes max(maxLevel, level). Speed and size become NextSpeed and NextSize of the old ones (so they keep their floors). Time grows by BonusTime of the new level, 2 to 6 s. Misses follow ReducedMisses of the new level. |
| Difficulty.Hit | game.js:143-155 | A hit adds exactly one point. The level rises by one exactly when the new score is a multiple of 10. Otherwise nothing but the score changes. |
| Difficulty.FloorsSurviveLevelUps | game.js:238-252 | After any number (at least one) of level-ups: speed is at least 400, size is at least 30, and the level rose by that number. Misses that were at least 3 stay at least 3. |
| Difficulty.HitStaysOnCurve | game.js:143-155 | A hit keeps level = score / 10 + 1, maxLevel = level, and speed and size those of the level. |
| Difficulty.HitsFromFresh | game.js:232-252 | After n hits from a fresh game: score n, level n / 10 + 1, speed max(400, 2000 - 200 (n / 10)), size max(30, 70 - 5 (n / 10)). Misses are 5, then 4 from 50 points, then 3 from 80. |
| Session.GameSession.constructor | assets/js/game.js:20-31 | The load-time state: counters at their start values, no game running, and high score = stored value or 0 when absent. |
| Session.GameSession.ToggleGame | assets/js/game.js:59-65 | Flips the container. Opening it starts a game only when none runs. Otherwise nothing else changes. |
| Session.GameSession.StartGame | assets/js/game.js:70-104 | Counters reset to the start values. The game runs unpaused with the game-over screen hidden. The target is placed, and both intervals run (move interval 2000 ms). |
| Session.GameSession.StartGameLoop | assets/js/game.js:109-132 | Both intervals are (re)set, the move interval at the current targetSpeed. |
| Session.GameSession.CountdownTick | assets/js/game.js:115-124 | Paused or stopped: nothing changes. Running: time drops by 1. The game goes on exactly while time is above 0, else it ends with "Time's up!" and the high score becomes max(old, score). |
| Session.GameSession.AutoMoveTick | assets/js/game.js:127-131 | Re-places the target only while a game runs unpaused. |
| Session.GameSession.HandleTargetHit | assets/js/game.js:137-166 | Stopped or paused: counters unchanged. Otherwise the counters become Hit(old counters). The session invariant is kept. |
| Session.GameSession.HandleMissedClick | assets/js/game.js:171-194 | Stopped, paused, or a click on the target itself: nothing changes. Otherwise misses drop by 1. The game goes on exactly while misses are above 0, else it ends with "Too many misses!". |
| Session.GameSession.MoveTarget | assets/js/game.js:216-228 | While running unpaused the target goes to Place(layout, draws), else it stays. |
| Session.GameSession.LevelUp | assets/js/game.js:233-262 | The counters become Difficulty.LevelUp(old counters), and the intervals restart at the new speed. |
| Session.GameSession.TogglePause | assets/js/game.js:297-309 | Flips the pause flag of a running game. It is a no-op when no game runs. |
| Session.GameSession.EndGame | assets/js/game.js:314-338 | Clears running and paused, and clears both intervals. The high score becomes max(old high score, score). The game-over screen shows the reason, score and maxLevel. |
| Fireworks.Pushed | assets/js/game.js:501-504 | Pushing onto a trail of at most 10 keeps it at most 10. Under 10 the point is appended. Otherwise the oldest entry is dropped. |
| Fireworks.TrailIsLastTen | assets/js/game.js:494-504 | The trail after any run of positions is exactly the last min(n, 10) positions, in order. |
| Fireworks.Survivors | assets/js/game.js:515-516 | One frame never adds particles. Every particle kept is still visible (alpha > 0). Every old particle still visible after its fade is kept. |
| Fireworks.SurvivorsComeFromFrame | assets/js/game.js:515-516 | Every particle kept is the faded form of a particle of the frame before. |
| Fireworks.SurvivorsOfOne | assets/js/game.js:515-516 | A frame keeps a single particle, faded, exactly when its faded opacity is above 0, and otherwise drops it. |
| Fireworks.SurvivorsOfLast | assets/js/game.js:513-517 | Adding one particle at the end adds its survivor (if any) at the end of the result. |
| Fireworks.SurvivorsInOrder | assets/js/game.js:513-517 | The survivors of a concatenation are the survivors of its parts, concatenated. With SurvivorsOfOne this pins the result: each visible particle is kept once per occurrence, in its original order. |
| Fireworks.AllVisibleAllKept | assets/js/game.js:515-516 | When every particle stays visible after its fade, the frame keeps all of them: same count, the i-th survivor is the faded i-th particle. |
| Fireworks.SurvivorsFade | assets/js/game.js:576-585 | If every particle has decay at least d and alpha at most a, every survivor has decay at least d and alpha at most a - d. |
| Fireworks.EmptiedOnlyWhenAllDark | assets/js/game.js:515-516 | A frame leaves no particles only when every particle faded to alpha at most 0 in it, so `isDone` never cuts a visible particle short. |
| Fireworks.NoneSurvive | assets/js/game.js:515-516 | Particles that lose all their opacity in one frame are all removed. |
| Fireworks.BurnsOut | assets/js/game.js:515-516 | Particles at most k decays bright are all gone after k frames. |
| Fireworks.BurnsOutWithin67Frames | assets/js/game.js:569-570 | Particles with alpha at most 1 and decay at least 0.015 are all gone after 67 frames, so an exploded firework finishes. |
| Fireworks.Spark | assets/js/game.js:569-570 | A fresh particle has alpha 1 and decay in [0.015, 0.025). |
| Fireworks.Batch | assets/js/game.js:524-526 | An explosion of n particles holds n particles, the i-th made from the i-th draw. |
| Fireworks.BatchIsFresh | assets/js/game.js:524-526 | Every particle of an explosion has alpha 1 and decay in [0.015, 0.025). |
| Fireworks.BatchSize | assets/js/game.js:522-524 | The loop `i < count` runs the least natural number of times not below count, and 0 times for count at most 0. |
| Fireworks.ExplosionSize | assets/js/game.js:522-526 | An explosion makes between 50 and 100 particles. |
| Fireworks.Firework.constructor | assets/js/game.js:483-496 | A new rocket starts at the canvas bottom aiming at y, with speed 2 + 3 draw, no trail, not exploded and no particles. |
| Fireworks.Firework.IsDone | assets/js/game.js:551-553 | Done implies exploded. Under the invariant, done holds exactly when the firework exploded and no particle is still visible. |
| Fireworks.Firework.Update | assets/js/game.js:498-518 | Before the explosion: the position is pushed onto the trail and y drops by speed. The firework explodes exactly when y reaches targetY, and then holds a fresh batch. After the explosion: particles become Survivors. The invariant is kept. |
| Fireworks.Firework.Explode | assets/js/game.js:520-527 | Marks the firework exploded and appends exactly BatchSize(50 + 50 draw) fresh particles. |
| Fireworks.Firework.FadeParticles | assets/js/game.js:513-517 | The particles become Survivors of the old particles. |
| Scenarios.HitRun | game.js:136-165 | After n hits a session's counters equal the closed form of HitsFromFresh (10 hits: score 10, level 2, 1800 ms, 65 px). |
| Scenarios.FiveMisses | game.js:170-193 | Five misses end a fresh game with "Too many misses!", score 0 and level 1. |
| Scenarios.ClockRunsOut | game.js:114-123 | Thirty countdown ticks end a fresh game with "Time's up!". |
| Scenarios.NewHighScore | game.js:325-330 | A game ending at 12 points over a stored 7 leaves a high score of 12. |
| Scenarios.PauseSwallowsTicks | game.js:114-123 | Any number of ticks while paused, then resume: the time left is unchanged. |

## Left out

- DOM output: score/timer/level/miss texts and colours, target `style`/`classList`, button labels, the game-over overlay markup, `createParticles`, `showMissIndicator`, `showLevelUpMessage`, the shake animation and the injected CSS keyframes in `game.js`. They only display values the model holds.
- Timing: `setInterval`, `setTimeout`, `clearInterval` and `requestAnimationFrame`. The model records whether each interval is set and the move interval's period. Wall-clock phase is not modelled, including the countdown restarting its second on every level-up.
- Session.GameSession.HandleTargetHit: the target's 200 ms invisible phase is not modelled. The re-placement at its end is a later `MoveTarget` call.
- localStorage: the stored high score arrives as an optional integer. `getItem` returns a string and `score > highScore` compares it numerically. Non-numeric stored text and the write-back are not modelled.
- The keyboard shortcuts (Space, R, Escape), the `mousedown` guard and the `resize` handler are event wiring onto the modelled operations. The resize handler's `parseInt` of style strings is not modelled.
- Geometry.Place: the arithmetic is exact over `real`, not IEEE doubles. Layout sizes are integers as `clientWidth` gives them.
- Fireworks: the rocket's and particles' motion (velocity, gravity, resistance, trigonometry in `explode`), colours, sizes and drawing are floating-point physics and rendering. A particle is reduced to its opacity and decay. Opacity and decay arithmetic is exact over `real`, not IEEE doubles; the 67-frame bound of `BurnsOutWithin67Frames` holds with a margin of 0.005 in opacity, far above double rounding. Particles are values; the source's in-place object update is not modelled, and no aliasing is possible since each particle belongs to one firework.
- The fireworks field loop (`animateFireworks`: the 800 ms auto-launch, updating every firework, culling those for which `isDone` holds) and the click-to-launch listener are not modelled. They iterate over heap objects under the animation scheduler.
- The canvas resize and the script's final log line.
