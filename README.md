# TapTheBall in Dafny

A model of the game logic of TapTheBall, an Android tap-reaction game. A ball moves on a
canvas. The player taps it to score before a 30-second countdown runs out. The repository
has two variants, and both are modelled:

- **Compose variant** (`GameScreen.kt`, module `ComposeGame`). The session state is in class
  `GameState` (`gameActive`, `score`, `timeLeft`, `highScore`, ...). The `GameScreen`
  composable remembers the ball, the particle list and the power-up; class `GameScreen` holds
  these fields. Each `delay`-driven loop iteration is one method call:
  - `TimerStep` for the countdown;
  - `ParticleTick` for the particle updater;
  - `SpawnPowerUp`, then `ExpirePowerUp`, for the power-up spawner.
  
  The tap handler is `OnTap`. The particle frame (`map` then `filter`) and the burst are pure
  functions over `seq<Particle>`.
- **View variant** (`GameView.kt`, module `ViewGame`). Class `GameView` holds the fields that
  `startGame`, the countdown runnable, `update` and `onTouchEvent` update in place. Each
  `Handler` callback is one method call (`CountdownRunnable`, `GameLoopRun`).

Both variants run the same countdown rule, stated once in module `Timer`:
- `Tick` is one firing;
- `Ticks` is a run of firings;
- each variant's countdown method is tied to `Tick`.

The two variants go through the same sequence of states, but not at the same times. In the
Compose variant the loop checks its guard again right after the 30th decrement, with no wait,
so the game ends at 30 s. The View runnable's 31st firing, which ends the game, comes at 31 s.

Module `Geometry` holds points (`Offset`), colours and the hit test. Positions are reals. The
source tests a hit as `sqrt(dx² + dy²) <= r`. The model compares `dx² + dy²` with `r²`
instead, which is the same test for `r >= 0` (lemma `SqrtComparison`).

Every `Random` draw becomes a method parameter, constrained to the range the code draws
from:
- `nextFloat()` gives `[0, 1)`;
- `nextInt(256)` gives `[0, 256)`;
- `nextInt(-10, 10)` gives `-10..9`;
- `nextInt(60, width - 60)` gives `60..width-61`.

The view's `width` and `height` are set by layout, so they are parameters too.

Kotlin's `coerceIn` and `Random.nextInt(from, until)` throw `IllegalArgumentException` when
their range is empty. In the View variant that happens when the view is narrower or lower
than the ball needs. The model keeps this as an error path: `Status.IllegalArgument`,
together with whatever the code assigned before the throw. It is not a precondition.

The code has no `else` between the power-up check and the ball check
(`GameScreen.kt:233-248`), so one tap can collect the power-up and hit the ball and earn 11
(`TapGain`, `CollectAndHitTogether`).

## Model

| member | source | states |
|---|---|---|
| `Geometry.DistanceSquared` | app/src/main/java/com/example/taptheball/GameScreen.kt:243-246 | the squared tap distance is never negative and is zero when the tap is at the centre |
| `Geometry.SqrtComparison` | app/src/main/java/com/example/taptheball/GameScreen.kt:243-247 | for a non-negative distance and radius, `d <= r` holds exactly when `d*d <= r*r`, so the squared test is the source's `sqrt` test |
| `Geometry.WithinIsBoundaryInclusive` | app/src/main/java/com/example/taptheball/GameView.kt:116-121 | a tap at distance exactly the radius is a hit; a tap at radius + ε along an axis is a miss |
| `Timer.Tick` | app/src/main/java/com/example/taptheball/GameView.kt:61-68 | a firing with time left in an active game takes exactly one second off and keeps it active; any other firing ends the game and leaves the time alone; time never goes below zero or up |
| `Timer.TicksMonotone` | app/src/main/java/com/example/taptheball/GameScreen.kt:214-222 | over any number of firings the time left does not grow and does not go negative, and an ended game never becomes active again |
| `Timer.TicksCountDown` | app/src/main/java/com/example/taptheball/GameScreen.kt:215-218 | from `t` seconds in an active game, each of the first `t` firings takes exactly one second off and the game stays active |
| `Timer.GameEndsAfterBudget` | app/src/main/java/com/example/taptheball/GameView.kt:60-70 | the game stays active through the firing that reaches 0, and the next firing is the one that ends it |
| `Timer.EndedIsFinal` | app/src/main/java/com/example/taptheball/GameView.kt:62-67 | once the game has ended, further firings change nothing |
| `Timer.StartedGameTimeline` | app/src/main/java/com/example/taptheball/GameScreen.kt:55-59 | after `startGame`, 30 firings leave the game active at 0 seconds and the 31st ends it |
| `ComposeGame.AdvanceAll` | app/src/main/java/com/example/taptheball/GameScreen.kt:204-208 | the `map` keeps the list's length and moves every particle by its velocity with one life less |
| `ComposeGame.KeepAlive` | app/src/main/java/com/example/taptheball/GameScreen.kt:209 | the `filter` never grows the list and keeps only particles of the list with life > 0 |
| `ComposeGame.StepParticles` | app/src/main/java/com/example/taptheball/GameScreen.kt:204-209 | a particle frame never grows the list, and every survivor has life > 0 |
| `ComposeGame.StepParticlesFromOld` | app/src/main/java/com/example/taptheball/GameScreen.kt:204-209 | every particle of the next frame is some particle of the old list advanced one frame: a frame creates no particle |
| `ComposeGame.KeepAliveAppend` | app/src/main/java/com/example/taptheball/GameScreen.kt:209 | filtering a concatenation is concatenating the filtered parts: the filter looks at each particle on its own and keeps their order |
| `ComposeGame.StepParticlesAppend` | app/src/main/java/com/example/taptheball/GameScreen.kt:204-209 | a frame of a concatenation is the concatenation of the frames of its parts, so relative order is preserved |
| `ComposeGame.StepParticlesSingle` | app/src/main/java/com/example/taptheball/GameScreen.kt:204-209 | a particle survives a frame exactly when its life was above 1, and then it has moved by its velocity with one life less |
| `ComposeGame.SurvivorKept` | app/src/main/java/com/example/taptheball/GameScreen.kt:204-209 | every particle with life above 1 is in the next frame, advanced, between the frames of the particles before it and after it |
| `ComposeGame.ExpiredDropped` | app/src/main/java/com/example/taptheball/GameScreen.kt:204-209 | every particle with life at most 1 is gone from the next frame and the others are framed as if it were not there |
| `ComposeGame.StepParticlesKeepsInvariant` | app/src/main/java/com/example/taptheball/GameScreen.kt:204-209 | a frame keeps every particle's life in 1..60 and every particle's colour a valid RGB colour |
| `ComposeGame.Burst` | app/src/main/java/com/example/taptheball/GameScreen.kt:249-258 | a burst has exactly 16 particles; each sits at the ball position with the ball's colour, life 60 and its own drawn velocity |
| `ComposeGame.BurstLifetime` | app/src/main/java/com/example/taptheball/GameScreen.kt:200-210 | `n < 60` frames after a burst all 16 particles remain, each `n` velocity steps from the ball with life `60 - n`; after 60 frames the list is empty |
| `ComposeGame.TapGain` | app/src/main/java/com/example/taptheball/GameScreen.kt:233-248 | a tap earns 0, 1, 10 or 11 points and never a negative amount; it earns at least 10 exactly when the power-up is collected and an odd amount exactly when the ball is hit |
| `ComposeGame.CollectAndHitTogether` | app/src/main/java/com/example/taptheball/GameScreen.kt:233-248 | a tap at a power-up lying on the ball both collects it and hits the ball, for 11 points |
| `ComposeGame.SpawnPosition` | app/src/main/java/com/example/taptheball/GameScreen.kt:189-192 | a spawned power-up lies in [0,1080)×[0,1920) |
| `ComposeGame.GameState.constructor` | app/src/main/java/com/example/taptheball/GameScreen.kt:45-53 | a new session is not started or active, has difficulty 1, score 0, 30 seconds and the stored high score |
| `ComposeGame.GameState.StartGame` | app/src/main/java/com/example/taptheball/GameScreen.kt:55-59 | the game becomes active with score 0 and 30 seconds; `difficulty`, `gameStarted` and `highScore` are unchanged |
| `ComposeGame.GameState.EndGame` | app/src/main/java/com/example/taptheball/GameScreen.kt:61-65 | the game becomes inactive and `highScore` becomes what the score store reports; score and time are unchanged |
| `ComposeGame.GameScreen.constructor` | app/src/main/java/com/example/taptheball/GameScreen.kt:134-140 | the remembered state starts as a red ball at the origin, no particles and no power-up |
| `ComposeGame.GameScreen.InitializeBall` | app/src/main/java/com/example/taptheball/GameScreen.kt:143-146 | the ball is placed at (60, 60) with velocity (2, 2); nothing else changes |
| `ComposeGame.GameScreen.TimerStep` | app/src/main/java/com/example/taptheball/GameScreen.kt:214-222 | one timer-loop iteration moves the session's clock by `Timer.Tick`; the loop continues exactly when time was left and the game active; leaving the loop with the game active calls `endGame`; the score is unchanged |
| `ComposeGame.GameScreen.RunTimer` | app/src/main/java/com/example/taptheball/GameScreen.kt:214-222 | run to its end, the timer leaves the game inactive with an unchanged score; an active game ends with 0 seconds left and the store's high score; `gameStarted` and `difficulty` are unchanged |
| `ComposeGame.GameScreen.ParticleTick` | app/src/main/java/com/example/taptheball/GameScreen.kt:201-210 | the updater runs only while the game is active; then one iteration replaces the list by `StepParticles` of it and keeps every particle's life in 1..60; an ended game's list is left alone; the ball and the power-up are unchanged |
| `ComposeGame.GameScreen.SpawnPowerUp` | app/src/main/java/com/example/taptheball/GameScreen.kt:187-194 | the spawner runs only while the game is active; then a power-up is placed and shown only when none is showing, and its position is in the canvas; otherwise nothing changes; the ball and the particles are unchanged |
| `ComposeGame.GameScreen.ExpirePowerUp` | app/src/main/java/com/example/taptheball/GameScreen.kt:195-196 | the spawner runs only while the game is active; then after the visible phase the power-up is hidden whether or not it was collected; the ball and the particles are unchanged |
| `ComposeGame.GameScreen.OnTap` | app/src/main/java/com/example/taptheball/GameScreen.kt:230-264 | an inactive game ignores taps. In an active game the score rises by exactly `TapGain` of the two checks. Collection hides the power-up. A hit replaces the particles with the burst at the ball in its pre-hit colour, then recolours the ball. Time, high score, `gameStarted`, `difficulty`, ball position, ball velocity and power-up position are unchanged |
| `ViewGame.CoerceIn` | app/src/main/java/com/example/taptheball/GameView.kt:82-83 | on a non-empty range the result lies in the range, equals the input when it is inside, and is the nearer end otherwise |
| `ViewGame.CoerceInIsNearest` | app/src/main/java/com/example/taptheball/GameView.kt:82-83 | no point of the range is closer to the input than the clamped value |
| `ViewGame.WanderStep` | app/src/main/java/com/example/taptheball/GameView.kt:78-83 | an axis after `update` lies in [60, extent − 60]; a ball already in range moves by at most its drawn step, between −10 and 9 |
| `ViewGame.GameView.constructor` | app/src/main/java/com/example/taptheball/GameView.kt:32-52 | a new view has a red ball at (100, 100), score 0, 30 seconds and an active game |
| `ViewGame.GameView.StartGame` | app/src/main/java/com/example/taptheball/GameView.kt:54-57 | score becomes 0, time 30 and the game active; the ball is unchanged |
| `ViewGame.GameView.CountdownRunnable` | app/src/main/java/com/example/taptheball/GameView.kt:60-70 | a firing moves the clock by `Timer.Tick` and re-posts itself exactly when time was left and the game active; the score and the ball are unchanged |
| `ViewGame.GameView.Update` | app/src/main/java/com/example/taptheball/GameView.kt:76-84 | completes exactly when both clamp ranges are non-empty, and then each axis is `WanderStep` of the old one, in [60, extent − 60]; on a throw the already-made assignments remain |
| `ViewGame.GameView.GameLoopRun` | app/src/main/java/com/example/taptheball/GameView.kt:40-47 | the frame loop updates the ball only while the game is active and re-posts only after an update that completed |
| `ViewGame.GameView.OnTouchEvent` | app/src/main/java/com/example/taptheball/GameView.kt:110-137 | only a press on the ball (boundary included) in an active game changes anything. It adds exactly 1 to the score and moves the ball to the drawn integer spot in [60, width − 60) × [60, height − 60). It recolours the ball, unless a respawn draw throws on an empty range. Any other event changes nothing. An event that completes is reported as handled |

## Left out

- Ball physics of the Compose variant (`GameScreen.kt:156-182`: move by velocity, damped bounce, gravity, random nudge) is not part of this model. It is floating-point numerics and keeps no bound that could be proved: the position is never clamped. The model's `OnTap` holds for whatever ball position the fields hold.
- Rendering is not part of this model: the `Canvas` block, the `drawText` helper, `Color.toHex` and `GameView.onDraw`. So are `invalidate` and `performClick`.
- `StartScreen` and the difficulty radio buttons are not part of this model. `difficulty` is never read by the game logic, and `gameStarted` is set only by the start button.
- `MainActivity.kt` is not part of this model: activity setup, and a third near-copy of the game whose countdown and scoring repeat the ones above.
- Scheduling is not part of this model: `LaunchedEffect`, `delay`, `Handler.post`/`postDelayed` and `removeCallbacksAndMessages` on detach. Each loop iteration or callback is a method, and the order of calls is left to the caller.
- `ComposeGame.GameScreen.TimerStep` checks the loop guard and decrements in one step. In the source a one-second `delay` lies between the check and the decrement. `RunTimer` runs the loop with no tap or other loop in between.
- `ComposeGame.GameState.EndGame`: does not state that the high score becomes the larger of the old high score and the final score. The source of `ScoreManager` is not part of this model, so the value its `getHighScore` reports after `saveHighScore` is a parameter.
- Kotlin's `score` is a 32-bit `Int`, and `score++` and `score += 10` (`GameScreen.kt:238, 248`, `GameView.kt:122`) would wrap past 2^31 − 1. The model's `score` is an unbounded `int`, so `Valid`'s `score >= 0` does not capture that wrap-around. It cannot occur in a 30-second session: each tap adds at most 11.
- `playTapSound` does nothing and is not modelled.
- IEEE float rounding in `sqrt`, `pow`, the `Float` positions and the `Int`-to-`Float` conversions is not modelled: positions are reals.
- `Random` is not modelled: every draw is a parameter bounded to its range.
