# Snake game core (ular.js) in Dafny

This project models the simulation core of a grid snake game. Each timer
tick moves the snake's head one cell in the current direction. The wall mode
then decides what happens at the edge: in wrap mode the head re-enters on the
opposite side, and in solid mode the game ends. Landing on the food grows the
snake by one segment, raises the score by one, draws new food and updates the
tempo. Any other move shifts the snake by one cell. Landing on the snake's own
body ends the game. Direction changes follow an axis lock. The tick interval
follows a capped linear tempo curve. New food is drawn with at most 1000
random samples.

Two modules:

- `SnakeRules` (rules.dfy) holds the pure rules: the wall policy
  (`Resolve`), the axis lock (`Steer`), the tempo curve (`TempoForScore`),
  self-collision (`CheckCollision`), the food spawner as a recursive
  specification (`SpawnFrom`) and the level table (`LevelConfig`), together
  with the lemmas about them.
- `SnakeGame` (game.dfy) holds the class `Engine`. Its fields are the
  program's module-level variables: `grid`, `snake`, `direction`, `food`,
  `score`, `highScore`, `speed`, `tempoStart`, `tempoMax`, `tempoStep` and
  the wall mode. Its methods update those fields in place, as the program's
  functions do.

Three things the program leaves implicit are explicit here:

- **The interval timer** is `Timer = NoTimer | Scheduled(period, running)`.
  `NoTimer` is the null handle before the first `setInterval`. Clearing the
  interval stops it but leaves the handle set, so a cleared timer is
  `Scheduled(p, false)`.
- **Game over** is `phase == Over(WallCollision)` or
  `phase == Over(SelfCollision)`. In the program, game over is only the
  cleared timer and the overlay. `Valid()` ties the phase to the timer: the
  timer runs exactly while the phase is `Playing`.
- **Randomness** is injected. `Math.floor(Math.random() * n)` becomes a
  sequence of sample cells, one per draw, each inside the grid.

`Valid()` also keeps `|snake| == score + 1` and says that the direction is
(0,0) or a unit vector on one axis.

Where the code departs from the usual snake rules, the model follows the code:

- A tick does not skip when the direction is (0,0). The head stays where it
  is, and a one-segment snake that is not on the food is left unchanged.
- The wall mode can be changed by its selector during a run (`SetWallMode`).
  The next tick reads the new mode.
- Two direction keys between ticks can reverse the snake. The axis lock
  compares each key with the direction already changed by the previous key,
  so moving right, Up then Left gives left (`SteerTwoKeysReverse`); with a
  body behind the head the next tick ends the game.
- There is no separate idle state. A reset starts the timer at once, and a
  direction of (0,0) keeps the snake in place until the first key.
- After a reset the speed is `min(tempoMax, tempoStart)`. This equals
  `tempoStart` for every level because `tempoStart <= tempoMax`, and
  `ConfigOk()` keeps that relation.

## Model

| member | source | states |
|---|---|---|
| `SnakeRules.Resolve` | ular.js:222-237 | Solid mode gives a head exactly when the raw head is inside the grid, and gives it unchanged. Wrap mode always gives a head, and that head is inside any non-empty grid. An in-grid raw head is never moved or blocked in either mode. |
| `SnakeRules.WrapAxisIsModular` | ular.js:226-229 | For a coordinate at most one cell outside [0, n), the two independent reset tests equal Euclidean `v % n`. |
| `SnakeRules.WrapIsModular` | ular.js:222-229 | A unit step from an in-grid head wraps to `((x+dx) mod cols, (y+dy) mod rows)`. |
| `SnakeRules.WrapIsNotModularForLongSteps` | ular.js:226-229 | The reset tests are correct only for unit steps: a step of two from column 0 lands on column 19 of a 20-column grid, where modular arithmetic gives 18. Such a raw head cannot occur while the direction is a unit step. |
| `SnakeRules.Steer` | ular.js:158-163 | The axis lock. The new direction is either the old one or the key's unit vector, and a valid direction stays valid. |
| `SnakeRules.SteerFromRest` | ular.js:158-163 | From (0,0) every key is accepted. |
| `SnakeRules.SteerAxisLock` | ular.js:71-79 | While moving, a key on the current axis (a repeat or a reversal) leaves the direction unchanged, and a key on the other axis sets it. |
| `SnakeRules.SteerNeverReverses` | ular.js:71-79 | While moving, a single key never turns the direction into its own opposite. |
| `SnakeRules.SteerTwoKeysReverse` | ular.js:158-163 | Two keys between ticks can reverse the direction: from right, Up then Left gives left. |
| `SnakeRules.SteerAllKeepsDirOk` | ular.js:71-79 | After any sequence of keys, the direction is still (0,0) or a unit vector on one axis. |
| `SnakeRules.TempoForScore` | ular.js:186-189 | The interval is `min(tempoMax, tempoStart + score * tempoStep)`: it is at most both values and equal to one of them. |
| `SnakeRules.TempoMonotone` | ular.js:186-189 | With a non-negative step, a higher score never gives a shorter interval. |
| `SnakeRules.TempoClassicExamples` | ular.js:186-189 | With the classic settings the interval is 80, 90, 220 and 220 at scores 0, 1, 14 and 50. |
| `SnakeRules.CheckCollision` | ular.js:321-323 | True exactly when the head equals a segment at index 1 or later, so a snake of at most one segment never collides with itself. |
| `SnakeRules.CollisionScenario` | ular.js:321-323 | `[(5,5),(4,5),(3,5)]` shifted right (head `(6,5)` prepended, tail dropped) is not hit by that head. A head equal to a later segment is a hit. |
| `SnakeRules.SpawnFrom` | ular.js:311-319 | From draw t, the spawner makes between t+1 and 1000 draws and keeps the last sample. If it stopped before 1000 draws, the food is off the snake. |
| `SnakeRules.SpawnSkipsOnlyOccupied` | ular.js:314-318 | Every draw before the last one landed on the snake, so the spawner keeps the first free sample. |
| `SnakeRules.SpawnMayLandOnSnake` | ular.js:318 | When every sample is on the snake, the spawner gives up after 1000 draws and leaves the food on the snake. |
| `SnakeRules.LevelConfig` | ular.js:106-127 | The table has exactly the levels classic, dense and wide. Each has a non-empty grid and a start interval no larger than its maximum. |
| `SnakeGame.Engine.constructor` | ular.js:37-43 | Start-up loads the saved high score, selects the classic level and resets. The result is a valid engine with snake `[(10,10)]`, score 0 and the timer running at 80. |
| `SnakeGame.Engine.SetLevel` | ular.js:106-127 | A known level sets the grid, speed and tempo fields from the table. An unknown name changes nothing. The engine invariant is preserved. |
| `SnakeGame.Engine.SetWallMode` | ular.js:58-63 | The wall mode is replaced and nothing else changes. |
| `SnakeGame.Engine.ApplyDirection` | ular.js:158-163 | The direction becomes `Steer(old direction, key)`. From rest this is the key's vector. The invariant is preserved. |
| `SnakeGame.Engine.ClearTimer` | ular.js:298 | A set timer is stopped with its period kept. No timer stays no timer. |
| `SnakeGame.Engine.UpdateSpeed` | ular.js:191-204 | The speed becomes the tempo for the current score. The timer is restarted, at that speed, exactly when there was no timer, the speed changed, or a restart was forced. Otherwise the timer is left alone. |
| `SnakeGame.Engine.SpawnFood` | ular.js:311-319 | The food and the number of draws are those of `SpawnFrom`: at most 1000 draws, the food inside the grid, and off the snake when fewer than 1000 draws were made. |
| `SnakeGame.Engine.Reset` | ular.js:168-184 | Sets the snake to the single cell `(cols/2, rows/2)` (floor division), the score to 0 and the food to a fresh spawn. The timer restarts at `tempoStart`. The direction is (0,0), or (1,0) with auto-start. Grid, wall mode, high score and tempo settings are unchanged. |
| `SnakeGame.Engine.ResolveHead` | ular.js:221-237 | The head computed for this tick, with the independent wrap tests or the solid bounds test, is `Resolve` of the raw head. |
| `SnakeGame.Engine.EatFood` | ular.js:240-251 | The snake becomes `[head] + old snake` and the score grows by 1. The high score becomes the larger of the two scores. The food is a fresh spawn inside the grid. The speed is the tempo for the new score, and the timer restarts only if the speed changed. |
| `SnakeGame.Engine.Tick` | ular.js:221-299 | A solid-wall hit ends the game (`Over(WallCollision)`, timer stopped) with snake, food, score, high score and speed unchanged. A move that misses the food gives `[head] + old snake minus its tail`, with the length, score and food unchanged. A move onto the food grows the snake by exactly 1 and the score by exactly 1, and leaves the high score at least the score. After any move the head is inside the grid, and the game ends (`Over(SelfCollision)`) exactly when the head hits the body. An unstarted one-segment snake that is off the food stays put. The invariant is preserved. |

## Left out

- Canvas drawing is left out: the background, food, body colours and eye placement (ular.js:206-219, 257-292). It does not affect the game state, and the eye offsets use floating-point factors.
- DOM wiring is left out: element lookups, buttons, the overlay, the level selector's change handler and resize handling. The level and wall-mode handlers are modelled only through `SetLevel`, `Reset` and `SetWallMode`.
- Non-arrow keys and d-pad values other than the four directions are left out. The source ignores them, so `Key` has only the four directions.
- Touch swipe classification is left out (ular.js:84-103). It works on pixel coordinates; only the resulting direction matters, and `Steer` models that.
- `updateCanvasScale` is left out: window size and floating-point scaling.
- High-score persistence in `localStorage` is left out: the initial value is a constructor parameter, and the reset-high-score button is not modelled. `parseInt` of a corrupt stored value is not modelled either.
- `setInterval`, `clearInterval` and `Math.random` are replaced by the abstract `Timer` and the injected sample sequence. Nothing models the timer firing: `Tick` may be called while the phase is `Playing`.
- `Math.round` in `updateSpeed` is left out. Every tempo value is an integer, so rounding changes nothing.
- `canvas.width` and `canvas.height` (set by `setLevel`) are left out: they belong to drawing.
