# Pong game state, modelled in Dafny

This project models the game logic of a two-player browser Pong game
(`pong.js`, `script.js`). It covers the three shared records the game
mutates (`player1`, `player2`, `ball`). It also covers the update tick, the
serve (`resetBall`), the start action (`startGame`) and the keyboard
handlers that set paddle velocities.

Layout:

- `entities.dfy` (module `Entities`): the records, the constants of the
  field, the start-up state, and `Consistent`, the invariant of every
  reachable state.
- `physics.dfy` (module `Physics`): the tick as pure functions, one per
  stage in source order: paddles move and are clamped, the ball moves,
  it bounces off the top or bottom wall, a goal is scored and the ball
  served, then each paddle is tested for a hit. `Tick` composes the stages.
  Lemmas state what one tick promises.
- `input.dfy` (module `Input`): the keydown and keyup handlers as functions
  on the state, and lemmas about sequences of key events.
- `session.dfy` (module `Session`): the class `Game`, which holds the
  records as fields. Its methods update them in place in the source's
  order. Each method is proved to reach the state the pure functions give.
  `Run` replays any interleaving of ticks, key events and start presses.
  `RunConsistent` proves that every reachable state is consistent.

Modelling choices:

- Positions and velocities are `real`. The game only adds, negates,
  multiplies and divides by constants.
- The canvas size `W`, `H` is a constructor parameter. The field is
  required to be `Sane`: `H >= 80` (a paddle fits) and `W >= 50`. With
  `W >= 50` the two paddle collision bands are disjoint, and a ball served
  from the centre lies in neither band.
- `Math.random()` is a parameter `r` with `0 <= r < 1`.
- The key handlers appear twice, identically, in `script.js:4-40` and
  `pong.js:182-218`, and act on the same records. When both scripts are
  loaded, every key event runs both copies. Running a handler a second time
  changes nothing (`KeyDownIdempotent`, `KeyUpIdempotent`), so the model runs
  each event once.
- The in-place methods of `Game` do not take the invariant `Valid()` as a
  precondition, because the source's functions have none. Each one
  promises the invariant afterwards whenever it held before.

## Model

| member | source | states |
|---|---|---|
| Entities.InitialState | pong.js:17-40 | both scores and paddle velocities start at 0; both paddles are centred vertically; the ball starts at the field's centre |
| Entities.InitialStateConsistent | pong.js:17-40 | on a sane field the start-up state satisfies the game invariant |
| Physics.Clamp | pong.js:106-107 | the clamped position lies in [0, H - PADDLE_H]; a position already inside is kept; one above or below is moved to the nearer bound |
| Physics.WallBounce | pong.js:115-117 | the vertical velocity is negated exactly when the ball is within half a ball of the top or bottom wall; its size and the position are unchanged |
| Physics.ServeDy | pong.js:92 | a serve's vertical velocity lies in [-5, 5) |
| Physics.ResetBall | pong.js:86-93 | the ball is re-centred at (W/2, H/2); dx is negated, so its size is kept; dy lies in [-5, 5) |
| Physics.Score | pong.js:120-128 | a ball past the left wall adds exactly 1 to player 2's score; a ball past the right wall adds 1 to player 1's; either goal re-serves the ball; nothing else changes |
| Physics.Deflection | pong.js:137-138 | for a hit strictly inside the paddle's span the new dy lies in (-8, 8); it is 0 at the paddle's centre and negative exactly above the centre |
| Physics.Rebound | pong.js:135-138 | a hit negates dx and keeps the ball's position; inside the span the new dy is smaller than 8 in size |
| Physics.StartGame | pong.js:165-170 | both scores become 0; the ball is as resetBall leaves it; paddles are otherwise untouched |
| Physics.TickKeepsPaddlesOnField | pong.js:102-107 | after a tick both paddles lie in [0, H - PADDLE_H], whatever their position and velocity were |
| Physics.TickMovesPaddles | pong.js:100-151 | a tick never changes a paddle's x or dy; its y becomes the clamp of y + dy |
| Physics.TickKeepsBallSpeed | pong.js:110-151 | a tick keeps the size of the ball's horizontal velocity |
| Physics.TickScoring | pong.js:120-128 | the three exclusive scoring cases on the moved ball: x < 0, x > W, neither |
| Physics.TickScoresMonotone | pong.js:120-128 | no score decreases during a tick, and at most one point is awarded |
| Physics.TickGoalServes | pong.js:120-128 | after a goal the ball is at the centre with dx negated and dy in [-5, 5); no paddle hit follows on a sane field |
| Physics.TickWallBounce | pong.js:110-117 | with no goal and no paddle hit, the ball ends at its moved position, with dy negated exactly when it is at a wall |
| Physics.BandsDisjoint | pong.js:132 | on a sane field no ball position lies in both paddles' collision bands |
| Physics.TickLeftHit | pong.js:132-139 | a hit on player 1's paddle negates dx and sets dy by the deflection law, in (-8, 8); the old dy is irrelevant |
| Physics.TickRightHit | pong.js:143-150 | the same for player 2's paddle |
| Physics.EdgeTouchIsNoHit | pong.js:133 | a ball level with a paddle's top or bottom edge is not a hit |
| Physics.DeflectionSymmetric | pong.js:137-138 | hits equally far above and below the centre get opposite vertical velocities |
| Physics.DeflectionIncreasing | pong.js:137-138 | a lower hit point gives a strictly larger dy |
| Physics.TickConsistent | pong.js:100-151 | a tick preserves the invariant: paddles on the field at their own x with dy in {-7, 0, 7}; ball dx of size 5 and dy of size at most 8 |
| Physics.StartGameConsistent | pong.js:160-174 | startGame preserves the invariant |
| Input.KeyDown | script.js:4-24 | a press of a player's key sets that player's dy to -7 or 7 and changes nothing else; an unrecognised key changes nothing |
| Input.KeyUp | script.js:27-40 | releasing w/W/s/S sets player 1's dy to 0; releasing an arrow sets player 2's to 0; any other key changes nothing |
| Input.KeyDownVelocity | script.js:7-22 | w, W and ArrowUp give velocity -7; s, S and ArrowDown give +7 |
| Input.KeyDownIdempotent | script.js:4-24 | pressing the same key twice gives the same state as pressing it once |
| Input.KeyUpIdempotent | script.js:27-40 | releasing the same key twice gives the same state as releasing it once |
| Input.ReleaseEitherKeyStops | script.js:28-34 | with both w and s pressed, releasing either stops player 1's paddle |
| Input.HandleKeysTouchesOnlyVelocity | script.js:4-40 | any sequence of key events leaves positions, scores and the ball unchanged |
| Input.HandleKeysKeepsKeyVelocity | script.js:9-37 | from velocities in {-7, 0, 7}, any sequence of key events keeps both paddles' dy in {-7, 0, 7} |
| Session.RunConsistent | pong.js:100-218 | every interleaving of ticks, key events and start presses from a consistent state stays consistent |
| Session.QuietRunKeepsDx | pong.js:110-151 | through key events and ticks with no goal and no paddle hit, the ball's dx never changes |
| Session.ServesAlternate | pong.js:120-128 | a goal serves against the ball's previous direction; two goals with no paddle hit between them serve in opposite directions |
| Session.RunScoresMonotone | pong.js:120-128 | with no start press in between, no score ever decreases |
| Session.Game.constructor | pong.js:6-40 | the game starts in the start-up state, which satisfies the invariant |
| Session.Game.ResetBall | pong.js:86-93 | in place, the ball becomes the resetBall result; the paddles are untouched |
| Session.Game.Update | pong.js:100-151 | in place, the state becomes the Tick of the old state; the invariant is preserved |
| Session.Game.StepPaddles | pong.js:101-107 | both paddles move by their dy and are clamped; the ball is untouched |
| Session.Game.StepBall | pong.js:109-117 | the ball moves and bounces off the top or bottom wall; the paddles are untouched |
| Session.Game.CheckGoals | pong.js:119-128 | in place, a goal scores and serves as Score states |
| Session.Game.CheckPaddle1 | pong.js:130-140 | in place, the left paddle's collision response |
| Session.Game.CheckPaddle2 | pong.js:142-151 | in place, the right paddle's collision response |
| Session.Game.StartGame | pong.js:160-174 | in place, both scores are reset and the ball is served; the invariant is preserved |
| Session.Game.KeyDown | pong.js:182-202 | in place, the keydown handler's effect |
| Session.Game.KeyUp | pong.js:205-218 | in place, the keyup handler's effect |

## Left out

- Drawing: `drawRect`, `drawScore`, `draw` and the `draw()` calls (pong.js:47-81, 154, 167, 221). They only render the state and change nothing in it.
- The interval timer: `setInterval`, `clearInterval` and the `gameLoop` handle (pong.js:10, 162, 173). This is host scheduling. So restart replacing the running loop is not modelled, and neither is the idle/running distinction. A tick is an `Event` that any sequence may contain.
- Registering the event listeners and wiring the start button (pong.js:179, 182, 205; script.js:4, 27). Only the handler bodies are modelled, as methods taking the key string.
- `Math.random()`: replaced by the parameter `r` in [0, 1).
- IEEE-754 double rounding: positions and velocities are exact reals. NaN and infinities cannot arise.
- The canvas size comes from the HTML page, which is not part of this model. Properties that depend on it assume a sane field (H >= 80, W >= 50).
