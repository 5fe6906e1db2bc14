/** The entity model of the Pong game: the two paddles, the ball, the
    constants of the playing field and the invariant every reachable game
    state keeps. Positions and velocities are `real`: the game only adds,
    negates, multiplies and divides by constants. */
module Entities {

  /** Paddle geometry (pong.js:13-14). */
  const PADDLE_W: real := 10.0
  const PADDLE_H: real := 80.0
  /** Distance of each paddle from its side wall (pong.js:18, 25). */
  const PADDLE_MARGIN: real := 10.0
  /** Side of the square ball; the ball's (x, y) is its centre (pong.js:32). */
  const BALL_SIZE: real := 10.0
  /** Horizontal speed of the ball at program start (pong.js:38). */
  const BALL_SPEED: real := 5.0
  /** Paddle speed set by a key press (script.js:9-21). */
  const KEY_SPEED: real := 7.0
  /** Vertical speed of a ball struck at the very edge of a paddle (pong.js:138, 149). */
  const DEFLECTION: real := 8.0
  /** A serve draws the vertical speed from [-SERVE_SPREAD, SERVE_SPREAD) (pong.js:92). */
  const SERVE_SPREAD: real := 5.0

  /** The narrowest field whose two paddle collision bands do not overlap:
      the left band ends at PADDLE_MARGIN + PADDLE_W + BALL_SIZE / 2 and the
      right band starts that far from the right wall. */
  const MIN_WIDTH: real := 2.0 * (PADDLE_MARGIN + PADDLE_W + BALL_SIZE / 2.0)

  /** A player: the paddle's position, its vertical velocity and the score. */
  datatype Paddle = Paddle(x: real, y: real, score: nat, dy: real)

  /** The ball: centre position and velocity. */
  datatype Ball = Ball(x: real, y: real, dx: real, dy: real)

  /** Everything an update tick and the key handlers read and write. */
  datatype State = State(player1: Paddle, player2: Paddle, ball: Ball)

  /** The canvas size, fixed for the lifetime of the game (pong.js:6-7). */
  datatype Field = Field(w: real, h: real)

  /** A field on which a paddle fits vertically and the collision bands of
      the two paddles are disjoint. */
  predicate Sane(f: Field)
  {
    f.h >= PADDLE_H && f.w >= MIN_WIDTH
  }

  function Abs(v: real): real
  {
    if v < 0.0 then -v else v
  }

  /** The x position of the left and the right paddle (pong.js:18, 25). */
  function LeftX(f: Field): real
  {
    PADDLE_MARGIN
  }

  function RightX(f: Field): real
  {
    f.w - PADDLE_W - PADDLE_MARGIN
  }

  /** The state the program starts in (pong.js:17-40). */
  function InitialState(f: Field): (s: State)
    ensures s.player1.score == 0 && s.player2.score == 0
    ensures s.player1.dy == 0.0 && s.player2.dy == 0.0
    ensures s.player1.y == s.player2.y && s.player1.y + PADDLE_H / 2.0 == f.h / 2.0
    ensures s.ball.x == f.w / 2.0 && s.ball.y == f.h / 2.0
  {
    var centred := f.h / 2.0 - PADDLE_H / 2.0;
    State(Paddle(LeftX(f), centred, 0, 0.0),
          Paddle(RightX(f), centred, 0, 0.0),
          Ball(f.w / 2.0, f.h / 2.0, BALL_SPEED, BALL_SPEED))
  }

  /** The velocity a paddle can have: at rest or moving at key speed. */
  predicate KeyVelocity(dy: real)
  {
    dy == -KEY_SPEED || dy == 0.0 || dy == KEY_SPEED
  }

  /** A paddle that sits at its own x and lies wholly on the field. */
  predicate PaddleOnField(f: Field, p: Paddle, x: real)
  {
    p.x == x && 0.0 <= p.y <= f.h - PADDLE_H && KeyVelocity(p.dy)
  }

  /** The invariant of every state the game can reach: paddles in place and
      on the field, paddle velocities from the key mapping, the ball's
      horizontal speed fixed and its vertical speed bounded by DEFLECTION. */
  predicate Consistent(f: Field, s: State)
  {
    && PaddleOnField(f, s.player1, LeftX(f))
    && PaddleOnField(f, s.player2, RightX(f))
    && Abs(s.ball.dx) == BALL_SPEED
    && Abs(s.ball.dy) <= DEFLECTION
  }

  lemma InitialStateConsistent(f: Field)
    requires Sane(f)
    ensures Consistent(f, InitialState(f))
  {
  }
}
