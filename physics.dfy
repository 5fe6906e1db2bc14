/** The update tick of pong.js as pure functions, one per stage, in the order
    the tick runs them: move and clamp the paddles, move the ball, bounce it
    off the top and bottom walls, detect a goal (and serve again), and test
    each paddle for a collision. `Tick` composes them; the lemmas state what
    one tick promises. `Math.random()` is the parameter `r`, 0 <= r < 1. */
module Physics {
  import opened Entities

  /** Math.max(0, Math.min(top, y)): the point of [0, top] nearest to y,
      or 0 when the interval is empty (a field lower than a paddle). */
  function Clamp(y: real, top: real): (c: real)
    ensures top >= 0.0 ==> 0.0 <= c <= top
    ensures top >= 0.0 && 0.0 <= y <= top ==> c == y
    ensures y < 0.0 || top < 0.0 ==> c == 0.0
    ensures 0.0 <= top < y ==> c == top
  {
    Max(0.0, Min(top, y))
  }

  /** Math.max and Math.min on numbers that are never NaN. */
  function Max(a: real, b: real): real
  {
    if a < b then b else a
  }

  function Min(a: real, b: real): real
  {
    if b < a then b else a
  }

  /** Step 1 for one paddle: add its velocity and keep it on the field. */
  function MovePaddle(f: Field, p: Paddle): Paddle
  {
    p.(y := Clamp(p.y + p.dy, f.h - PADDLE_H))
  }

  /** Step 2: the ball travels one tick. */
  function MoveBall(b: Ball): Ball
  {
    b.(x := b.x + b.dx, y := b.y + b.dy)
  }

  /** The ball's centre is closer than half its size to the top or bottom wall. */
  predicate HitsWall(f: Field, b: Ball)
  {
    b.y < BALL_SIZE / 2.0 || b.y > f.h - BALL_SIZE / 2.0
  }

  /** Step 3: a wall reverses the vertical velocity; the position is not corrected. */
  function WallBounce(f: Field, b: Ball): (b': Ball)
    ensures b'.x == b.x && b'.y == b.y && b'.dx == b.dx
    ensures Abs(b'.dy) == Abs(b.dy)
    ensures b'.dy == (if HitsWall(f, b) then -b.dy else b.dy)
  {
    if HitsWall(f, b) then b.(dy := -b.dy) else b
  }

  /** The vertical speed of a serve: Math.random() * 10 - 5. */
  function ServeDy(r: real): (dy: real)
    requires 0.0 <= r < 1.0
    ensures -SERVE_SPREAD <= dy < SERVE_SPREAD
  {
    r * (2.0 * SERVE_SPREAD) - SERVE_SPREAD
  }

  /** resetBall (pong.js:86-93): the ball goes back to the centre of the field,
      its horizontal direction reverses and its vertical speed is drawn anew. */
  function ResetBall(f: Field, b: Ball, r: real): (b': Ball)
    requires 0.0 <= r < 1.0
    ensures b'.x == f.w / 2.0 && b'.y == f.h / 2.0
    ensures b'.dx == -b.dx && Abs(b'.dx) == Abs(b.dx)
    ensures -SERVE_SPREAD <= b'.dy < SERVE_SPREAD
  {
    Ball(f.w / 2.0, f.h / 2.0, -b.dx, ServeDy(r))
  }

  /** The ball has crossed the left wall (a point for player 2) or the right
      wall (a point for player 1). */
  predicate LeftGoal(b: Ball)
  {
    b.x < 0.0
  }

  predicate RightGoal(f: Field, b: Ball)
  {
    !LeftGoal(b) && b.x > f.w
  }

  /** Step 4: award the point and serve again. */
  function Score(f: Field, s: State, r: real): (s': State)
    requires 0.0 <= r < 1.0
    ensures s'.player1 == s.player1.(score := s'.player1.score)
    ensures s'.player2 == s.player2.(score := s'.player2.score)
    ensures s'.player1.score == s.player1.score + (if RightGoal(f, s.ball) then 1 else 0)
    ensures s'.player2.score == s.player2.score + (if LeftGoal(s.ball) then 1 else 0)
    ensures s'.ball == if LeftGoal(s.ball) || RightGoal(f, s.ball) then ResetBall(f, s.ball, r) else s.ball
  {
    if s.ball.x < 0.0 then
      s.(player2 := s.player2.(score := s.player2.score + 1), ball := ResetBall(f, s.ball, r))
    else if s.ball.x > f.w then
      s.(player1 := s.player1.(score := s.player1.score + 1), ball := ResetBall(f, s.ball, r))
    else
      s
  }

  /** The horizontal collision band of the left paddle: from its left edge to
      half a ball past its right edge (pong.js:132). */
  predicate InLeftBand(p: Paddle, b: Ball)
  {
    b.x < p.x + PADDLE_W + BALL_SIZE / 2.0 && b.x > p.x
  }

  /** The band of the right paddle: from half a ball before its left edge to
      its right edge (pong.js:143). */
  predicate InRightBand(p: Paddle, b: Ball)
  {
    b.x > p.x - BALL_SIZE / 2.0 && b.x < p.x + PADDLE_W
  }

  /** The ball's centre lies strictly between the paddle's top and bottom:
      an exact touch of either edge is no hit (pong.js:133, 144). */
  predicate WithinSpan(p: Paddle, b: Ball)
  {
    b.y > p.y && b.y < p.y + PADDLE_H
  }

  /** The deflection law: the vertical speed after a hit grows linearly with
      the distance of the hit point from the paddle's centre. */
  function Deflection(p: Paddle, b: Ball): (dy: real)
    ensures WithinSpan(p, b) ==> -DEFLECTION < dy < DEFLECTION
    ensures b.y == p.y + PADDLE_H / 2.0 ==> dy == 0.0
    ensures b.y < p.y + PADDLE_H / 2.0 <==> dy < 0.0
  {
    var collidePoint := (b.y - (p.y + PADDLE_H / 2.0)) / (PADDLE_H / 2.0);
    collidePoint * DEFLECTION
  }

  /** The response to a hit: the horizontal direction reverses and the
      vertical velocity is overwritten by the deflection law. */
  function Rebound(p: Paddle, b: Ball): (b': Ball)
    ensures b'.x == b.x && b'.y == b.y
    ensures b'.dx == -b.dx
    ensures WithinSpan(p, b) ==> Abs(b'.dy) < DEFLECTION
  {
    b.(dx := -b.dx, dy := Deflection(p, b))
  }

  predicate HitsLeft(s: State)
  {
    InLeftBand(s.player1, s.ball) && WithinSpan(s.player1, s.ball)
  }

  predicate HitsRight(s: State)
  {
    InRightBand(s.player2, s.ball) && WithinSpan(s.player2, s.ball)
  }

  /** Step 5: collision with player 1's paddle. */
  function CollideLeft(s: State): State
  {
    if HitsLeft(s) then s.(ball := Rebound(s.player1, s.ball)) else s
  }

  /** Step 6: collision with player 2's paddle, tested after step 5. */
  function CollideRight(s: State): State
  {
    if HitsRight(s) then s.(ball := Rebound(s.player2, s.ball)) else s
  }

  /** The state after the paddles and the ball have moved and the ball has
      bounced off the top or bottom wall (steps 1-3). */
  function Moved(f: Field, s: State): State
  {
    State(MovePaddle(f, s.player1), MovePaddle(f, s.player2), WallBounce(f, MoveBall(s.ball)))
  }

  /** The state after the goal test as well (steps 1-4). */
  function Scored(f: Field, s: State, r: real): State
    requires 0.0 <= r < 1.0
  {
    Score(f, Moved(f, s), r)
  }

  /** One update tick (pong.js:100-151); r stands for the Math.random() draw
      a serve would make. */
  function Tick(f: Field, s: State, r: real): State
    requires 0.0 <= r < 1.0
  {
    CollideRight(CollideLeft(Scored(f, s, r)))
  }

  /** startGame (pong.js:160-174) without its timer: both scores back to 0
      and a serve. */
  function StartGame(f: Field, s: State, r: real): (s': State)
    requires 0.0 <= r < 1.0
    ensures s'.player1.score == 0 && s'.player2.score == 0
    ensures s'.ball == ResetBall(f, s.ball, r)
    ensures s'.player1 == s.player1.(score := 0) && s'.player2 == s.player2.(score := 0)
  {
    s.(player1 := s.player1.(score := 0), player2 := s.player2.(score := 0),
       ball := ResetBall(f, s.ball, r))
  }

  // ---------------------------------------------------------------------
  // What one tick promises

  /** The tick from s brings neither a goal nor a paddle hit. */
  predicate Quiet(f: Field, s: State)
  {
    var m := Moved(f, s);
    !LeftGoal(m.ball) && !RightGoal(f, m.ball) && !HitsLeft(m) && !HitsRight(m)
  }

  /** The tick from s ends with a goal. */
  predicate Goal(f: Field, s: State)
  {
    var m := MoveBall(s.ball);
    m.x < 0.0 || m.x > f.w
  }

  /** After a tick each paddle lies on the field, whatever its position and
      velocity were before. */
  lemma TickKeepsPaddlesOnField(f: Field, s: State, r: real)
    requires f.h >= PADDLE_H && 0.0 <= r < 1.0
    ensures 0.0 <= Tick(f, s, r).player1.y <= f.h - PADDLE_H
    ensures 0.0 <= Tick(f, s, r).player2.y <= f.h - PADDLE_H
  {
  }

  /** A tick moves each paddle by its velocity, clamped, and never changes a
      paddle's x or velocity: the clamp does not stop the paddle. */
  lemma TickMovesPaddles(f: Field, s: State, r: real)
    requires 0.0 <= r < 1.0
    ensures Tick(f, s, r).player1.x == s.player1.x && Tick(f, s, r).player1.dy == s.player1.dy
    ensures Tick(f, s, r).player2.x == s.player2.x && Tick(f, s, r).player2.dy == s.player2.dy
    ensures Tick(f, s, r).player1.y == Clamp(s.player1.y + s.player1.dy, f.h - PADDLE_H)
    ensures Tick(f, s, r).player2.y == Clamp(s.player2.y + s.player2.dy, f.h - PADDLE_H)
  {
  }

  /** A tick may flip the sign of the ball's horizontal velocity, never its size. */
  lemma TickKeepsBallSpeed(f: Field, s: State, r: real)
    requires 0.0 <= r < 1.0
    ensures Abs(Tick(f, s, r).ball.dx) == Abs(s.ball.dx)
  {
  }

  /** Scoring: a ball past the left wall is a point for player 2, a ball past
      the right wall one for player 1, and otherwise nobody scores. */
  lemma TickScoring(f: Field, s: State, r: real)
    requires 0.0 <= r < 1.0
    ensures var m := MoveBall(s.ball); var t := Tick(f, s, r);
      && (m.x < 0.0 ==> t.player2.score == s.player2.score + 1 && t.player1.score == s.player1.score)
      && (m.x > f.w && f.w >= 0.0 ==> t.player1.score == s.player1.score + 1 && t.player2.score == s.player2.score)
      && (0.0 <= m.x <= f.w ==> t.player1.score == s.player1.score && t.player2.score == s.player2.score)
  {
  }

  /** Scores never decrease during a tick, and rise by at most one together. */
  lemma TickScoresMonotone(f: Field, s: State, r: real)
    requires 0.0 <= r < 1.0
    ensures s.player1.score <= Tick(f, s, r).player1.score
    ensures s.player2.score <= Tick(f, s, r).player2.score
    ensures Tick(f, s, r).player1.score + Tick(f, s, r).player2.score
            <= s.player1.score + s.player2.score + 1
  {
  }

  /** After a goal the ball is served from the centre, back towards the side
      it came from, with a vertical speed in [-5, 5); on a sane field no
      paddle can touch a ball at the centre line. */
  lemma TickGoalServes(f: Field, s: State, r: real)
    requires Sane(f) && 0.0 <= r < 1.0
    requires s.player1.x == LeftX(f) && s.player2.x == RightX(f)
    requires Goal(f, s)
    ensures var t := Tick(f, s, r);
      && t.ball.x == f.w / 2.0 && t.ball.y == f.h / 2.0
      && t.ball.dx == -s.ball.dx
      && -SERVE_SPREAD <= t.ball.dy < SERVE_SPREAD
  {
  }

  /** Top/bottom bounce: when neither a goal nor a paddle hit follows, the
      ball keeps its position after moving and its vertical velocity flips
      exactly when it is at a wall. */
  lemma TickWallBounce(f: Field, s: State, r: real)
    requires 0.0 <= r < 1.0
    requires Quiet(f, s)
    ensures var m := MoveBall(s.ball);
      Tick(f, s, r).ball == m.(dy := if HitsWall(f, m) then -s.ball.dy else s.ball.dy)
  {
  }

  /** On a sane field the two collision bands are disjoint, so at most one
      paddle can be hit in a tick. */
  lemma BandsDisjoint(f: Field, s: State)
    requires Sane(f) && s.player1.x == LeftX(f) && s.player2.x == RightX(f)
    ensures !(InLeftBand(s.player1, s.ball) && InRightBand(s.player2, s.ball))
  {
  }

  /** A hit of player 1's paddle reverses the ball's horizontal direction and
      sets its vertical velocity by the deflection law, bounded by 8 in size;
      the ball's earlier vertical velocity plays no part. */
  lemma TickLeftHit(f: Field, s: State, r: real)
    requires Sane(f) && 0.0 <= r < 1.0
    requires s.player1.x == LeftX(f) && s.player2.x == RightX(f)
    requires HitsLeft(Scored(f, s, r))
    ensures var sc := Scored(f, s, r); var t := Tick(f, s, r);
      && t.ball.x == sc.ball.x && t.ball.y == sc.ball.y
      && t.ball.dx == -sc.ball.dx
      && t.ball.dy == Deflection(sc.player1, sc.ball)
      && -DEFLECTION < t.ball.dy < DEFLECTION
  {
  }

  /** The same for player 2's paddle. */
  lemma TickRightHit(f: Field, s: State, r: real)
    requires Sane(f) && 0.0 <= r < 1.0
    requires s.player1.x == LeftX(f) && s.player2.x == RightX(f)
    requires HitsRight(Scored(f, s, r))
    ensures var sc := Scored(f, s, r); var t := Tick(f, s, r);
      && t.ball.x == sc.ball.x && t.ball.y == sc.ball.y
      && t.ball.dx == -sc.ball.dx
      && t.ball.dy == Deflection(sc.player2, sc.ball)
      && -DEFLECTION < t.ball.dy < DEFLECTION
  {
  }

  /** A ball whose centre is exactly level with a paddle's top or bottom edge
      is not a hit, even inside the band. */
  lemma EdgeTouchIsNoHit(p: Paddle, b: Ball)
    requires b.y == p.y || b.y == p.y + PADDLE_H
    ensures !WithinSpan(p, b)
  {
  }

  /** The deflection law is odd about the paddle's centre and strictly
      increasing: a hit d above the centre goes up exactly as fast as a hit
      d below goes down, and a lower hit is deflected further down. */
  lemma DeflectionSymmetric(p: Paddle, b1: Ball, b2: Ball)
    requires b1.y + b2.y == 2.0 * p.y + PADDLE_H
    ensures Deflection(p, b1) == -Deflection(p, b2)
  {
  }

  lemma DeflectionIncreasing(p: Paddle, b1: Ball, b2: Ball)
    requires b1.y < b2.y
    ensures Deflection(p, b1) < Deflection(p, b2)
  {
  }

  // ---------------------------------------------------------------------
  // The invariant of reachable states

  /** A tick keeps the game state consistent. */
  lemma TickConsistent(f: Field, s: State, r: real)
    requires Consistent(f, s) && 0.0 <= r < 1.0
    ensures Consistent(f, Tick(f, s, r))
  {
  }

  /** startGame keeps it consistent too. */
  lemma StartGameConsistent(f: Field, s: State, r: real)
    requires Consistent(f, s) && 0.0 <= r < 1.0
    ensures Consistent(f, StartGame(f, s, r))
  {
  }
}
