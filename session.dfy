/** The game session: the shared records `player1`, `player2` and `ball`
    that pong.js keeps as globals, held by one `Game` object whose methods
    are the tick, the serve, the start action and the two key handlers.
    Each method changes the fields in place in the order the source does and
    is proved to reach the state the pure model of Physics and Input gives. */
module Session {
  import opened Entities
  import opened Physics
  import opened Input

  /** Whatever can happen to a running game: a timer tick, a key event, or a
      press of the start button. `r` is the Math.random() draw of a serve. */
  datatype Event = TimerTick(r: real) | Key(e: KeyEvent) | Start(r: real)

  predicate DrawInRange(e: Event)
  {
    (e.TimerTick? || e.Start?) ==> 0.0 <= e.r < 1.0
  }

  function Step(f: Field, s: State, e: Event): State
    requires DrawInRange(e)
  {
    match e
    case TimerTick(r) => Tick(f, s, r)
    case Key(k) => HandleKey(s, k)
    case Start(r) => StartGame(f, s, r)
  }

  /** The state after a sequence of events, oldest first. */
  function Run(f: Field, s: State, events: seq<Event>): State
    requires forall i :: 0 <= i < |events| ==> DrawInRange(events[i])
    decreases |events|
  {
    if events == [] then s else Run(f, Step(f, s, events[0]), events[1..])
  }

  /** Every state the game reaches is consistent: each paddle on the field
      at its own x, paddle velocities in {-7, 0, 7}, the ball's horizontal
      velocity +5 or -5 and its vertical velocity at most 8 in size. */
  lemma {:induction false} RunConsistent(f: Field, s: State, events: seq<Event>)
    requires Consistent(f, s)
    requires forall i :: 0 <= i < |events| ==> DrawInRange(events[i])
    ensures Consistent(f, Run(f, s, events))
    decreases |events|
  {
    if events != [] {
      var e := events[0];
      match e {
        case TimerTick(r) => TickConsistent(f, s, r);
        case Key(k) =>
          HandleKeysKeepsKeyVelocity(s, [k]);
          HandleKeysTouchesOnlyVelocity(s, [k]);
        case Start(r) => StartGameConsistent(f, s, r);
      }
      RunConsistent(f, Step(f, s, e), events[1..]);
    }
  }

  /** Between two presses of start, neither score ever decreases. */
  lemma {:induction false} RunScoresMonotone(f: Field, s: State, events: seq<Event>)
    requires forall i :: 0 <= i < |events| ==> DrawInRange(events[i]) && !events[i].Start?
    ensures s.player1.score <= Run(f, s, events).player1.score
    ensures s.player2.score <= Run(f, s, events).player2.score
    decreases |events|
  {
    if events != [] {
      var e := events[0];
      if e.TimerTick? {
        TickScoresMonotone(f, s, e.r);
      }
      RunScoresMonotone(f, Step(f, s, e), events[1..]);
    }
  }

  /** A run in which nothing serves the ball: only key events and ticks that
      bring neither a goal nor a paddle hit. */
  predicate QuietRun(f: Field, s: State, events: seq<Event>)
    decreases |events|
  {
    events == [] ||
    (match events[0]
     case Key(k) => QuietRun(f, HandleKey(s, k), events[1..])
     case TimerTick(r) =>
       0.0 <= r < 1.0 && Quiet(f, s) && QuietRun(f, Tick(f, s, r), events[1..])
     case Start(_) => false)
  }

  /** In a quiet run the ball keeps its horizontal velocity. */
  lemma {:induction false} QuietRunKeepsDx(f: Field, s: State, events: seq<Event>)
    requires QuietRun(f, s, events)
    ensures forall i :: 0 <= i < |events| ==> DrawInRange(events[i])
    ensures Run(f, s, events).ball.dx == s.ball.dx
    decreases |events|
  {
    if events != [] {
      match events[0] {
        case Key(k) =>
          HandleKeysTouchesOnlyVelocity(s, [k]);
        case TimerTick(r) =>
          TickWallBounce(f, s, r);
      }
      QuietRunKeepsDx(f, Step(f, s, events[0]), events[1..]);
    }
  }

  /** Serves alternate: a goal serves the ball against its direction before
      the goal, and when a second goal follows with no paddle hit in between,
      it serves the ball the other way than the first serve. */
  lemma ServesAlternate(f: Field, s: State, r1: real, between: seq<Event>, r2: real)
    requires Sane(f) && Consistent(f, s)
    requires 0.0 <= r1 < 1.0 && 0.0 <= r2 < 1.0
    requires Goal(f, s)
    requires QuietRun(f, Tick(f, s, r1), between)
    requires forall i :: 0 <= i < |between| ==> DrawInRange(between[i])
    requires Goal(f, Run(f, Tick(f, s, r1), between))
    ensures Tick(f, s, r1).ball.dx == -s.ball.dx
    ensures Tick(f, Run(f, Tick(f, s, r1), between), r2).ball.dx == -Tick(f, s, r1).ball.dx
  {
    var s1 := Tick(f, s, r1);
    TickGoalServes(f, s, r1);
    TickConsistent(f, s, r1);
    QuietRunKeepsDx(f, s1, between);
    RunConsistent(f, s1, between);
    TickGoalServes(f, Run(f, s1, between), r2);
  }

  /** The game as pong.js holds it: the canvas size and the three records. */
  class Game {
    const field: Field
    var player1: Paddle
    var player2: Paddle
    var ball: Ball

    function Snapshot(): State
      reads this
    {
      State(player1, player2, ball)
    }

    ghost predicate Valid()
      reads this
    {
      Sane(field) && Consistent(field, Snapshot())
    }

    /** The program's start-up state (pong.js:6-40) on a canvas of w by h. */
    constructor (w: real, h: real)
      requires Sane(Field(w, h))
      ensures field == Field(w, h)
      ensures Snapshot() == InitialState(field)
      ensures Valid()
    {
      field := Field(w, h);
      player1 := Paddle(PADDLE_MARGIN, h / 2.0 - PADDLE_H / 2.0, 0, 0.0);
      player2 := Paddle(w - PADDLE_W - PADDLE_MARGIN, h / 2.0 - PADDLE_H / 2.0, 0, 0.0);
      ball := Ball(w / 2.0, h / 2.0, BALL_SPEED, BALL_SPEED);
      new;
      InitialStateConsistent(field);
    }

    /** resetBall (pong.js:86-93). */
    method ResetBall(r: real)
      requires 0.0 <= r < 1.0
      modifies this
      ensures ball == Physics.ResetBall(field, old(ball), r)
      ensures player1 == old(player1) && player2 == old(player2)
      ensures old(Valid()) ==> Valid()
    {
      ball := ball.(x := field.w / 2.0);
      ball := ball.(y := field.h / 2.0);
      ball := ball.(dx := -ball.dx);
      ball := ball.(dy := r * 10.0 - 5.0);
    }

    /** update (pong.js:100-155) without the final draw(): the stages run in
        the order the source numbers them. */
    method Update(r: real)
      requires 0.0 <= r < 1.0
      modifies this
      ensures Snapshot() == Physics.Tick(field, old(Snapshot()), r)
      ensures old(Valid()) ==> Valid()
    {
      ghost var s := Snapshot();
      StepPaddles();
      StepBall();
      assert Snapshot() == Moved(field, s);
      CheckGoals(r);
      CheckPaddle1();
      CheckPaddle2();
      if Consistent(field, s) {
        TickConsistent(field, s, r);
      }
    }

    /** Stage 1 (pong.js:101-107): each paddle moves by its velocity and is
        kept on screen. */
    method StepPaddles()
      modifies this
      ensures old(Valid()) ==> Valid()
      ensures player1 == MovePaddle(field, old(player1))
      ensures player2 == MovePaddle(field, old(player2))
      ensures ball == old(ball)
    {
      player1 := player1.(y := player1.y + player1.dy);
      player2 := player2.(y := player2.y + player2.dy);
      player1 := player1.(y := Max(0.0, Min(field.h - PADDLE_H, player1.y)));
      player2 := player2.(y := Max(0.0, Min(field.h - PADDLE_H, player2.y)));
    }

    /** Stages 2 and 3 (pong.js:109-117): the ball moves and bounces off the
        top or bottom wall. */
    method StepBall()
      modifies this
      ensures old(Valid()) ==> Valid()
      ensures ball == WallBounce(field, MoveBall(old(ball)))
      ensures player1 == old(player1) && player2 == old(player2)
    {
      ball := ball.(x := ball.x + ball.dx);
      ball := ball.(y := ball.y + ball.dy);
      if ball.y < BALL_SIZE / 2.0 || ball.y > field.h - BALL_SIZE / 2.0 {
        ball := ball.(dy := -ball.dy);
      }
    }

    /** Stage 4 (pong.js:119-128): a goal scores and serves again. */
    method CheckGoals(r: real)
      requires 0.0 <= r < 1.0
      modifies this
      ensures old(Valid()) ==> Valid()
      ensures Snapshot() == Score(field, old(Snapshot()), r)
    {
      if ball.x < 0.0 {
        player2 := player2.(score := player2.score + 1);
        ResetBall(r);
      } else if ball.x > field.w {
        player1 := player1.(score := player1.score + 1);
        ResetBall(r);
      }
    }

    /** Stage 5 (pong.js:130-140): collision with player 1's paddle. */
    method CheckPaddle1()
      modifies this
      ensures old(Valid()) ==> Valid()
      ensures Snapshot() == Physics.CollideLeft(old(Snapshot()))
    {
      if ball.x < player1.x + PADDLE_W + BALL_SIZE / 2.0 && ball.x > player1.x {
        if ball.y > player1.y && ball.y < player1.y + PADDLE_H {
          ball := ball.(dx := -ball.dx);
          var collidePoint := (ball.y - (player1.y + PADDLE_H / 2.0)) / (PADDLE_H / 2.0);
          ball := ball.(dy := collidePoint * 8.0);
        }
      }
    }

    /** Stage 6 (pong.js:142-151): collision with player 2's paddle. */
    method CheckPaddle2()
      modifies this
      ensures old(Valid()) ==> Valid()
      ensures Snapshot() == Physics.CollideRight(old(Snapshot()))
    {
      if ball.x > player2.x - BALL_SIZE / 2.0 && ball.x < player2.x + PADDLE_W {
        if ball.y > player2.y && ball.y < player2.y + PADDLE_H {
          ball := ball.(dx := -ball.dx);
          var collidePoint := (ball.y - (player2.y + PADDLE_H / 2.0)) / (PADDLE_H / 2.0);
          ball := ball.(dy := collidePoint * 8.0);
        }
      }
    }

    /** startGame (pong.js:160-174) without the interval timer and the score
        display. */
    method StartGame(r: real)
      requires 0.0 <= r < 1.0
      modifies this
      ensures Snapshot() == Physics.StartGame(field, old(Snapshot()), r)
      ensures old(Valid()) ==> Valid()
    {
      player1 := player1.(score := 0);
      player2 := player2.(score := 0);
      ResetBall(r);
    }

    /** The keydown listener (script.js:4-24; pong.js:182-202). */
    method KeyDown(key: string)
      modifies this
      ensures Snapshot() == Input.KeyDown(old(Snapshot()), key)
      ensures old(Valid()) ==> Valid()
    {
      match key {
        case "w" => player1 := player1.(dy := -7.0);
        case "W" => player1 := player1.(dy := -7.0);
        case "s" => player1 := player1.(dy := 7.0);
        case "S" => player1 := player1.(dy := 7.0);
        case "ArrowUp" => player2 := player2.(dy := -7.0);
        case "ArrowDown" => player2 := player2.(dy := 7.0);
        case _ =>
      }
    }

    /** The keyup listener (script.js:27-40; pong.js:205-218). */
    method KeyUp(key: string)
      modifies this
      ensures Snapshot() == Input.KeyUp(old(Snapshot()), key)
      ensures old(Valid()) ==> Valid()
    {
      match key {
        case "w" => player1 := player1.(dy := 0.0);
        case "W" => player1 := player1.(dy := 0.0);
        case "s" => player1 := player1.(dy := 0.0);
        case "S" => player1 := player1.(dy := 0.0);
        case "ArrowUp" => player2 := player2.(dy := 0.0);
        case "ArrowDown" => player2 := player2.(dy := 0.0);
        case _ =>
      }
    }
  }
}
