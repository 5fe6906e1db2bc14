/** The keyboard handlers (script.js:4-40, repeated verbatim at
    pong.js:182-218): a key press sets one paddle's velocity, a key release
    stops it, any other key is ignored. */
module Input {
  import opened Entities

  /** The keys of player 1 ('w'/'W' up, 's'/'S' down) and player 2 (arrows). */
  predicate Player1Key(key: string)
  {
    key == "w" || key == "W" || key == "s" || key == "S"
  }

  predicate Player2Key(key: string)
  {
    key == "ArrowUp" || key == "ArrowDown"
  }

  /** The velocity a key press gives the paddle the key belongs to. */
  function PressVelocity(key: string): real
  {
    if key == "w" || key == "W" || key == "ArrowUp" then -KEY_SPEED else KEY_SPEED
  }

  /** The keydown handler (script.js:4-24). */
  function KeyDown(s: State, key: string): (s': State)
    ensures s'.ball == s.ball
    ensures s'.player1 == s.player1.(dy := s'.player1.dy)
    ensures s'.player2 == s.player2.(dy := s'.player2.dy)
    ensures Player1Key(key) ==> s'.player2 == s.player2 && KeyVelocity(s'.player1.dy) && s'.player1.dy != 0.0
    ensures Player2Key(key) ==> s'.player1 == s.player1 && KeyVelocity(s'.player2.dy) && s'.player2.dy != 0.0
    ensures !Player1Key(key) && !Player2Key(key) ==> s' == s
  {
    match key
    case "w" => s.(player1 := s.player1.(dy := -KEY_SPEED))
    case "W" => s.(player1 := s.player1.(dy := -KEY_SPEED))
    case "s" => s.(player1 := s.player1.(dy := KEY_SPEED))
    case "S" => s.(player1 := s.player1.(dy := KEY_SPEED))
    case "ArrowUp" => s.(player2 := s.player2.(dy := -KEY_SPEED))
    case "ArrowDown" => s.(player2 := s.player2.(dy := KEY_SPEED))
    case _ => s
  }

  /** The keyup handler (script.js:27-40). */
  function KeyUp(s: State, key: string): (s': State)
    ensures s'.ball == s.ball
    ensures s'.player1 == if Player1Key(key) then s.player1.(dy := 0.0) else s.player1
    ensures s'.player2 == if Player2Key(key) then s.player2.(dy := 0.0) else s.player2
  {
    match key
    case "w" => s.(player1 := s.player1.(dy := 0.0))
    case "W" => s.(player1 := s.player1.(dy := 0.0))
    case "s" => s.(player1 := s.player1.(dy := 0.0))
    case "S" => s.(player1 := s.player1.(dy := 0.0))
    case "ArrowUp" => s.(player2 := s.player2.(dy := 0.0))
    case "ArrowDown" => s.(player2 := s.player2.(dy := 0.0))
    case _ => s
  }

  /** Each key press gives its paddle the velocity of its direction: up is
      -7, down is +7. */
  lemma KeyDownVelocity(s: State, key: string)
    ensures Player1Key(key) ==> KeyDown(s, key).player1.dy == PressVelocity(key)
    ensures Player2Key(key) ==> KeyDown(s, key).player2.dy == PressVelocity(key)
    ensures key == "w" || key == "W" || key == "ArrowUp" ==> PressVelocity(key) == -7.0
    ensures key == "s" || key == "S" || key == "ArrowDown" ==> PressVelocity(key) == 7.0
  {
  }

  /** Pressing a key twice is the same as pressing it once. pong.js and
      script.js register identical handlers, so when both are loaded each key
      event runs its handler twice; this lemma and KeyUpIdempotent show that
      the second run changes nothing. */
  lemma KeyDownIdempotent(s: State, key: string)
    ensures KeyDown(KeyDown(s, key), key) == KeyDown(s, key)
  {
  }

  /** Releasing a key twice is the same as releasing it once. */
  lemma KeyUpIdempotent(s: State, key: string)
    ensures KeyUp(KeyUp(s, key), key) == KeyUp(s, key)
  {
  }

  /** The handlers keep no record of which keys are held: with both 'w' and
      's' down, releasing either one stops player 1's paddle. */
  lemma ReleaseEitherKeyStops(s: State, held: string, released: string)
    requires held in {"w", "s"} && released in {"w", "s"}
    ensures KeyUp(KeyDown(KeyDown(s, held), released), released).player1.dy == 0.0
    ensures KeyUp(KeyDown(KeyDown(s, released), held), released).player1.dy == 0.0
  {
  }

  /** A key event as the browser delivers it. */
  datatype KeyEvent = Press(key: string) | Release(key: string)

  function HandleKey(s: State, e: KeyEvent): State
  {
    match e
    case Press(k) => KeyDown(s, k)
    case Release(k) => KeyUp(s, k)
  }

  /** The state after a sequence of key events, oldest first. */
  function HandleKeys(s: State, events: seq<KeyEvent>): State
    decreases |events|
  {
    if events == [] then s else HandleKeys(HandleKey(s, events[0]), events[1..])
  }

  /** Key events change paddle velocities only: positions, scores and the
      ball are as they were. */
  lemma {:induction false} HandleKeysTouchesOnlyVelocity(s: State, events: seq<KeyEvent>)
    ensures var t := HandleKeys(s, events);
      && t.ball == s.ball
      && t.player1 == s.player1.(dy := t.player1.dy)
      && t.player2 == s.player2.(dy := t.player2.dy)
    decreases |events|
  {
    if events != [] {
      HandleKeysTouchesOnlyVelocity(HandleKey(s, events[0]), events[1..]);
    }
  }

  /** Starting from velocities in {-7, 0, 7} (both paddles start at rest),
      every sequence of key events leaves them in {-7, 0, 7}. */
  lemma {:induction false} HandleKeysKeepsKeyVelocity(s: State, events: seq<KeyEvent>)
    requires KeyVelocity(s.player1.dy) && KeyVelocity(s.player2.dy)
    ensures KeyVelocity(HandleKeys(s, events).player1.dy)
    ensures KeyVelocity(HandleKeys(s, events).player2.dy)
    decreases |events|
  {
    if events != [] {
      HandleKeysKeepsKeyVelocity(HandleKey(s, events[0]), events[1..]);
    }
  }
}
