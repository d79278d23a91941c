// IOManager.py: the earlier input manager. It keeps no state: the first
// key-down event of the frame decides the direction, and any other key
// there, or no key-down at all, gives no direction.

module LegacyIOManager {
  import opened Common

  /** The direction a key gives: w/s/a/d for player 1, the arrow keys for player 2. */
  function Press(key: Key, player1: bool): (r: Option<string>)
    ensures player1 ==> (r == Some(Up) <==> key == KeyW) && (r == Some(Down) <==> key == KeyS)
                        && (r == Some(Left) <==> key == KeyA) && (r == Some(Right) <==> key == KeyD)
                        && (r.None? <==> key !in {KeyW, KeyS, KeyA, KeyD})
    ensures !player1 ==> (r == Some(Up) <==> key == ArrowUp) && (r == Some(Down) <==> key == ArrowDown)
                         && (r == Some(Left) <==> key == ArrowLeft) && (r == Some(Right) <==> key == ArrowRight)
                         && (r.None? <==> key !in {ArrowUp, ArrowDown, ArrowLeft, ArrowRight})
  {
    if player1 then
      if key == KeyW then Some(Up)
      else if key == KeyS then Some(Down)
      else if key == KeyA then Some(Left)
      else if key == KeyD then Some(Right)
      else None
    else
      if key == ArrowUp then Some(Up)
      else if key == ArrowDown then Some(Down)
      else if key == ArrowLeft then Some(Left)
      else if key == ArrowRight then Some(Right)
      else None
  }

  /** The shared loop of both handlers: return on the first key-down event. */
  function HandleInput(events: seq<Event>, player1: bool): (r: Option<string>)
    ensures r.Some? ==> exists i | 0 <= i < |events| :: events[i].KeyDown? && Press(events[i].key, player1) == r
  {
    if events == [] then None
    else if events[0].KeyDown? then Press(events[0].key, player1)
    else
      var rest := HandleInput(events[1..], player1);
      assert forall i | 1 <= i < |events| :: events[i] == events[1..][i - 1];
      rest
  }

  /** `handleInputPlayer1`: a direction only from a w, s, a or d press among the events. */
  function HandleInputPlayer1(events: seq<Event>): (r: Option<string>)
    ensures r.Some? ==> r.value in {Up, Down, Left, Right}
    ensures r.Some? ==> exists i | 0 <= i < |events| :: events[i].KeyDown? && events[i].key in {KeyW, KeyS, KeyA, KeyD}
  {
    HandleInput(events, true)
  }

  /** `handleInputPlayer2`: a direction only from an arrow-key press among the events. */
  function HandleInputPlayer2(events: seq<Event>): (r: Option<string>)
    ensures r.Some? ==> r.value in {Up, Down, Left, Right}
    ensures r.Some? ==> exists i | 0 <= i < |events| :: events[i].KeyDown?
                                                        && events[i].key in {ArrowUp, ArrowDown, ArrowLeft, ArrowRight}
  {
    HandleInput(events, false)
  }

  /** The first key-down event alone decides the result. */
  lemma {:induction false} FirstKeyDownDecides(events: seq<Event>, i: nat, player1: bool)
    requires i < |events| && events[i].KeyDown?
    requires forall j | 0 <= j < i :: !events[j].KeyDown?
    ensures HandleInput(events, player1) == Press(events[i].key, player1)
    decreases i
  {
    if i > 0 {
      assert !events[0].KeyDown?;
      FirstKeyDownDecides(events[1..], i - 1, player1);
    }
  }

  /** Without a key-down event there is no direction. */
  lemma {:induction false} NoKeyDownNoDirection(events: seq<Event>, player1: bool)
    requires forall j | 0 <= j < |events| :: !events[j].KeyDown?
    ensures HandleInput(events, player1) == None
    decreases |events|
  {
    if events != [] {
      NoKeyDownNoDirection(events[1..], player1);
    }
  }

  /** Events after the first key-down never matter. */
  lemma {:induction false} LaterEventsIgnored(events: seq<Event>, later: seq<Event>, player1: bool)
    requires exists j | 0 <= j < |events| :: events[j].KeyDown?
    ensures HandleInput(events + later, player1) == HandleInput(events, player1)
    decreases |events|
  {
    if !events[0].KeyDown? {
      assert (events + later)[1..] == events[1..] + later;
      var j :| 0 <= j < |events| && events[j].KeyDown?;
      assert events[1..][j - 1].KeyDown?;
      LaterEventsIgnored(events[1..], later, player1);
    }
  }

  /** A first key-down of any other key hides a direction key pressed later. */
  lemma OtherKeyFirstGivesNone(rest: seq<Event>)
    ensures HandleInputPlayer1([KeyDown(KeySpace), KeyDown(KeyW)] + rest) == None
    ensures HandleInputPlayer2([KeyDown(KeyW), KeyDown(ArrowUp)] + rest) == None
  {
  }
}
