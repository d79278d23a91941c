// handle_collision.py: player-versus-player and screen-edge collision. Boxes
// are axis-aligned (left, bottom, right, top) tuples; positions are exact
// reals. Overlapping players are pushed apart along x, the one that is hit
// or airborne staying put, an attacking player being pushed less; every
// moved player is then clamped to the screen.

module Collision {

  /** `config.windowWidth`. */
  const WindowWidth: real := 1280.0
  /** The default screen-edge margin of the clamping helpers. */
  const DefaultMargin: real := 60.0
  /** The default minimum spawn distance of `prevent_overlap_on_spawn`. */
  const DefaultMinDistance: real := 120.0

  /** A bounding box `(bb[0], bb[1], bb[2], bb[3])`. */
  datatype Box = Box(left: real, bottom: real, right: real, top: real)

  /** A box of positive width and height. */
  predicate Proper(bb: Box) {
    bb.left < bb.right && bb.bottom < bb.top
  }

  /** `check_aabb_collision`: strict overlap on both axes. */
  predicate CheckAabbCollision(bb1: Box, bb2: Box) {
    bb1.left < bb2.right && bb1.right > bb2.left && bb1.bottom < bb2.top && bb1.top > bb2.bottom
  }

  function Min(a: real, b: real): real { if a <= b then a else b }
  function Max(a: real, b: real): real { if a >= b then a else b }

  datatype Overlap = Overlap(x: real, y: real)

  /** `get_overlap`: the extent of the intersection on each axis, positive when the boxes overlap. */
  function GetOverlap(bb1: Box, bb2: Box): (o: Overlap)
    ensures o.x <= bb1.right - bb1.left && o.x <= bb2.right - bb2.left
    ensures o.y <= bb1.top - bb1.bottom && o.y <= bb2.top - bb2.bottom
    // partial overlap from either side, and containment either way, on x
    ensures bb1.left <= bb2.left <= bb1.right <= bb2.right ==> o.x == bb1.right - bb2.left
    ensures bb2.left <= bb1.left <= bb2.right <= bb1.right ==> o.x == bb2.right - bb1.left
    ensures bb1.left <= bb2.left && bb2.right <= bb1.right ==> o.x == bb2.right - bb2.left
    ensures bb2.left <= bb1.left && bb1.right <= bb2.right ==> o.x == bb1.right - bb1.left
    // the same on y
    ensures bb1.bottom <= bb2.bottom <= bb1.top <= bb2.top ==> o.y == bb1.top - bb2.bottom
    ensures bb2.bottom <= bb1.bottom <= bb2.top <= bb1.top ==> o.y == bb2.top - bb1.bottom
    ensures bb1.bottom <= bb2.bottom && bb2.top <= bb1.top ==> o.y == bb2.top - bb2.bottom
    ensures bb2.bottom <= bb1.bottom && bb1.top <= bb2.top ==> o.y == bb1.top - bb1.bottom
  {
    Overlap(Min(bb1.right, bb2.right) - Max(bb1.left, bb2.left),
            Min(bb1.top, bb2.top) - Max(bb1.bottom, bb2.bottom))
  }

  /** The collision test does not depend on the order of the boxes. */
  lemma CollisionSymmetric(bb1: Box, bb2: Box)
    ensures CheckAabbCollision(bb1, bb2) <==> CheckAabbCollision(bb2, bb1)
  {
  }

  /** The overlap does not depend on the order of the boxes. */
  lemma OverlapSymmetric(bb1: Box, bb2: Box)
    ensures GetOverlap(bb1, bb2) == GetOverlap(bb2, bb1)
  {
  }

  /** Boxes that only share an edge do not collide. */
  lemma TouchingBoxesDoNotCollide(bb1: Box, bb2: Box)
    requires bb1.right == bb2.left || bb1.top == bb2.bottom
    ensures !CheckAabbCollision(bb1, bb2)
  {
  }

  /**
   * A positive overlap on both axes means a collision, and for boxes of
   * positive extent a collision means a positive overlap on both axes.
   */
  lemma OverlapIffCollision(bb1: Box, bb2: Box)
    ensures GetOverlap(bb1, bb2).x > 0.0 && GetOverlap(bb1, bb2).y > 0.0 ==> CheckAabbCollision(bb1, bb2)
    ensures Proper(bb1) && Proper(bb2) && CheckAabbCollision(bb1, bb2) ==>
              GetOverlap(bb1, bb2).x > 0.0 && GetOverlap(bb1, bb2).y > 0.0
  {
  }

  /** A degenerate box can collide with no positive overlap, which the resolver's second test catches. */
  lemma DegenerateCollisionWithoutOverlap()
    ensures var thin := Box(5.0, 0.0, 5.0, 10.0);
            var wide := Box(0.0, 0.0, 10.0, 10.0);
            CheckAabbCollision(thin, wide) && GetOverlap(thin, wide).x == 0.0
  {
  }

  /** `clamp_position`: x limited to `[margin, windowWidth - margin]`. */
  function ClampPosition(x: real, margin: real): (r: real)
    ensures margin <= WindowWidth - margin ==> margin <= r <= WindowWidth - margin
    ensures margin <= x <= WindowWidth - margin ==> r == x
    ensures x < margin ==> r == margin
    ensures margin <= x && x > WindowWidth - margin ==> r == WindowWidth - margin
    ensures r != x ==> x < margin || x > WindowWidth - margin
  {
    if x < margin then margin
    else if x > WindowWidth - margin then WindowWidth - margin
    else x
  }

  /** Clamping twice is clamping once. */
  lemma ClampIdempotent(x: real, margin: real)
    requires margin <= WindowWidth - margin
    ensures ClampPosition(ClampPosition(x, margin), margin) == ClampPosition(x, margin)
  {
  }

  /** The flags the resolver reads with `getattr`, with its defaults for missing attributes. */
  datatype Flags = Flags(isHit: bool, isGrounded: bool, isAttacking: bool)

  /** The share of the overlap by which player 1 is pushed when both are in a normal state. */
  function PushRatio(attacking1: bool, attacking2: bool): (ratio: real)
    ensures attacking1 && !attacking2 ==> ratio == 0.2
    ensures attacking2 && !attacking1 ==> ratio == 0.8
    ensures attacking1 == attacking2 ==> ratio == 0.5
    ensures 0.0 < ratio < 1.0
  {
    if attacking1 && !attacking2 then 0.2
    else if attacking2 && !attacking1 then 0.8
    else 0.5
  }

  datatype Positions = Positions(x1: real, x2: real)

  /** How `resolve_player_collision` acts on a pair, before any clamping. */
  datatype Resolution =
    | NoPush                               // no overlap, or both hit, or both airborne
    | PushSecond(x2: real)                 // player 1 is hit or airborne: only player 2 moves
    | PushFirst(x1: real)                  // player 2 is hit or airborne: only player 1 moves
    | PushBoth(x1: real, x2: real)         // both normal: pushed apart by the ratio

  /** The unclamped decision of `resolve_player_collision`. */
  function Resolve(x1: real, x2: real, f1: Flags, f2: Flags, bb1: Box, bb2: Box): Resolution {
    var o := GetOverlap(bb1, bb2);
    var airborne1, airborne2 := !f1.isGrounded, !f2.isGrounded;
    if !CheckAabbCollision(bb1, bb2) || o.x <= 0.0 || o.y <= 0.0 then NoPush
    else if (f1.isHit && f2.isHit) || (airborne1 && airborne2) then NoPush
    else if f1.isHit || airborne1 then
      PushSecond(if x1 < x2 then x2 + o.x else x2 - o.x)
    else if f2.isHit || airborne2 then
      PushFirst(if x1 < x2 then x1 - o.x else x1 + o.x)
    else
      var pushDistance := o.x / 2.0;
      var ratio := PushRatio(f1.isAttacking, f2.isAttacking);
      if x1 < x2 then PushBoth(x1 - pushDistance * ratio * 2.0, x2 + pushDistance * (1.0 - ratio) * 2.0)
      else PushBoth(x1 + pushDistance * ratio * 2.0, x2 - pushDistance * (1.0 - ratio) * 2.0)
  }

  /** The positions after `resolve_player_collision`: every moved player is clamped with the default margin. */
  function ResolvedPositions(x1: real, x2: real, f1: Flags, f2: Flags, bb1: Box, bb2: Box): Positions {
    match Resolve(x1, x2, f1, f2, bb1, bb2)
    case NoPush => Positions(x1, x2)
    case PushSecond(n2) => Positions(x1, ClampPosition(n2, DefaultMargin))
    case PushFirst(n1) => Positions(ClampPosition(n1, DefaultMargin), x2)
    case PushBoth(n1, n2) => Positions(ClampPosition(n1, DefaultMargin), ClampPosition(n2, DefaultMargin))
  }

  /** Nothing moves without a positive overlap, or when both are hit, or both are airborne. */
  lemma NoPushCases(x1: real, x2: real, f1: Flags, f2: Flags, bb1: Box, bb2: Box)
    requires || !CheckAabbCollision(bb1, bb2)
             || GetOverlap(bb1, bb2).x <= 0.0 || GetOverlap(bb1, bb2).y <= 0.0
             || (f1.isHit && f2.isHit) || (!f1.isGrounded && !f2.isGrounded)
    ensures ResolvedPositions(x1, x2, f1, f2, bb1, bb2) == Positions(x1, x2)
  {
  }

  /**
   * A hit or airborne player 1 stays put and player 2 is pushed away from
   * it by the whole horizontal overlap, then clamped; and the mirror case.
   */
  lemma OneSidedPush(x1: real, x2: real, f1: Flags, f2: Flags, bb1: Box, bb2: Box)
    requires Resolve(x1, x2, f1, f2, bb1, bb2) != NoPush
    ensures var o := GetOverlap(bb1, bb2).x;
            (f1.isHit || !f1.isGrounded) ==>
              && Resolve(x1, x2, f1, f2, bb1, bb2) == PushSecond(if x1 < x2 then x2 + o else x2 - o)
              && ResolvedPositions(x1, x2, f1, f2, bb1, bb2).x1 == x1
    ensures var o := GetOverlap(bb1, bb2).x;
            !(f1.isHit || !f1.isGrounded) && (f2.isHit || !f2.isGrounded) ==>
              && Resolve(x1, x2, f1, f2, bb1, bb2) == PushFirst(if x1 < x2 then x1 - o else x1 + o)
              && ResolvedPositions(x1, x2, f1, f2, bb1, bb2).x2 == x2
  {
  }

  /**
   * Between two normal players the two pushes add up to the horizontal
   * overlap, point away from each other, and player 1's share is the ratio.
   */
  lemma BalancedPush(x1: real, x2: real, f1: Flags, f2: Flags, bb1: Box, bb2: Box)
    requires Resolve(x1, x2, f1, f2, bb1, bb2).PushBoth?
    ensures var r := Resolve(x1, x2, f1, f2, bb1, bb2);
            var o := GetOverlap(bb1, bb2).x;
            var ratio := PushRatio(f1.isAttacking, f2.isAttacking);
            && !f1.isHit && f1.isGrounded && !f2.isHit && f2.isGrounded
            && o > 0.0
            && (x1 < x2 ==> x1 - r.x1 == o * ratio && r.x2 - x2 == o * (1.0 - ratio))
            && (x1 >= x2 ==> r.x1 - x1 == o * ratio && x2 - r.x2 == o * (1.0 - ratio))
            && (if x1 < x2 then (x1 - r.x1) + (r.x2 - x2) else (r.x1 - x1) + (x2 - r.x2)) == o
  {
  }

  /** The positions after `prevent_overlap_on_spawn`, before clamping. */
  function SpawnSeparation(x1: real, x2: real, minDistance: real): (p: Positions)
    ensures Abs(x1 - x2) >= minDistance ==> p == Positions(x1, x2)
    ensures Abs(x1 - x2) < minDistance ==> Abs(p.x1 - p.x2) == minDistance
    ensures Abs(x1 - x2) < minDistance ==> p.x1 - x1 == x2 - p.x2
    // each player moves away from the other by half the shortfall, so nobody changes sides
    ensures Abs(x1 - x2) < minDistance ==> (x1 < x2 <==> p.x1 < p.x2)
    ensures Abs(x1 - x2) < minDistance ==> Abs(p.x1 - x1) == (minDistance - Abs(x1 - x2)) / 2.0
  {
    var distance := Abs(x1 - x2);
    if distance < minDistance then
      var shortage := minDistance - distance;
      if x1 < x2 then Positions(x1 - shortage / 2.0, x2 + shortage / 2.0)
      else Positions(x1 + shortage / 2.0, x2 - shortage / 2.0)
    else Positions(x1, x2)
  }

  /**
   * With the default gap and margin, two players spawned at least half a gap
   * inside the margins are never clamped: a pair that is too close ends
   * exactly the default gap apart, each on its own side.
   */
  lemma DefaultSpawnKeepsGap(x1: real, x2: real)
    requires DefaultMargin + DefaultMinDistance / 2.0 <= x1 <= WindowWidth - DefaultMargin - DefaultMinDistance / 2.0
    requires DefaultMargin + DefaultMinDistance / 2.0 <= x2 <= WindowWidth - DefaultMargin - DefaultMinDistance / 2.0
    requires Abs(x1 - x2) < DefaultMinDistance
    ensures var p := SpawnSeparation(x1, x2, DefaultMinDistance);
            && ClampPosition(p.x1, DefaultMargin) == p.x1 && ClampPosition(p.x2, DefaultMargin) == p.x2
            && Abs(p.x1 - p.x2) == DefaultMinDistance
            && (x1 < x2 <==> p.x1 < p.x2)
  {
    var p := SpawnSeparation(x1, x2, DefaultMinDistance);
    assert Abs(p.x1 - x1) <= DefaultMinDistance / 2.0;
    assert Abs(p.x2 - x2) <= DefaultMinDistance / 2.0;
  }

  function Abs(r: real): real { if r < 0.0 then -r else r }

  /** An object with an x position and the flags the resolver reads. */
  class Body {
    var x: real
    var isHit: bool
    var isGrounded: bool
    var isAttacking: bool

    /** A body with the resolver's defaults for the flags. */
    constructor (x0: real)
      ensures x == x0 && !isHit && isGrounded && !isAttacking
    {
      x := x0;
      isHit, isGrounded, isAttacking := false, true, false;
    }

    function GetFlags(): Flags
      reads this
    {
      Flags(isHit, isGrounded, isAttacking)
    }
  }

  /** `check_player_collision`: no collision unless both players exist and their boxes collide. */
  function CheckPlayerCollision(player1: Body?, player2: Body?, bb1: Box, bb2: Box): (c: bool)
    ensures c <==> player1 != null && player2 != null && CheckAabbCollision(bb1, bb2)
  {
    if player1 == null || player2 == null then false else CheckAabbCollision(bb1, bb2)
  }

  /** `clamp_to_screen`: only x changes, and only when it is outside the margins. */
  method ClampToScreen(player: Body?, margin: real)
    modifies player
    ensures player != null ==> player.x == ClampPosition(old(player.x), margin)
    ensures player != null ==> player.GetFlags() == old(player.GetFlags())
  {
    if player == null {
      return;
    }
    ClampBody(player, margin);
  }

  /** `clamp_to_screen` on a present player: only x changes. */
  method ClampBody(player: Body, margin: real)
    modifies player`x
    ensures player.x == ClampPosition(old(player.x), margin)
  {
    if player.x < margin {
      player.x := margin;
    } else if player.x > WindowWidth - margin {
      player.x := WindowWidth - margin;
    }
  }

  /**
   * `resolve_player_collision` for the boxes `bb1`, `bb2` that the two players
   * report.
   */
  method ResolvePlayerCollision(player1: Body?, player2: Body?, bb1: Box, bb2: Box)
    modifies player1, player2
    ensures player1 != null && player2 != null && player1 != player2 ==>
              Positions(player1.x, player2.x)
              == ResolvedPositions(old(player1.x), old(player2.x), old(player1.GetFlags()), old(player2.GetFlags()),
                                   bb1, bb2)
    ensures player1 != null ==> player1.GetFlags() == old(player1.GetFlags())
    ensures player2 != null ==> player2.GetFlags() == old(player2.GetFlags())
    ensures player1 == null && player2 != null ==> unchanged(player2)
    ensures player2 == null && player1 != null ==> unchanged(player1)
  {
    if player1 == null || player2 == null {
      return;
    }
    ResolveBodies(player1, player2, bb1, bb2);
  }

  /** `resolve_player_collision` past its check that both players exist: only the x positions change. */
  method ResolveBodies(player1: Body, player2: Body, bb1: Box, bb2: Box)
    modifies player1`x, player2`x
    ensures player1 != player2 ==>
              Positions(player1.x, player2.x)
              == ResolvedPositions(old(player1.x), old(player2.x), player1.GetFlags(), player2.GetFlags(), bb1, bb2)
  {
    if !CheckAabbCollision(bb1, bb2) {
      return;
    }
    var overlap := GetOverlap(bb1, bb2);
    if overlap.x <= 0.0 || overlap.y <= 0.0 {
      return;
    }
    var player1IsHit, player2IsHit := player1.isHit, player2.isHit;
    var player1IsAirborne, player2IsAirborne := !player1.isGrounded, !player2.isGrounded;
    ghost var r := Resolve(player1.x, player2.x, player1.GetFlags(), player2.GetFlags(), bb1, bb2);
    if (player1IsHit && player2IsHit) || (player1IsAirborne && player2IsAirborne) {
      return;
    }
    var x1, x2 := player1.x, player2.x;
    if player1IsHit || player1IsAirborne {
      var target := if x1 < x2 then x2 + overlap.x else x2 - overlap.x;
      assert r == PushSecond(target);
      PlaceBody(player2, target);
      return;
    }
    if player2IsHit || player2IsAirborne {
      var target := if x1 < x2 then x1 - overlap.x else x1 + overlap.x;
      assert r == PushFirst(target);
      PlaceBody(player1, target);
      return;
    }
    var pushDistance := overlap.x / 2.0;
    var pushRatio := PushRatio(player1.isAttacking, player2.isAttacking);
    var target1, target2;
    if x1 < x2 {
      target1, target2 := x1 - pushDistance * pushRatio * 2.0, x2 + pushDistance * (1.0 - pushRatio) * 2.0;
    } else {
      target1, target2 := x1 + pushDistance * pushRatio * 2.0, x2 - pushDistance * (1.0 - pushRatio) * 2.0;
    }
    assert r == PushBoth(target1, target2);
    PlaceBody(player1, target1);
    PlaceBody(player2, target2);
  }

  /** One push of `resolve_player_collision`: the player moves to the target, then is kept on screen. */
  method PlaceBody(player: Body, target: real)
    modifies player`x
    ensures player.x == ClampPosition(target, DefaultMargin)
  {
    player.x := target;
    ClampBody(player, DefaultMargin);
  }

  /**
   * `safe_move_player`: moves the player to the clamped target, resolves a
   * collision with the other player, and returns the player's final x (0
   * without a player). `bb` and `otherBb` are the boxes the two players
   * report once the player stands at the clamped target.
   */
  method SafeMovePlayer(player: Body?, newX: real, otherPlayer: Body?, margin: real, bb: Box, otherBb: Box)
    returns (finalX: real)
    modifies player, otherPlayer
    ensures player == null ==> finalX == 0.0
    ensures player != null ==> finalX == player.x
    ensures player != null && otherPlayer != player && !CheckPlayerCollision(player, otherPlayer, bb, otherBb) ==>
              finalX == ClampPosition(newX, margin)
    ensures player != null && otherPlayer != null && otherPlayer != player
            && CheckAabbCollision(bb, otherBb) ==>
              Positions(player.x, otherPlayer.x)
              == ResolvedPositions(ClampPosition(newX, margin), old(otherPlayer.x),
                                   old(player.GetFlags()), old(otherPlayer.GetFlags()), bb, otherBb)
    ensures player != null && otherPlayer != null && otherPlayer != player && !CheckAabbCollision(bb, otherBb) ==>
              otherPlayer.x == old(otherPlayer.x)
    ensures player == null && otherPlayer != null ==> unchanged(otherPlayer)
    ensures player != null ==> player.GetFlags() == old(player.GetFlags())
    ensures otherPlayer != null ==> otherPlayer.GetFlags() == old(otherPlayer.GetFlags())
  {
    if player == null {
      return 0.0;
    }
    player.x := ClampPosition(newX, margin);
    if otherPlayer != null && CheckPlayerCollision(player, otherPlayer, bb, otherBb) {
      ResolvePlayerCollision(player, otherPlayer, bb, otherBb);
      return player.x;
    }
    return player.x;
  }

  /**
   * `prevent_overlap_on_spawn`: players closer than `minDistance` are each
   * moved apart by half the shortfall, then clamped with the default margin.
   */
  method PreventOverlapOnSpawn(player1: Body?, player2: Body?, minDistance: real := DefaultMinDistance)
    modifies player1, player2
    ensures player1 != null && player2 != null && player1 != player2 ==>
              var p := SpawnSeparation(old(player1.x), old(player2.x), minDistance);
              if Abs(old(player1.x) - old(player2.x)) < minDistance
              then player1.x == ClampPosition(p.x1, DefaultMargin) && player2.x == ClampPosition(p.x2, DefaultMargin)
              else player1.x == old(player1.x) && player2.x == old(player2.x)
    ensures player1 != null ==> player1.GetFlags() == old(player1.GetFlags())
    ensures player2 != null ==> player2.GetFlags() == old(player2.GetFlags())
    ensures player1 == null && player2 != null ==> unchanged(player2)
    ensures player2 == null && player1 != null ==> unchanged(player1)
  {
    if player1 == null || player2 == null {
      return;
    }
    var distance := Abs(player1.x - player2.x);
    if distance < minDistance {
      var shortage := minDistance - distance;
      if player1.x < player2.x {
        player1.x := player1.x - shortage / 2.0;
        player2.x := player2.x + shortage / 2.0;
      } else {
        player1.x := player1.x + shortage / 2.0;
        player2.x := player2.x - shortage / 2.0;
      }
      ClampToScreen(player1, DefaultMargin);
      ClampToScreen(player2, DefaultMargin);
    }
  }
}
