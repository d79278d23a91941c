// player/PlayerLeft.py: the earlier left-hand player. It backs off one unit
// a tick, advances three, and can stand in the fast middle attack; Python
// subclassing becomes methods over the legacy `Player` object.

module LegacyPlayerLeft {
  import opened Common
  import opened LegacyPlayer

  /** One `PlayerLeft.update`. */
  function Step(x: int, inputDir: Option<string>): (r: Motion)
    ensures r.x == x + Shift(inputDir, -1, 3)
    ensures inputDir == Some(Left) <==> r.state == BackWalk
    ensures inputDir == Some(Right) <==> r.state == Walk
    ensures inputDir == Some(FastMiddleATK) <==> r.state == FastMiddleATK
    ensures r.state == Idle <==> inputDir !in {Some(Left), Some(Right), Some(FastMiddleATK)}
  {
    if inputDir == Some(Left) then Motion(x - 1, BackWalk)
    else if inputDir == Some(Right) then Motion(x + 3, Walk)
    else if inputDir == Some(FastMiddleATK) then Motion(x, FastMiddleATK)
    else Motion(x, Idle)
  }

  /** `initialize`: face right. */
  method Initialize(p: Player)
    modifies p`dir
    ensures p.dir == -1
  {
    p.dir := -1;
  }

  /** `update`: only `x` and `state` change. */
  method Update(p: Player, deltaTime: real, inputDir: Option<string>)
    modifies p`x, p`state
    ensures Motion(p.x, p.state) == Step(old(p.x), inputDir)
  {
    if inputDir == Some(Left) {
      p.x := p.x - 1;
      p.state := BackWalk;
    } else if inputDir == Some(Right) {
      p.x := p.x + 3;
      p.state := Walk;
    } else if inputDir == Some(FastMiddleATK) {
      p.state := FastMiddleATK;
    } else {
      p.state := Idle;
    }
  }
}
