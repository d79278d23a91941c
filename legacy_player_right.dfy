// player/PlayerRight.py: the earlier right-hand player, the mirror image of
// the left one: it advances three units leftwards and backs off one unit
// rightwards. Its constructor is not modelled (see README).

module LegacyPlayerRight {
  import opened Common
  import opened LegacyPlayer
  import LegacyPlayerLeft

  /** One `PlayerRight.update`. */
  function Step(x: int, inputDir: Option<string>): (r: Motion)
    ensures r.x == x + Shift(inputDir, -3, 1)
    ensures inputDir == Some(Left) <==> r.state == Walk
    ensures inputDir == Some(Right) <==> r.state == BackWalk
    ensures inputDir == Some(FastMiddleATK) <==> r.state == FastMiddleATK
    ensures r.state == Idle <==> inputDir !in {Some(Left), Some(Right), Some(FastMiddleATK)}
  {
    if inputDir == Some(Left) then Motion(x - 3, Walk)
    else if inputDir == Some(Right) then Motion(x + 1, BackWalk)
    else if inputDir == Some(FastMiddleATK) then Motion(x, FastMiddleATK)
    else Motion(x, Idle)
  }

  /** Left and right exchanged; other inputs unchanged. */
  function Mirror(inputDir: Option<string>): Option<string> {
    if inputDir == Some(Left) then Some(Right) else if inputDir == Some(Right) then Some(Left) else inputDir
  }

  /** The right player is the left player reflected about x = 0, with left and right exchanged. */
  lemma MirrorsLeftPlayer(x: int, inputDir: Option<string>)
    ensures var l := LegacyPlayerLeft.Step(-x, Mirror(inputDir));
            Step(x, inputDir) == Motion(-l.x, l.state)
  {
  }

  /** `initialize`: face left. */
  method Initialize(p: Player)
    modifies p`dir
    ensures p.dir == 1
  {
    p.dir := 1;
  }

  /** `update`: only `x` and `state` change. */
  method Update(p: Player, deltaTime: real, inputDir: Option<string>)
    modifies p`x, p`state
    ensures Motion(p.x, p.state) == Step(old(p.x), inputDir)
  {
    if inputDir == Some(Left) {
      p.x := p.x - 3;
      p.state := Walk;
    } else if inputDir == Some(Right) {
      p.x := p.x + 1;
      p.state := BackWalk;
    } else if inputDir == Some(FastMiddleATK) {
      p.state := FastMiddleATK;
    } else {
      p.state := Idle;
    }
  }
}
