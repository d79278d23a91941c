// player/Player.py: the earlier player. It walks five units a tick left or
// right and stands idle otherwise; `y` and `dir` are never changed by
// `update`, and the time step is ignored.

module LegacyPlayer {
  import opened Common

  /** The part of the player `update` writes. */
  datatype Motion = Motion(x: int, state: string)

  /** The x change of one `update` for a given input. */
  function Shift(inputDir: Option<string>, left: int, right: int): int {
    if inputDir == Some(Left) then left else if inputDir == Some(Right) then right else 0
  }

  /** One `Player.update`: left and right move five units and walk; anything else idles in place. */
  function Step(x: int, inputDir: Option<string>): (r: Motion)
    ensures r.x == x + Shift(inputDir, -5, 5)
    ensures r.state == Walk <==> inputDir == Some(Left) || inputDir == Some(Right)
    ensures r.state != Walk ==> r == Motion(x, Idle)
  {
    if inputDir == Some(Left) then Motion(x - 5, Walk)
    else if inputDir == Some(Right) then Motion(x + 5, Walk)
    else Motion(x, Idle)
  }

  /** The number of entries equal to `d`. */
  function Count(inputs: seq<Option<string>>, d: string): nat {
    if inputs == [] then 0 else Count(inputs[..|inputs| - 1], d) + (if inputs[|inputs| - 1] == Some(d) then 1 else 0)
  }

  /** The x after one `update` per input, in order. */
  function Run(x: int, inputs: seq<Option<string>>): int {
    if inputs == [] then x else Step(Run(x, inputs[..|inputs| - 1]), inputs[|inputs| - 1]).x
  }

  /** Over any run the player ends five units right per right input and five left per left input. */
  lemma {:induction false} RunDisplacement(x: int, inputs: seq<Option<string>>)
    ensures Run(x, inputs) == x + 5 * (Count(inputs, Right) - Count(inputs, Left))
    decreases |inputs|
  {
    if inputs != [] {
      RunDisplacement(x, inputs[..|inputs| - 1]);
    }
  }

  class Player {
    var x: int
    var y: int
    var dir: int
    var state: string

    /** At (400, 300), facing right (`dir` -1), idle. */
    constructor ()
      ensures x == 400 && y == 300 && dir == -1 && state == Idle
    {
      x, y := 400, 300;
      dir := -1;
      state := Idle;
    }

    /** `update`: only `x` and `state` change. */
    method Update(deltaTime: real, inputDir: Option<string>)
      modifies this`x, this`state
      ensures Motion(x, state) == Step(old(x), inputDir)
    {
      if inputDir == Some(Left) {
        x := x - 5;
        state := Walk;
      } else if inputDir == Some(Right) {
        x := x + 5;
        state := Walk;
      } else {
        state := Idle;
      }
    }
  }
}
