// SpriteManager.py: the earlier sprite manager. It animates player 1 only,
// with one frame time (0.1 s) for every state and sprite lists for just Idle
// (3 frames) and Walk (8 frames); the images are left out and only the
// frame counts kept.

module LegacySpriteManager {
  import opened Common

  /** Seconds per animation frame. */
  const FrameTime: real := 0.1

  /** The frame counts `load_sprites` loads. */
  function SpriteCounts(): (m: map<string, nat>)
    ensures m.Keys == {Idle, Walk} && m[Idle] == 3 && m[Walk] == 8
  {
    map[Idle := 3, Walk := 8]
  }

  predicate PositiveCounts(sprites: map<string, nat>) {
    forall s | s in sprites :: sprites[s] > 0
  }

  /** Player 1's animation clock: state, frame index and accumulated time. */
  datatype Clock = Clock(state: string, frame: nat, timer: real)

  /**
   * One call of `update_player1_state`: a state change restarts the clock;
   * the time is then accumulated, and on reaching a frame time the timer is
   * zeroed and a state with sprites advances one frame.
   */
  function Step(sprites: map<string, nat>, c: Clock, newState: string, deltaTime: real): (r: Clock)
    requires PositiveCounts(sprites)
    ensures r.state == newState
    ensures r.timer < FrameTime
    ensures var start := if c.state == newState then c else Clock(newState, 0, 0.0);
            && (start.timer + deltaTime >= FrameTime ==> r.timer == 0.0)
            && (start.timer + deltaTime < FrameTime ==> r == start.(timer := start.timer + deltaTime))
            && (newState !in sprites ==> r.frame == start.frame)
            && (newState in sprites && start.timer + deltaTime >= FrameTime ==> r.frame == (start.frame + 1) % sprites[newState])
    ensures c.state != newState ==> r.frame <= 1
    ensures newState in sprites && (c.state == newState ==> c.frame < sprites[newState]) ==> r.frame < sprites[newState]
  {
    var start := if c.state != newState then Clock(newState, 0, 0.0) else c;
    var timer := start.timer + deltaTime;
    if timer >= FrameTime then
      // an empty sprite table is falsy in the source, and holds no state either
      if start.state in sprites then Clock(start.state, (start.frame + 1) % sprites[start.state], 0.0)
      else start.(timer := 0.0)
    else start.(timer := timer)
  }

  /** States without sprites (anything but Idle and Walk) never leave frame 0. */
  lemma UnknownStateStaysOnFirstFrame(c: Clock, newState: string, deltaTime: real)
    requires newState != Idle && newState != Walk
    requires c.state == newState ==> c.frame == 0
    ensures Step(SpriteCounts(), c, newState, deltaTime).frame == 0
  {
  }

  /** A walk cycle is eight frame-time calls long: the eighth advance returns to frame 0. */
  lemma WalkWrapsAfterEight(c: Clock)
    requires c.state == Walk && c.frame == 7 && c.timer >= 0.0
    ensures Step(SpriteCounts(), c, Walk, FrameTime).frame == 0
  {
  }

  class SpriteManager {
    /** The sprite frame counts per state; empty until `load_sprites`. */
    var player1Sprite: map<string, nat>
    var player1State: string
    var player1Frame: nat
    var frameTimer: real
    var player1X: int
    var player1Y: int
    var player1Dir: int

    function Clock1(): Clock
      reads this
    {
      Clock(player1State, player1Frame, frameTimer)
    }

    constructor ()
      ensures player1Sprite == map[]
      ensures Clock1() == Clock(Idle, 0, 0.0)
      ensures player1X == 400 && player1Y == 300 && player1Dir == -1
    {
      player1Sprite := map[];
      player1State, player1Frame, frameTimer := Idle, 0, 0.0;
      player1X, player1Y, player1Dir := 400, 300, -1;
    }

    /** `load_sprites`, keeping only the number of images per state. */
    method LoadSprites()
      modifies this`player1Sprite
      ensures player1Sprite == SpriteCounts() && PositiveCounts(player1Sprite)
    {
      player1Sprite := map[Idle := 3, Walk := 8];
    }

    /** `update_player1_state`. */
    method UpdatePlayer1State(newState: string, deltaTime: real)
      requires PositiveCounts(player1Sprite)
      modifies this`player1State, this`player1Frame, this`frameTimer
      ensures Clock1() == Step(player1Sprite, old(Clock1()), newState, deltaTime)
    {
      if player1State != newState {
        player1State := newState;
        player1Frame := 0;
        frameTimer := 0.0;
      }
      frameTimer := frameTimer + deltaTime;
      if frameTimer >= FrameTime {
        frameTimer := 0.0;
        if player1State in player1Sprite {
          var spriteCount := player1Sprite[player1State];
          player1Frame := (player1Frame + 1) % spriteCount;
        }
      }
    }

    /** `update_player1_position`: only the stored position changes. */
    method UpdatePlayer1Position(x: int, y: int)
      modifies this`player1X, this`player1Y
      ensures player1X == x && player1Y == y
    {
      player1X := x;
      player1Y := y;
    }

    /** `update_player1_direction`: only the stored direction changes. */
    method UpdatePlayer1Direction(direction: int)
      modifies this`player1Dir
      ensures player1Dir == direction
    {
      player1Dir := direction;
    }
  }
}
