// Character/character.py: the archetype object a player owns. It carries the
// archetype name, a copy of the owner's position and state, and the
// per-archetype move speed.

module Character {
  import opened Common

  /** The `move_speeds` table of the source, in pixels per second. */
  function MoveSpeeds(): map<string, real> {
    map[Priest := 250.0, Thief := 300.0, Fighter := 300.0]
  }

  /** `move_speeds.get(t, 200.0)`: the speed of archetype `t`. */
  function MoveSpeedOf(t: string): (speed: real)
    ensures t == Priest ==> speed == 250.0
    ensures t == Thief || t == Fighter ==> speed == 300.0
    ensures !IsKnownCharacter(t) ==> speed == 200.0
    ensures speed == 200.0 || speed == 250.0 || speed == 300.0
  {
    var speeds := MoveSpeeds();
    if t in speeds then speeds[t] else 200.0
  }

  class Character {
    var currentCharacter: string
    var frame: int
    var x: real
    var y: real
    var state: string

    constructor (characterType: string)
      ensures currentCharacter == characterType
      ensures frame == 0 && x == 400.0 && y == 300.0 && state == Idle
    {
      currentCharacter := characterType;
      frame := 0;
      x, y := 400.0, 300.0;
      state := Idle;
    }

    /** The per-archetype initialisation hook is empty for every archetype. */
    method Initialize()
      ensures unchanged(this)
    {
    }

    /** The per-archetype update hook is empty for every archetype. */
    method Update(deltaTime: real)
      ensures unchanged(this)
    {
    }

    method SetCharacterType(characterType: string)
      modifies this`currentCharacter
      ensures GetCharacterType() == characterType
    {
      currentCharacter := characterType;
      Initialize();
    }

    function GetCharacterType(): (t: string)
      reads this
      ensures t == currentCharacter
    {
      currentCharacter
    }

    function GetMoveSpeed(): (speed: real)
      reads this
      ensures currentCharacter == Priest ==> speed == 250.0
      ensures currentCharacter == Thief || currentCharacter == Fighter ==> speed == 300.0
      ensures !IsKnownCharacter(currentCharacter) ==> speed == 200.0
    {
      MoveSpeedOf(currentCharacter)
    }
  }
}
