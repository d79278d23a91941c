// Shared vocabulary of the game: optional values, keyboard events, the
// character-type names and the animation-state labels, which the Python
// source passes around as plain strings.

module Common {

  datatype Option<T> = None | Some(value: T)

  /** The keys the game reacts to; every other key code is `OtherKey`. */
  datatype Key =
    | KeyW | KeyS | KeyA | KeyD | KeyF | KeyG | KeyH
    | ArrowUp | ArrowDown | ArrowLeft | ArrowRight
    | KeyLCtrl | KeyRCtrl | KeyLShift | KeyRShift | KeyKp3
    | KeySpace | KeyReturn | KeyEscape | Key1 | Key2 | Key3
    | OtherKey(code: int)

  /** One entry of the event list polled each frame. */
  datatype Event = KeyDown(key: Key) | KeyUp(key: Key) | OtherEvent

  // Character types.
  const Priest: string := "priest"
  const Thief: string := "thief"
  const Fighter: string := "fighter"

  predicate IsKnownCharacter(t: string) {
    t == Priest || t == Thief || t == Fighter
  }

  // Animation-state labels.
  const Idle: string := "Idle"
  const Walk: string := "Walk"
  const BackWalk: string := "BackWalk"
  const FastMiddleATK: string := "fastMiddleATK"
  const FastMiddleATK2: string := "fastMiddleATK2"
  const FastMiddleATK3: string := "fastMiddleATK3"
  const FastLowerATK: string := "fastLowerATK"
  const FastUpperATK: string := "fastUpperATK"
  const StrongMiddleATK: string := "strongMiddleATK"
  const StrongMiddleATK2: string := "strongMiddleATK2"
  const StrongUpperATK: string := "strongUpperATK"
  const StrongUpperATK2: string := "strongUpperATK2"
  const StrongLowerATK: string := "strongLowerATK"
  const RageSkill: string := "rageSkill"

  // Movement-input labels.
  const Up: string := "up"
  const Down: string := "down"
  const Left: string := "left"
  const Right: string := "right"

  /** The states that loop forever and never raise "animation complete". */
  predicate IsCycleState(s: string) {
    s == Idle || s == Walk || s == BackWalk
  }

  // --- ASCII lower-casing and substring search (Python's `str.lower()` and `in`) ---

  function LowerChar(c: char): char {
    if 'A' <= c <= 'Z' then (c as int + 32) as char else c
  }

  function Lower(s: string): (r: string)
    ensures |r| == |s|
    ensures forall i :: 0 <= i < |s| ==> r[i] == LowerChar(s[i])
  {
    seq(|s|, i requires 0 <= i < |s| => LowerChar(s[i]))
  }

  predicate OccursAt(s: string, part: string, i: int) {
    0 <= i && i + |part| <= |s| && s[i..i + |part|] == part
  }

  /** `part in s` for Python strings. */
  predicate Contains(s: string, part: string) {
    exists i | 0 <= i <= |s| :: OccursAt(s, part, i)
  }

  /** A string none of whose characters is the first character of `part` does not contain `part`. */
  lemma NotContainedWithoutFirstChar(s: string, part: string)
    requires |part| > 0
    requires forall i :: 0 <= i < |s| ==> s[i] != part[0]
    ensures !Contains(s, part)
  {
    forall i | 0 <= i <= |s| ensures !OccursAt(s, part, i) {
      if i + |part| <= |s| {
        assert s[i..i + |part|][0] == s[i];
      }
    }
  }
}
