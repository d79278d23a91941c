// ioManager.py: keyboard input of both players. Each player has a map of
// held keys, updated in event order; the handlers then read the held keys
// in a fixed priority order to produce a move direction, an attack, a
// stance, a get-up request or a combo tag. A combo flag is raised by an
// attack-key press and consumed by the next combo check.

module IOManager {
  import opened Common

  // Names of the held-key entries of player 1.
  const NameW: string := "w"
  const NameS: string := "s"
  const NameA: string := "a"
  const NameD: string := "d"
  const NameF: string := "f"
  const NameG: string := "g"
  const NameH: string := "h"
  // Names of the held-key entries of player 2 (the arrows reuse the direction labels).
  const NameCtrl: string := "ctrl"
  const NameShift: string := "shift"
  const NameThree: string := "three"

  // Combo tags returned by the combo checks.
  const FastMiddleCombo: string := "fastMiddleATK_combo"
  const StrongMiddleCombo: string := "strongMiddleATK_combo"
  const StrongUpperCombo: string := "strongUpperATK_combo"

  /** The held-key entries of each player, all released. */
  function Player1Released(): map<string, bool> {
    map[NameW := false, NameS := false, NameA := false, NameD := false,
        NameF := false, NameG := false, NameH := false]
  }

  function Player2Released(): map<string, bool> {
    map[Up := false, Down := false, Left := false, Right := false,
        NameCtrl := false, NameShift := false, NameThree := false]
  }

  // Which key writes which held-key entry, per handler.
  function MoveBinding1(): map<Key, string> {
    map[KeyW := NameW, KeyS := NameS, KeyA := NameA, KeyD := NameD]
  }

  function AttackBinding1(): map<Key, string> {
    map[KeyF := NameF, KeyG := NameG, KeyH := NameH]
  }

  function MoveBinding2(): map<Key, string> {
    map[ArrowUp := Up, ArrowDown := Down, ArrowLeft := Left, ArrowRight := Right]
  }

  function AttackBinding2(): map<Key, string> {
    map[KeyLCtrl := NameCtrl, KeyRCtrl := NameCtrl, KeyLShift := NameShift, KeyRShift := NameShift,
        KeyKp3 := NameThree]
  }

  /** The keys whose press raises the combo flag of each player. */
  function ComboKeys1(): set<Key> {
    {KeyF, KeyG}
  }

  function ComboKeys2(): set<Key> {
    {KeyLCtrl, KeyRCtrl, KeyLShift, KeyRShift}
  }

  /** Every key of `binding` writes an entry that `keys` already holds. */
  predicate Covers(keys: map<string, bool>, binding: map<Key, string>) {
    forall k | k in binding :: binding[k] in keys
  }

  /** One event applied to the held keys: a bound key is set on press and cleared on release. */
  function ApplyEvent(keys: map<string, bool>, binding: map<Key, string>, e: Event): map<string, bool> {
    match e
    case KeyDown(k) => if k in binding then keys[binding[k] := true] else keys
    case KeyUp(k) => if k in binding then keys[binding[k] := false] else keys
    case OtherEvent => keys
  }

  /** The held keys after the events, applied in order. */
  function KeysAfter(keys: map<string, bool>, binding: map<Key, string>, events: seq<Event>): (r: map<string, bool>)
    ensures Covers(keys, binding) ==> r.Keys == keys.Keys
    decreases |events|
  {
    if events == [] then keys
    else ApplyEvent(KeysAfter(keys, binding, events[..|events| - 1]), binding, events[|events| - 1])
  }

  /** The last press (true) or release (false) in `events` of a key bound to `name`, if any. */
  function LastPress(binding: map<Key, string>, events: seq<Event>, name: string): Option<bool>
    decreases |events|
  {
    if events == [] then None
    else
      var e := events[|events| - 1];
      if e.KeyDown? && e.key in binding && binding[e.key] == name then Some(true)
      else if e.KeyUp? && e.key in binding && binding[e.key] == name then Some(false)
      else LastPress(binding, events[..|events| - 1], name)
  }

  /**
   * Each held flag equals the last press or release of its key in the event
   * list; a key with no event keeps its previous value.
   */
  lemma {:induction false} HeldIsLastPress(keys: map<string, bool>, binding: map<Key, string>,
                                           events: seq<Event>, name: string)
    requires Covers(keys, binding) && name in keys
    ensures name in KeysAfter(keys, binding, events)
    ensures KeysAfter(keys, binding, events)[name]
            == match LastPress(binding, events, name) case Some(b) => b case None => keys[name]
    decreases |events|
  {
    if events != [] {
      HeldIsLastPress(keys, binding, events[..|events| - 1], name);
    }
  }

  /** Some event of the list presses one of `comboKeys`. */
  predicate ComboPressed(comboKeys: set<Key>, events: seq<Event>) {
    exists i | 0 <= i < |events| :: events[i].KeyDown? && events[i].key in comboKeys
  }

  /** One more event raises the combo flag exactly when it presses a combo key. */
  lemma ComboPressedExtend(comboKeys: set<Key>, events: seq<Event>, e: Event)
    ensures ComboPressed(comboKeys, events + [e]) <==> ComboPressed(comboKeys, events) || (e.KeyDown? && e.key in comboKeys)
  {
    var all := events + [e];
    if ComboPressed(comboKeys, events) {
      var i :| 0 <= i < |events| && events[i].KeyDown? && events[i].key in comboKeys;
      assert all[i] == events[i];
    }
    if e.KeyDown? && e.key in comboKeys {
      assert all[|events|] == e;
    }
    if ComboPressed(comboKeys, all) {
      var i :| 0 <= i < |all| && all[i].KeyDown? && all[i].key in comboKeys;
      if i < |events| {
        assert events[i] == all[i];
      }
    }
  }

  /** The move direction from the held keys, in priority order up, down, left, right. */
  function Direction(up: bool, down: bool, left: bool, right: bool): (d: Option<string>)
    ensures d == Some(Up) <==> up
    ensures d == Some(Down) <==> !up && down
    ensures d == Some(Left) <==> !up && !down && left
    ensures d == Some(Right) <==> !up && !down && !left && right
    ensures d == None <==> !up && !down && !left && !right
  {
    if up then Some(Up)
    else if down then Some(Down)
    else if left then Some(Left)
    else if right then Some(Right)
    else None
  }

  /**
   * The attack from the held attack keys and the vertical keys: the fast key
   * beats the strong key, and up selects Upper, else down Lower, else Middle.
   */
  function Attack(fast: bool, strong: bool, up: bool, down: bool): (a: Option<string>)
    ensures a == None <==> !fast && !strong
    ensures a.Some? ==> IsAttackLabel(a.value) && a.value != RageSkill
    ensures fast ==> a.Some? && IsFastLabel(a.value)
    ensures !fast && strong ==> a.Some? && IsStrongLabel(a.value)
    ensures a.Some? ==> (a.value in {FastUpperATK, StrongUpperATK} <==> up)
    ensures a.Some? ==> (a.value in {FastLowerATK, StrongLowerATK} <==> !up && down)
  {
    if fast then
      if up then Some(FastUpperATK) else if down then Some(FastLowerATK) else Some(FastMiddleATK)
    else if strong then
      if up then Some(StrongUpperATK) else if down then Some(StrongLowerATK) else Some(StrongMiddleATK)
    else None
  }

  predicate IsFastLabel(a: string) {
    a == FastUpperATK || a == FastLowerATK || a == FastMiddleATK
  }

  predicate IsStrongLabel(a: string) {
    a == StrongUpperATK || a == StrongLowerATK || a == StrongMiddleATK
  }

  predicate IsAttackLabel(a: string) {
    IsFastLabel(a) || IsStrongLabel(a) || a == RageSkill
  }

  /** Player 1's attack: the rage key wins over every other key. */
  function Attack1(rage: bool, fast: bool, strong: bool, up: bool, down: bool): (a: Option<string>)
    ensures rage ==> a == Some(RageSkill)
    ensures !rage ==> a == Attack(fast, strong, up, down)
    ensures a == Some(RageSkill) <==> rage
  {
    if rage then Some(RageSkill) else Attack(fast, strong, up, down)
  }

  /**
   * The combo tag for the current attack state: the middle attacks need
   * their attack key with no vertical key, the strong upper attack needs the
   * strong key with up.
   */
  function ComboTag(fast: bool, strong: bool, up: bool, down: bool, currentState: string): (tag: Option<string>)
    ensures tag == Some(FastMiddleCombo) <==>
              (currentState == FastMiddleATK || currentState == FastMiddleATK2) && fast && !up && !down
    ensures tag == Some(StrongMiddleCombo) <==> currentState == StrongMiddleATK && strong && !up && !down
    ensures tag == Some(StrongUpperCombo) <==> currentState == StrongUpperATK && strong && up
    ensures tag.Some? ==> tag.value in {FastMiddleCombo, StrongMiddleCombo, StrongUpperCombo}
  {
    if currentState == FastMiddleATK || currentState == FastMiddleATK2 then
      if fast && !up && !down then Some(FastMiddleCombo) else None
    else if currentState == StrongMiddleATK then
      if strong && !up && !down then Some(StrongMiddleCombo) else None
    else if currentState == StrongUpperATK then
      if strong && up then Some(StrongUpperCombo) else None
    else None
  }

  /** The stance from the vertical keys. */
  function Stance(up: bool, down: bool): (s: string)
    ensures s == "High" <==> up
    ensures s == "Low" <==> !up && down
    ensures s == "Middle" <==> !up && !down
  {
    if up then "High" else if down then "Low" else "Middle"
  }

  /** The character chosen by the first press of 1, 2 or 3 in the events, if any. */
  function FirstCharacterChoice(events: seq<Event>): (c: Option<string>)
    ensures c.Some? ==> IsKnownCharacter(c.value)
    ensures c.None? <==> forall i | 0 <= i < |events| :: events[i] !in {KeyDown(Key1), KeyDown(Key2), KeyDown(Key3)}
  {
    if events == [] then None
    else if events[0] == KeyDown(Key1) then Some(Priest)
    else if events[0] == KeyDown(Key2) then Some(Thief)
    else if events[0] == KeyDown(Key3) then Some(Fighter)
    else
      var rest := FirstCharacterChoice(events[1..]);
      assert forall i | 1 <= i < |events| :: events[i] == events[1..][i - 1];
      rest
  }

  /** A press of a character key: 1, 2 or 3. */
  predicate IsChoicePress(e: Event) {
    e == KeyDown(Key1) || e == KeyDown(Key2) || e == KeyDown(Key3)
  }

  /**
   * The first press of 1, 2 or 3 decides the choice, and the keys give priest,
   * thief and fighter; every event before it and after it is ignored.
   */
  lemma {:induction false} FirstChoiceDecides(events: seq<Event>, i: nat)
    requires i < |events| && IsChoicePress(events[i])
    requires forall j | 0 <= j < i :: !IsChoicePress(events[j])
    ensures events[i] == KeyDown(Key1) ==> FirstCharacterChoice(events) == Some(Priest)
    ensures events[i] == KeyDown(Key2) ==> FirstCharacterChoice(events) == Some(Thief)
    ensures events[i] == KeyDown(Key3) ==> FirstCharacterChoice(events) == Some(Fighter)
    decreases i
  {
    if i > 0 {
      assert !IsChoicePress(events[0]);
      assert forall j | 0 <= j < i - 1 :: events[1..][j] == events[j + 1];
      FirstChoiceDecides(events[1..], i - 1);
    }
  }

  class IOManager {
    var player1Keys: map<string, bool>
    var player2Keys: map<string, bool>
    var player1ComboInput: bool
    var player2ComboInput: bool

    /** Each player's map holds exactly its seven entries. */
    predicate Valid()
      reads this
    {
      player1Keys.Keys == Player1Released().Keys && player2Keys.Keys == Player2Released().Keys
    }

    function Held1(name: string): bool
      reads this
    {
      name in player1Keys && player1Keys[name]
    }

    function Held2(name: string): bool
      reads this
    {
      name in player2Keys && player2Keys[name]
    }

    constructor ()
      ensures Valid()
      ensures player1Keys == Player1Released() && player2Keys == Player2Released()
      ensures !player1ComboInput && !player2ComboInput
    {
      player1Keys := Player1Released();
      player2Keys := Player2Released();
      player1ComboInput, player2ComboInput := false, false;
    }

    /** `handleSpaceInput`: some event presses the space key. */
    method HandleSpaceInput(events: seq<Event>) returns (pressed: bool)
      ensures pressed <==> KeyDown(KeySpace) in events
    {
      for i := 0 to |events|
        invariant KeyDown(KeySpace) !in events[..i]
      {
        if events[i] == KeyDown(KeySpace) {
          return true;
        }
      }
      assert events[..|events|] == events;
      return false;
    }

    /** `checkEscape`: some event presses the escape key. */
    method CheckEscape(events: seq<Event>) returns (quit: bool)
      ensures quit <==> KeyDown(KeyEscape) in events
    {
      for i := 0 to |events|
        invariant KeyDown(KeyEscape) !in events[..i]
      {
        if events[i] == KeyDown(KeyEscape) {
          return true;
        }
      }
      assert events[..|events|] == events;
      return false;
    }

    /** `handleCharacterChangePlayer1`: the first press of 1, 2 or 3 picks priest, thief or fighter. */
    method HandleCharacterChangePlayer1(events: seq<Event>) returns (choice: Option<string>)
      ensures choice == FirstCharacterChoice(events)
    {
      for i := 0 to |events|
        invariant FirstCharacterChoice(events) == FirstCharacterChoice(events[i..])
      {
        assert events[i..][1..] == events[i + 1..];
        if events[i] == KeyDown(Key1) {
          return Some(Priest);
        } else if events[i] == KeyDown(Key2) {
          return Some(Thief);
        } else if events[i] == KeyDown(Key3) {
          return Some(Fighter);
        }
      }
      return None;
    }

    /** `handleMoveInputPlayer1`: apply the w/s/a/d events, then read the direction. */
    method HandleMoveInputPlayer1(events: seq<Event>) returns (direction: Option<string>)
      requires Valid()
      modifies this`player1Keys
      ensures Valid()
      ensures player1Keys == KeysAfter(old(player1Keys), MoveBinding1(), events)
      ensures direction == Direction(Held1(NameW), Held1(NameS), Held1(NameA), Held1(NameD))
    {
      var binding := MoveBinding1();
      for i := 0 to |events|
        invariant player1Keys == KeysAfter(old(player1Keys), binding, events[..i])
      {
        assert events[..i + 1][..i] == events[..i];
        match events[i]
        case KeyDown(k) =>
          if k in binding {
            player1Keys := player1Keys[binding[k] := true];
          }
        case KeyUp(k) =>
          if k in binding {
            player1Keys := player1Keys[binding[k] := false];
          }
        case OtherEvent =>
      }
      assert events[..|events|] == events;
      direction := Direction(player1Keys[NameW], player1Keys[NameS], player1Keys[NameA], player1Keys[NameD]);
    }

    /**
     * `handleATKInputPlayer1`: apply the f/g/h events (a press of f or g raises
     * the combo flag), then read the attack.
     */
    method HandleATKInputPlayer1(events: seq<Event>) returns (attack: Option<string>)
      requires Valid()
      modifies this`player1Keys, this`player1ComboInput
      ensures Valid()
      ensures player1Keys == KeysAfter(old(player1Keys), AttackBinding1(), events)
      ensures player1ComboInput == (old(player1ComboInput) || ComboPressed(ComboKeys1(), events))
      ensures attack == Attack1(Held1(NameH), Held1(NameF), Held1(NameG), Held1(NameW), Held1(NameS))
    {
      var binding := AttackBinding1();
      for i := 0 to |events|
        invariant player1Keys == KeysAfter(old(player1Keys), binding, events[..i])
        invariant player1ComboInput == (old(player1ComboInput) || ComboPressed(ComboKeys1(), events[..i]))
      {
        assert events[..i + 1] == events[..i] + [events[i]];
        ComboPressedExtend(ComboKeys1(), events[..i], events[i]);
        match events[i]
        case KeyDown(k) =>
          if k in binding {
            player1Keys := player1Keys[binding[k] := true];
          }
          if k in ComboKeys1() {
            player1ComboInput := true;
          }
        case KeyUp(k) =>
          if k in binding {
            player1Keys := player1Keys[binding[k] := false];
          }
        case OtherEvent =>
      }
      assert events[..|events|] == events;
      attack := Attack1(player1Keys[NameH], player1Keys[NameF], player1Keys[NameG],
                        player1Keys[NameW], player1Keys[NameS]);
    }

    /** `check_player1_combo_input`: consumes the combo flag and tags the combo. */
    method CheckPlayer1ComboInput(currentState: string) returns (tag: Option<string>)
      requires Valid()
      modifies this`player1ComboInput
      ensures !player1ComboInput
      ensures tag == if old(player1ComboInput)
                     then ComboTag(Held1(NameF), Held1(NameG), Held1(NameW), Held1(NameS), currentState)
                     else None
    {
      if !player1ComboInput {
        return None;
      }
      player1ComboInput := false;
      tag := ComboTag(player1Keys[NameF], player1Keys[NameG], player1Keys[NameW], player1Keys[NameS], currentState);
    }

    /** `handleMoveInputPlayer2`: apply the arrow events, then read the direction. */
    method HandleMoveInputPlayer2(events: seq<Event>) returns (direction: Option<string>)
      requires Valid()
      modifies this`player2Keys
      ensures Valid()
      ensures player2Keys == KeysAfter(old(player2Keys), MoveBinding2(), events)
      ensures direction == Direction(Held2(Up), Held2(Down), Held2(Left), Held2(Right))
    {
      var binding := MoveBinding2();
      for i := 0 to |events|
        invariant player2Keys == KeysAfter(old(player2Keys), binding, events[..i])
      {
        assert events[..i + 1][..i] == events[..i];
        match events[i]
        case KeyDown(k) =>
          if k in binding {
            player2Keys := player2Keys[binding[k] := true];
          }
        case KeyUp(k) =>
          if k in binding {
            player2Keys := player2Keys[binding[k] := false];
          }
        case OtherEvent =>
      }
      assert events[..|events|] == events;
      direction := Direction(player2Keys[Up], player2Keys[Down], player2Keys[Left], player2Keys[Right]);
    }

    /**
     * `handleATKInputPlayer2`: apply the ctrl/shift/keypad-3 events (a press of
     * ctrl or shift raises the combo flag), then read the attack. The keypad-3
     * entry is tracked but never read, so player 2 has no rage skill.
     */
    method HandleATKInputPlayer2(events: seq<Event>) returns (attack: Option<string>)
      requires Valid()
      modifies this`player2Keys, this`player2ComboInput
      ensures Valid()
      ensures player2Keys == KeysAfter(old(player2Keys), AttackBinding2(), events)
      ensures player2ComboInput == (old(player2ComboInput) || ComboPressed(ComboKeys2(), events))
      ensures attack == Attack(Held2(NameCtrl), Held2(NameShift), Held2(Up), Held2(Down))
    {
      var binding := AttackBinding2();
      for i := 0 to |events|
        invariant player2Keys == KeysAfter(old(player2Keys), binding, events[..i])
        invariant player2ComboInput == (old(player2ComboInput) || ComboPressed(ComboKeys2(), events[..i]))
      {
        assert events[..i + 1] == events[..i] + [events[i]];
        ComboPressedExtend(ComboKeys2(), events[..i], events[i]);
        match events[i]
        case KeyDown(k) =>
          if k in binding {
            player2Keys := player2Keys[binding[k] := true];
          }
          if k in ComboKeys2() {
            player2ComboInput := true;
          }
        case KeyUp(k) =>
          if k in binding {
            player2Keys := player2Keys[binding[k] := false];
          }
        case OtherEvent =>
      }
      assert events[..|events|] == events;
      attack := Attack(player2Keys[NameCtrl], player2Keys[NameShift], player2Keys[Up], player2Keys[Down]);
    }

    /** `check_player2_combo_input`: consumes the combo flag and tags the combo. */
    method CheckPlayer2ComboInput(currentState: string) returns (tag: Option<string>)
      requires Valid()
      modifies this`player2ComboInput
      ensures !player2ComboInput
      ensures tag == if old(player2ComboInput)
                     then ComboTag(Held2(NameCtrl), Held2(NameShift), Held2(Up), Held2(Down), currentState)
                     else None
    {
      if !player2ComboInput {
        return None;
      }
      player2ComboInput := false;
      tag := ComboTag(player2Keys[NameCtrl], player2Keys[NameShift], player2Keys[Up], player2Keys[Down], currentState);
    }

    /** `get_player1_position_state`. */
    function GetPlayer1PositionState(): (stance: string)
      reads this
      ensures stance == "High" <==> Held1(NameW)
      ensures stance == "Low" <==> !Held1(NameW) && Held1(NameS)
      ensures stance == "Middle" <==> !Held1(NameW) && !Held1(NameS)
    {
      Stance(Held1(NameW), Held1(NameS))
    }

    /** `get_player2_position_state`. */
    function GetPlayer2PositionState(): (stance: string)
      reads this
      ensures stance == "High" <==> Held2(Up)
      ensures stance == "Low" <==> !Held2(Up) && Held2(Down)
      ensures stance == "Middle" <==> !Held2(Up) && !Held2(Down)
    {
      Stance(Held2(Up), Held2(Down))
    }

    /** `check_player1_getup_input`: any of the four movement keys is held. */
    function CheckPlayer1GetupInput(): (getUp: bool)
      reads this
      ensures getUp <==> Held1(NameW) || Held1(NameA) || Held1(NameS) || Held1(NameD)
    {
      Held1(NameW) || Held1(NameA) || Held1(NameS) || Held1(NameD)
    }

    /** `check_player2_getup_input`: any of the four arrow keys is held. */
    function CheckPlayer2GetupInput(): (getUp: bool)
      reads this
      ensures getUp <==> Held2(Up) || Held2(Down) || Held2(Left) || Held2(Right)
    {
      Held2(Up) || Held2(Down) || Held2(Left) || Held2(Right)
    }
  }
}
