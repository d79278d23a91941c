// Player/player.py: a combatant and its per-tick intent resolution. In one
// tick the player first tries to reserve a combo, then to start an attack
// (only when not already attacking and only an attack its archetype owns),
// and otherwise moves.

module Player {
  import opened Common
  import Character

  /** The fields `update` reads and writes, as one value. */
  datatype Status = Status(x: real, state: string, isAttacking: bool, canCombo: bool, comboReserved: bool)

  /** `available_attacks`: the attacks each archetype may start. */
  function AvailableAttacks(): map<string, seq<string>> {
    map[
      Priest := [FastMiddleATK, StrongMiddleATK, StrongUpperATK, StrongLowerATK, RageSkill],
      Thief := [FastMiddleATK, StrongMiddleATK, StrongUpperATK, StrongLowerATK],
      Fighter := [FastMiddleATK, FastLowerATK, FastUpperATK, StrongMiddleATK, StrongLowerATK, StrongUpperATK]
    ]
  }

  /** The seven attacks an attack input can name. */
  predicate IsAttackInput(a: string) {
    a == RageSkill || a == FastMiddleATK || a == FastLowerATK || a == FastUpperATK
    || a == StrongMiddleATK || a == StrongUpperATK || a == StrongLowerATK
  }

  /** `can_use_attack`: membership in the archetype's list, `[]` for an unknown archetype. */
  function CanUseAttackFor(characterType: string, attack: string): (ok: bool)
    ensures ok ==> IsKnownCharacter(characterType) && IsAttackInput(attack)
    ensures attack == RageSkill ==> (ok <==> characterType == Priest)
    ensures characterType == Fighter ==> (ok <==> IsAttackInput(attack) && attack != RageSkill)
    ensures characterType == Thief ==> (ok <==> attack in {FastMiddleATK, StrongMiddleATK, StrongUpperATK, StrongLowerATK})
    ensures characterType == Priest ==>
              (ok <==> attack in {FastMiddleATK, StrongMiddleATK, StrongUpperATK, StrongLowerATK, RageSkill})
  {
    var table := AvailableAttacks();
    attack in (if characterType in table then table[characterType] else [])
  }

  /** The later stages of the combo chains, which only a chain enters. */
  predicate IsChainStage(s: string) {
    s == FastMiddleATK2 || s == FastMiddleATK3 || s == StrongMiddleATK2 || s == StrongUpperATK2
  }

  /** `is_attack_state`: the state is one of the attack animations. */
  function IsAttackStateLabel(state: string): (b: bool)
    ensures IsCycleState(state) ==> !b
    ensures b <==> IsAttackInput(state) || IsChainStage(state)
  {
    state in [FastMiddleATK, FastMiddleATK2, FastMiddleATK3, StrongMiddleATK, StrongMiddleATK2,
              StrongUpperATK, StrongUpperATK2, StrongLowerATK, FastLowerATK, FastUpperATK, RageSkill]
  }

  /** The (archetype, state) pairs in which the base class accepts a combo reservation. */
  predicate ComboEligible(characterType: string, state: string) {
    || (characterType == Priest && state == StrongMiddleATK)
    || (characterType == Thief && state in [FastMiddleATK, FastMiddleATK2, StrongMiddleATK, StrongUpperATK])
    || (characterType == Fighter && state in [FastMiddleATK, FastMiddleATK2, StrongUpperATK])
  }

  /** The `can_combo` value the base class gives a freshly started attack. */
  function ComboOnStart(characterType: string, attack: string): bool {
    if attack == StrongMiddleATK then true
    else if attack == FastMiddleATK || attack == StrongUpperATK then characterType in [Thief, Fighter]
    else false
  }

  /**
   * One tick of `Player.update` on the fields it changes, for an archetype
   * `characterType` whose move speed is `speed`.
   */
  function Step(characterType: string, speed: real, s: Status, deltaTime: real,
                moveInput: Option<string>, atkInput: Option<string>, comboInput: bool): (r: Status)
    // combo reservation wins and changes nothing else
    ensures comboInput && s.canCombo && ComboEligible(characterType, s.state) ==> r == s.(comboReserved := true)
    // an attack in progress ignores attack and movement input
    ensures s.isAttacking && !(comboInput && s.canCombo && ComboEligible(characterType, s.state)) ==> r == s
    // a legal attack input starts that attack when not attacking
    ensures !(comboInput && s.canCombo && ComboEligible(characterType, s.state)) && !s.isAttacking
            && atkInput.Some? && CanUseAttackFor(characterType, atkInput.value)
            ==> r.state == atkInput.value && r.isAttacking && !r.comboReserved && r.x == s.x
    // an attack only ever starts from a legal attack input, and then with this can_combo
    ensures !s.isAttacking && r.isAttacking ==>
              && atkInput == Some(r.state) && CanUseAttackFor(characterType, r.state)
              && (r.canCombo <==> r.state == StrongMiddleATK
                                  || ((r.state == FastMiddleATK || r.state == StrongUpperATK)
                                      && (characterType == Thief || characterType == Fighter)))
    // movement when neither a reservation nor an attack happens
    ensures !(comboInput && s.canCombo && ComboEligible(characterType, s.state)) && !s.isAttacking
            && !(atkInput.Some? && CanUseAttackFor(characterType, atkInput.value)) ==>
              && r.isAttacking == s.isAttacking && r.canCombo == s.canCombo && r.comboReserved == s.comboReserved
              && (moveInput == Some(Left) ==> r.x == s.x - speed * deltaTime && r.state == Walk)
              && (moveInput == Some(Right) ==> r.x == s.x + speed * deltaTime && r.state == Walk)
              && (moveInput != Some(Left) && moveInput != Some(Right) ==> r.x == s.x && r.state == Idle)
  {
    if comboInput && s.canCombo && ComboEligible(characterType, s.state) then
      s.(comboReserved := true)
    else if !s.isAttacking && atkInput.Some? && CanUseAttackFor(characterType, atkInput.value) then
      Status(s.x, atkInput.value, true, ComboOnStart(characterType, atkInput.value), false)
    else if s.isAttacking then
      s
    else if moveInput == Some(Left) then
      s.(x := s.x - speed * deltaTime, state := Walk)
    else if moveInput == Some(Right) then
      s.(x := s.x + speed * deltaTime, state := Walk)
    else
      s.(state := Idle)
  }

  class Player {
    var x: real
    var y: real
    const character: Character.Character
    var dir: int
    var state: string
    var isAttacking: bool
    var canCombo: bool
    var comboReserved: bool

    constructor (x0: real, y0: real, characterType: string)
      ensures fresh(character)
      ensures x == x0 && y == y0 && dir == -1
      ensures Snapshot() == Status(x0, Idle, false, false, false)
      ensures character.currentCharacter == characterType && character.x == x0 && character.y == y0
    {
      x, y := x0, y0;
      var c := new Character.Character(characterType);
      character := c;
      new;
      character.x, character.y := x0, y0;
      dir := -1;
      state := Idle;
      isAttacking, canCombo, comboReserved := false, false, false;
    }

    function Snapshot(): Status
      reads this
    {
      Status(x, state, isAttacking, canCombo, comboReserved)
    }

    function GetCharacterType(): (t: string)
      reads this, character
      ensures t == character.currentCharacter
    {
      character.GetCharacterType()
    }

    function CanUseAttack(attackType: string): (ok: bool)
      reads this, character
      ensures ok ==> IsKnownCharacter(character.currentCharacter) && IsAttackInput(attackType)
      ensures character.currentCharacter == Priest ==>
                (ok <==> attackType in {FastMiddleATK, StrongMiddleATK, StrongUpperATK, StrongLowerATK, RageSkill})
      ensures character.currentCharacter == Thief ==>
                (ok <==> attackType in {FastMiddleATK, StrongMiddleATK, StrongUpperATK, StrongLowerATK})
      ensures character.currentCharacter == Fighter ==> (ok <==> IsAttackInput(attackType) && attackType != RageSkill)
    {
      CanUseAttackFor(GetCharacterType(), attackType)
    }

    function IsAttackState(): (b: bool)
      reads this
      ensures IsCycleState(state) ==> !b
      ensures b <==> IsAttackInput(state) || IsChainStage(state)
    {
      IsAttackStateLabel(state)
    }

    function GetMoveSpeed(): (speed: real)
      reads this, character
      ensures character.currentCharacter == Priest ==> speed == 250.0
      ensures character.currentCharacter == Thief || character.currentCharacter == Fighter ==> speed == 300.0
      ensures !IsKnownCharacter(character.currentCharacter) ==> speed == 200.0
    {
      character.GetMoveSpeed()
    }

    method Initialize()
      ensures unchanged(this) && unchanged(character)
    {
      character.Initialize();
    }

    method SetCharacterType(characterType: string)
      modifies character
      ensures GetCharacterType() == characterType
      ensures character.x == old(character.x) && character.y == old(character.y)
      ensures character.state == old(character.state) && character.frame == old(character.frame)
    {
      character.SetCharacterType(characterType);
    }

    /** `update`: the character copy is synchronised first, then the tick is resolved. */
    method Update(deltaTime: real, moveInput: Option<string>, atkInput: Option<string>,
                  comboInput: bool, charChangeInput: Option<string>)
      modifies this, character
      ensures Snapshot() == Step(old(GetCharacterType()), old(GetMoveSpeed()), old(Snapshot()),
                                 deltaTime, moveInput, atkInput, comboInput)
      ensures y == old(y) && dir == old(dir)
      ensures character.currentCharacter == old(character.currentCharacter)
      ensures character.x == old(x) && character.y == old(y) && character.state == old(state)
      ensures character.frame == old(character.frame)
    {
      character.x, character.y := x, y;
      character.state := state;
      character.Update(deltaTime);
      ghost var r := Step(GetCharacterType(), GetMoveSpeed(), Snapshot(), deltaTime, moveInput, atkInput, comboInput);

      if comboInput && canCombo && ComboEligible(GetCharacterType(), state) {
        comboReserved := true;
        return;
      }

      // the source tests each attack name in turn; at most one can equal the input
      if atkInput.Some? && !isAttacking && CanUseAttack(atkInput.value) {
        state := atkInput.value;
        isAttacking := true;
        canCombo := ComboOnStart(GetCharacterType(), atkInput.value);
        comboReserved := false;
        return;
      }

      if !isAttacking {
        var moveSpeed := GetMoveSpeed();
        if moveInput == Some(Left) {
          x := x - moveSpeed * deltaTime;
          state := Walk;
        } else if moveInput == Some(Right) {
          x := x + moveSpeed * deltaTime;
          state := Walk;
        } else {
          state := Idle;
        }
      }
    }
  }
}
