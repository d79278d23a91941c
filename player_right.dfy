// Player/playerRight.py: the right-hand player. It overrides `update` with a
// narrower combo table, four startable attacks without the legality check,
// and movement by constant steps that do not depend on the elapsed time.

module PlayerRight {
  import opened Common
  import opened Player

  /** The (archetype, state) pairs in which the right player accepts a combo reservation. */
  predicate ComboEligible(characterType: string, state: string) {
    || (characterType == Priest && state == StrongMiddleATK)
    || (characterType == Thief && state in [FastMiddleATK, FastMiddleATK2, StrongMiddleATK])
  }

  /** The attacks the right player's `update` tests for. */
  predicate Startable(attack: string) {
    attack in [FastMiddleATK, StrongMiddleATK, StrongUpperATK, StrongLowerATK]
  }

  /** The `can_combo` value the right player gives a freshly started attack. */
  function ComboOnStart(characterType: string, attack: string): bool {
    if attack == FastMiddleATK then characterType == Thief
    else attack == StrongMiddleATK
  }

  /** One tick of `PlayerRight.update`. The move speed plays no part. */
  function Step(characterType: string, s: Status, moveInput: Option<string>,
                atkInput: Option<string>, comboInput: bool): (r: Status)
    ensures comboInput && s.canCombo && ComboEligible(characterType, s.state) ==> r == s.(comboReserved := true)
    // a reservation only ever happens for a priest in its strong middle attack
    // or for a thief in its middle attacks; a fighter never reserves
    ensures !s.comboReserved && r.comboReserved ==>
              || (characterType == Priest && s.state == StrongMiddleATK)
              || (characterType == Thief && (s.state == FastMiddleATK || s.state == FastMiddleATK2
                                             || s.state == StrongMiddleATK))
    ensures !(comboInput && s.canCombo && ComboEligible(characterType, s.state)) && !s.isAttacking
            && atkInput.Some? && Startable(atkInput.value)
            ==> r.state == atkInput.value && r.isAttacking && !r.comboReserved && r.x == s.x
    // fast lower, fast upper and rage inputs have no effect on the attack
    ensures (!s.isAttacking && atkInput in {Some(FastLowerATK), Some(FastUpperATK), Some(RageSkill)})
            ==> !r.isAttacking
    ensures !s.isAttacking && r.isAttacking ==>
              && atkInput == Some(r.state) && Startable(r.state)
              && (r.canCombo <==> r.state == StrongMiddleATK || (r.state == FastMiddleATK && characterType == Thief))
    // while attacking with no eligible combo, position and state stay put
    ensures s.isAttacking && !(comboInput && s.canCombo && ComboEligible(characterType, s.state)) ==> r == s
    ensures !(comboInput && s.canCombo && ComboEligible(characterType, s.state)) && !s.isAttacking
            && !(atkInput.Some? && Startable(atkInput.value)) ==>
              && r.isAttacking == s.isAttacking && r.canCombo == s.canCombo && r.comboReserved == s.comboReserved
              && (moveInput == Some(Left) ==> r.x == s.x - 1.0 && r.state == Walk)
              && (moveInput == Some(Right) ==> r.x == s.x + 0.5 && r.state == BackWalk)
              && (moveInput != Some(Left) && moveInput != Some(Right) ==> r.x == s.x && r.state == Idle)
  {
    if comboInput && s.canCombo && ComboEligible(characterType, s.state) then
      s.(comboReserved := true)
    else if !s.isAttacking && atkInput.Some? && Startable(atkInput.value) then
      Status(s.x, atkInput.value, true, ComboOnStart(characterType, atkInput.value), false)
    else if s.isAttacking then
      s
    else if moveInput == Some(Left) then
      s.(x := s.x - 1.0, state := Walk)
    else if moveInput == Some(Right) then
      s.(x := s.x + 0.5, state := BackWalk)
    else
      s.(state := Idle)
  }

  /** `PlayerRight()`: a priest at (600, 300). */
  method Create() returns (p: Player)
    ensures fresh(p) && fresh(p.character)
    ensures p.GetCharacterType() == Priest
    ensures p.x == 600.0 && p.y == 300.0 && p.dir == -1
    ensures p.Snapshot() == Status(600.0, Idle, false, false, false)
  {
    p := new Player(600.0, 300.0, Priest);
  }

  /** `initialize`: the base initialisation, then face left (`dir` 1). */
  method Initialize(p: Player)
    modifies p`dir
    ensures p.dir == 1
    ensures p.Snapshot() == old(p.Snapshot()) && p.y == old(p.y)
  {
    p.Initialize();
    p.dir := 1;
  }

  method Update(p: Player, deltaTime: real, moveInput: Option<string>,
                atkInput: Option<string>, comboInput: bool)
    modifies p, p.character
    ensures p.Snapshot() == Step(old(p.GetCharacterType()), old(p.Snapshot()), moveInput, atkInput, comboInput)
    ensures p.y == old(p.y) && p.dir == old(p.dir)
    ensures p.character.currentCharacter == old(p.character.currentCharacter)
    ensures p.character.x == old(p.x) && p.character.y == old(p.y) && p.character.state == old(p.state)
    ensures p.character.frame == old(p.character.frame)
  {
    p.character.x, p.character.y := p.x, p.y;
    p.character.state := p.state;
    p.character.Update(deltaTime);

    if comboInput && p.canCombo && ComboEligible(p.GetCharacterType(), p.state) {
      p.comboReserved := true;
      return;
    }

    // the source tests each of the four attack names in turn
    if atkInput.Some? && !p.isAttacking && Startable(atkInput.value) {
      p.state := atkInput.value;
      p.isAttacking := true;
      p.canCombo := ComboOnStart(p.GetCharacterType(), atkInput.value);
      p.comboReserved := false;
      return;
    }

    if !p.isAttacking {
      if moveInput == Some(Left) {
        p.x := p.x - 1.0;
        p.state := Walk;
      } else if moveInput == Some(Right) {
        p.x := p.x + 0.5;
        p.state := BackWalk;
      } else {
        p.state := Idle;
      }
    }
  }
}
