// Player/playerLeft.py: the left-hand player. It overrides `update` with its
// own combo table, starts its attacks without the archetype legality check,
// and walks backwards (left) at half speed. Python subclassing becomes a
// module of methods over the shared `Player` object.

module PlayerLeft {
  import opened Common
  import opened Player

  /** The (archetype, state) pairs in which the left player accepts a combo reservation. */
  predicate ComboEligible(characterType: string, state: string) {
    || (characterType == Priest && state == StrongMiddleATK)
    || (characterType == Thief && state in [FastMiddleATK, FastMiddleATK2, StrongMiddleATK, StrongUpperATK])
    || (characterType == Fighter && state in [FastMiddleATK, FastMiddleATK2])
  }

  /** The attacks the left player's `update` tests for. */
  predicate Startable(attack: string) {
    attack in [FastMiddleATK, FastLowerATK, StrongMiddleATK, StrongUpperATK, StrongLowerATK]
  }

  /** The `can_combo` value the left player gives a freshly started attack. */
  function ComboOnStart(characterType: string, attack: string): bool {
    if attack == FastMiddleATK then characterType in [Thief, Fighter]
    else if attack == StrongMiddleATK then true
    else if attack == StrongUpperATK then characterType == Thief
    else false
  }

  /** One tick of `PlayerLeft.update` for an archetype `characterType` of speed `speed`. */
  function Step(characterType: string, speed: real, s: Status, deltaTime: real,
                moveInput: Option<string>, atkInput: Option<string>, comboInput: bool): (r: Status)
    ensures comboInput && s.canCombo && ComboEligible(characterType, s.state) ==> r == s.(comboReserved := true)
    // a fighter in its strong upper attack cannot reserve, so the tick changes nothing
    ensures characterType == Fighter && s.state == StrongUpperATK && s.isAttacking ==> r == s
    // the five attacks the update checks for start for every archetype when not attacking
    ensures !(comboInput && s.canCombo && ComboEligible(characterType, s.state)) && !s.isAttacking
            && atkInput.Some? && Startable(atkInput.value)
            ==> r.state == atkInput.value && r.isAttacking && !r.comboReserved && r.x == s.x
    // fast upper attack and rage skill inputs never start an attack
    ensures !s.isAttacking && (atkInput == Some(FastUpperATK) || atkInput == Some(RageSkill)) ==> !r.isAttacking
    ensures !s.isAttacking && r.isAttacking ==>
              && atkInput == Some(r.state) && Startable(r.state)
              && (r.canCombo <==> (r.state == FastMiddleATK && (characterType == Thief || characterType == Fighter))
                                  || r.state == StrongMiddleATK
                                  || (r.state == StrongUpperATK && characterType == Thief))
    ensures s.isAttacking && !(comboInput && s.canCombo && ComboEligible(characterType, s.state)) ==> r == s
    ensures !(comboInput && s.canCombo && ComboEligible(characterType, s.state)) && !s.isAttacking
            && !(atkInput.Some? && Startable(atkInput.value)) ==>
              && r.isAttacking == s.isAttacking && r.canCombo == s.canCombo && r.comboReserved == s.comboReserved
              && (moveInput == Some(Left) ==> r.x == s.x - speed * 0.5 * deltaTime && r.state == BackWalk)
              && (moveInput == Some(Right) ==> r.x == s.x + speed * deltaTime && r.state == Walk)
              && (moveInput != Some(Left) && moveInput != Some(Right) ==> r.x == s.x && r.state == Idle)
  {
    if comboInput && s.canCombo && ComboEligible(characterType, s.state) then
      s.(comboReserved := true)
    else if !s.isAttacking && atkInput.Some? && Startable(atkInput.value) then
      Status(s.x, atkInput.value, true, ComboOnStart(characterType, atkInput.value), false)
    else if s.isAttacking then
      s
    else if moveInput == Some(Left) then
      s.(x := s.x - speed * 0.5 * deltaTime, state := BackWalk)
    else if moveInput == Some(Right) then
      s.(x := s.x + speed * deltaTime, state := Walk)
    else
      s.(state := Idle)
  }

  /** `PlayerLeft()`: a fighter at the default position (400, 300). */
  method Create() returns (p: Player)
    ensures fresh(p) && fresh(p.character)
    ensures p.GetCharacterType() == Fighter
    ensures p.x == 400.0 && p.y == 300.0 && p.dir == -1
    ensures p.Snapshot() == Status(400.0, Idle, false, false, false)
  {
    p := new Player(400.0, 300.0, Fighter);
  }

  /** `initialize`: the base initialisation, then face right (`dir` -1). */
  method Initialize(p: Player)
    modifies p`dir
    ensures p.dir == -1
    ensures p.Snapshot() == old(p.Snapshot()) && p.y == old(p.y)
  {
    p.Initialize();
    p.dir := -1;
  }

  method Update(p: Player, deltaTime: real, moveInput: Option<string>,
                atkInput: Option<string>, comboInput: bool)
    modifies p, p.character
    ensures p.Snapshot() == Step(old(p.GetCharacterType()), old(p.GetMoveSpeed()), old(p.Snapshot()),
                                 deltaTime, moveInput, atkInput, comboInput)
    ensures p.y == old(p.y) && p.dir == old(p.dir)
    ensures p.character.currentCharacter == old(p.character.currentCharacter)
    ensures p.character.x == old(p.x) && p.character.y == old(p.y) && p.character.state == old(p.state)
    ensures p.character.frame == old(p.character.frame)
  {
    p.character.x, p.character.y := p.x, p.y;
    p.character.state := p.state;
    p.character.Update(deltaTime);

    if comboInput && p.canCombo && ComboEligible(p.GetCharacterType(), p.state) {
      p.comboReserved := true;
      return;
    }

    // the source tests each of the five attack names in turn
    if atkInput.Some? && !p.isAttacking && Startable(atkInput.value) {
      p.state := atkInput.value;
      p.isAttacking := true;
      p.canCombo := ComboOnStart(p.GetCharacterType(), atkInput.value);
      p.comboReserved := false;
      return;
    }

    if !p.isAttacking {
      var moveSpeed := p.GetMoveSpeed();
      if moveInput == Some(Left) {
        p.x := p.x - moveSpeed * 0.5 * deltaTime;
        p.state := BackWalk;
      } else if moveInput == Some(Right) {
        p.x := p.x + moveSpeed * deltaTime;
        p.state := Walk;
      } else {
        p.state := Idle;
      }
    }
  }
}
