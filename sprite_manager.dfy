// spriteManager.py: the animation clock of both sides. Each side has a
// state label, a frame cursor and a timer; a call advances the cursor at most
// once, and when an attack animation wraps to frame 0 the clock either
// chains the player into the next combo stage or ends the attack, writing
// back into the referenced player.

module SpriteManager {
  import opened Common
  import opened Player

  // Frame times of the source, in seconds.
  const DefaultFrameTime: real := 0.083
  const FastAttackFrameTime: real := 0.1
  const StrongAttackFrameTime: real := 0.15
  const RageSkillFrameTime: real := 1.0 / 18.0

  /** Per-character, per-state sprite counts: the `range(...)` bounds of `load_sprites`. */
  function FrameCounts(): map<string, map<string, nat>> {
    map[
      Priest := map[
        Idle := 4, Walk := 8, BackWalk := 8, FastMiddleATK := 6, StrongMiddleATK := 6,
        StrongMiddleATK2 := 8, StrongUpperATK := 12, StrongLowerATK := 9, RageSkill := 18],
      Thief := map[
        Idle := 6, Walk := 6, BackWalk := 7, FastMiddleATK := 6, FastMiddleATK2 := 6,
        FastMiddleATK3 := 6, StrongMiddleATK := 5, StrongMiddleATK2 := 5, StrongUpperATK := 5,
        StrongUpperATK2 := 5, StrongLowerATK := 4],
      Fighter := map[
        Idle := 4, Walk := 8, BackWalk := 5, FastMiddleATK := 4, FastMiddleATK2 := 3,
        FastMiddleATK3 := 3, StrongMiddleATK := 5, StrongLowerATK := 5, StrongUpperATK := 4,
        StrongUpperATK2 := 4, FastLowerATK := 4, FastUpperATK := 6]
    ]
  }

  /** The combo successor of each chainable (archetype, state). */
  function ComboMapping(): map<string, map<string, string>> {
    map[
      Priest := map[StrongMiddleATK := StrongMiddleATK2],
      Thief := map[
        FastMiddleATK := FastMiddleATK2, FastMiddleATK2 := FastMiddleATK3,
        StrongMiddleATK := StrongMiddleATK2, StrongUpperATK := StrongUpperATK2],
      Fighter := map[
        FastMiddleATK := FastMiddleATK2, FastMiddleATK2 := FastMiddleATK3,
        StrongUpperATK := StrongUpperATK2]
    ]
  }

  /** The frame from which a combo may be reserved, per (archetype, state). */
  function ComboFrames(): map<string, map<string, int>> {
    map[
      Priest := map[StrongMiddleATK := 3],
      Thief := map[FastMiddleATK := 3, FastMiddleATK2 := 3, StrongMiddleATK := 3, StrongUpperATK := 3],
      Fighter := map[FastMiddleATK := 2, FastMiddleATK2 := 2, StrongUpperATK := 3]
    ]
  }

  predicate Chainable(characterType: string, state: string) {
    characterType in ComboMapping() && state in ComboMapping()[characterType]
  }

  /** `get_character_sprites`: the table of `characterType`, else priest's, else empty. */
  function CharacterSprites(sprites: map<string, map<string, nat>>, characterType: string): (r: map<string, nat>)
    ensures characterType in sprites ==> r == sprites[characterType]
    ensures characterType !in sprites ==> r == (if Priest in sprites then sprites[Priest] else map[])
  {
    if characterType in sprites then sprites[characterType]
    else if Priest in sprites then sprites[Priest]
    else map[]
  }

  /** `_get_frame_time_for_state`. */
  function FrameTime(state: string): (t: real)
    ensures t > 0.0
    ensures state == RageSkill ==> t == 1.0 / 18.0
    ensures state != RageSkill && Contains(Lower(state), "fast") ==> t == 0.1
    ensures state != RageSkill && !Contains(Lower(state), "fast") && Contains(Lower(state), "strong") ==> t == 0.15
    ensures state != RageSkill && !Contains(Lower(state), "fast") && !Contains(Lower(state), "strong") ==> t == 0.083
  {
    if state == RageSkill then RageSkillFrameTime
    else if Contains(Lower(state), "fast") then FastAttackFrameTime
    else if Contains(Lower(state), "strong") then StrongAttackFrameTime
    else DefaultFrameTime
  }

  /** What `_handle_animation_completion` does when an animation wraps to frame 0. */
  datatype Completion = Unhandled | Chained(next: string) | Ended

  /** The player-side view the clock reads and writes: archetype and combat flags. */
  datatype Ref = Ref(characterType: string, status: Status)

  /** The decision of `_handle_animation_completion` for a wrap in `state`. */
  function CompletionOf(ref: Option<Ref>, state: string, characterType: string): (c: Completion)
    ensures ref.None? ==> c == Unhandled
    ensures ref.Some? && state == RageSkill ==> c == Ended
    ensures ref.Some? && state != RageSkill && Chainable(characterType, state) ==>
              c == (if ref.value.status.comboReserved then Chained(ComboMapping()[characterType][state]) else Ended)
    ensures c.Chained? ==> Chainable(characterType, state) && ref.Some? && ref.value.status.comboReserved
  {
    if ref.None? then Unhandled
    else if state == RageSkill then Ended
    else if Chainable(characterType, state) then
      if ref.value.status.comboReserved then Chained(ComboMapping()[characterType][state]) else Ended
    else if state in [FastMiddleATK3, StrongMiddleATK2, StrongUpperATK2, StrongLowerATK, StrongUpperATK,
                      StrongLowerATK, FastMiddleATK, FastLowerATK, FastUpperATK, StrongMiddleATK, RageSkill] then
      if || (state == FastMiddleATK && characterType == Priest)
         || (state in [StrongUpperATK, StrongLowerATK] && characterType == Priest)
         || (state in [FastLowerATK, FastUpperATK, StrongMiddleATK, StrongLowerATK] && characterType == Fighter)
         || state == RageSkill
      then Ended
      else if state in [FastMiddleATK3, StrongMiddleATK2, StrongUpperATK2, StrongLowerATK] then Ended
      else Unhandled
    else Unhandled
  }

  /** `_end_attack` on the player's flags: `combo_reserved` and `x` are left alone. */
  function EndAttack(s: Status): (r: Status)
    ensures !r.isAttacking && r.state == Idle && !r.canCombo
    ensures r.comboReserved == s.comboReserved && r.x == s.x
  {
    s.(isAttacking := false, state := Idle, canCombo := false)
  }

  /** The chain step of `_handle_animation_completion` on the player's flags. */
  function ChainTo(s: Status, next: string): (r: Status)
    ensures r.state == next && !r.comboReserved && !r.canCombo
    ensures r.isAttacking == s.isAttacking && r.x == s.x
  {
    s.(state := next, comboReserved := false, canCombo := false)
  }

  /** The player's flags after a completion; `Unhandled` leaves them alone. */
  function Complete(ref: Option<Ref>, c: Completion): Option<Ref>
    requires c != Unhandled ==> ref.Some?
  {
    match c
    case Unhandled => ref
    case Ended => Some(ref.value.(status := EndAttack(ref.value.status)))
    case Chained(next) => Some(ref.value.(status := ChainTo(ref.value.status, next)))
  }

  /**
   * `_update_combo_availability`: raises `can_combo` exactly when the archetype
   * has a combo threshold for the state and the frame has reached it.
   */
  function ComboAvailability(ref: Option<Ref>, characterType: string, state: string, frame: int): (r: Option<Ref>)
    ensures r.Some? == ref.Some?
    ensures ref.Some? ==> r.value.characterType == ref.value.characterType
    ensures ref.Some? ==> (r.value.status == ref.value.status
                           || r.value.status == ref.value.status.(canCombo := true))
    ensures ref.Some? ==>
              (r.value.status.canCombo <==>
                 || ref.value.status.canCombo
                 || (characterType in ComboFrames() && state in ComboFrames()[characterType]
                     && frame >= ComboFrames()[characterType][state]))
  {
    if ref.None? then ref
    else
      var table := ComboFrames();
      if characterType in table && state in table[characterType] && frame >= table[characterType][state] then
        Some(ref.value.(status := ref.value.status.(canCombo := true)))
      else ref
  }

  /** One side's clock: state label, frame cursor, timer. */
  datatype Clock = Clock(state: string, frame: nat, timer: real)

  /** The clock after the state-change reset of the `update_player*_state` methods. */
  function Restart(clock: Clock, newState: string): (c: Clock)
    ensures c.state == newState
    ensures clock.state != newState ==> c.frame == 0 && c.timer == 0.0
    ensures clock.state == newState ==> c == clock
  {
    if clock.state != newState then Clock(newState, 0, 0.0) else clock
  }

  /** The result of one `update_player*_state` call: the side's clock and the referenced player. */
  datatype Tick = Tick(clock: Clock, ref: Option<Ref>)

  /** Every loaded animation has at least one sprite. */
  predicate PositiveCounts(sprites: map<string, map<string, nat>>) {
    forall ct, st :: ct in sprites && st in sprites[ct] ==> sprites[ct][st] > 0
  }

  /** The archetype whose sprites a side uses: the referenced player's, else priest. */
  function SpriteOwner(ref: Option<Ref>): string {
    if ref.Some? then ref.value.characterType else Priest
  }

  /** The sprite count the clock uses for `state`, 0 when the state has no sprites. */
  function SpriteCount(sprites: map<string, map<string, nat>>, ref: Option<Ref>, state: string): nat {
    var table := CharacterSprites(sprites, SpriteOwner(ref));
    if state in table then table[state] else 0
  }

  /** The frame cursor points at a sprite of the current animation, or is 0. */
  predicate FrameInRange(sprites: map<string, map<string, nat>>, ref: Option<Ref>, clock: Clock) {
    clock.frame == 0 || clock.frame < SpriteCount(sprites, ref, clock.state)
  }

  /** The outcome of the advance block: the new tick, and whether the source returns early. */
  datatype Advanced = Advanced(tick: Tick, finished: bool)

  /**
   * The block of `update_player*_state` entered once the timer reached the
   * frame time (and was reset): one step of the cursor, and the completion
   * of an attack animation that wraps. `finished` marks the early returns.
   */
  function FrameStep(sprites: map<string, map<string, nat>>, c: Clock, ref: Option<Ref>): (a: Advanced)
    requires PositiveCounts(sprites)
    ensures a.tick.clock.timer == c.timer
    ensures a.tick.clock.state == c.state || a.tick.clock == c.(state := Idle, frame := 0)
    ensures a.tick.clock.state == c.state && a.tick.clock.frame != c.frame ==>
              SpriteCount(sprites, ref, c.state) > 0
              && a.tick.clock.frame == (c.frame + 1) % SpriteCount(sprites, ref, c.state)
    ensures IsCycleState(c.state) ==> a.tick.ref == ref && a.tick.clock.state == c.state
    ensures !a.finished || IsCycleState(c.state) ==> a.tick.ref == ref
    ensures a.tick.ref.Some? == ref.Some?
    ensures ref.Some? ==> a.tick.ref.value.characterType == ref.value.characterType
                          && a.tick.ref.value.status.x == ref.value.status.x
    ensures FrameInRange(sprites, ref, c) ==> FrameInRange(sprites, a.tick.ref, a.tick.clock)
    // a state with sprites always moves one frame, unless an attack wrap is completed
    ensures var n := SpriteCount(sprites, ref, c.state);
            n > 0 && (IsCycleState(c.state) || (c.frame + 1) % n != 0
                      || CompletionOf(ref, c.state, SpriteOwner(ref)) == Unhandled) ==>
              a.tick == Tick(c.(frame := (c.frame + 1) % n), ref) && (a.finished <==> IsCycleState(c.state))
    // a completed wrap ends or chains the attack and returns early
    ensures var n := SpriteCount(sprites, ref, c.state);
            var completion := CompletionOf(ref, c.state, SpriteOwner(ref));
            n > 0 && !IsCycleState(c.state) && (c.frame + 1) % n == 0 && completion != Unhandled ==>
              && a.finished && a.tick.ref == Complete(ref, completion)
              && a.tick.clock == (if completion.Ended? then c.(state := Idle, frame := 0) else c)
    // a state without sprites leaves the clock and the player alone
    ensures SpriteCount(sprites, ref, c.state) == 0 ==> a == Advanced(Tick(c, ref), false)
  {
    var characterType := SpriteOwner(ref);
    var table := CharacterSprites(sprites, characterType);
    // `if sprites and state in sprites`: a table holding the state is not empty
    if c.state in table then
      var next := (c.frame + 1) % table[c.state];
      if IsCycleState(c.state) then
        Advanced(Tick(c.(frame := next), ref), true)
      else if next == 0 && CompletionOf(ref, c.state, characterType) != Unhandled then
        var completion := CompletionOf(ref, c.state, characterType);
        Advanced(Tick(if completion.Ended? then c.(state := Idle, frame := 0) else c, Complete(ref, completion)), true)
      else
        Advanced(Tick(c.(frame := next), ref), false)
    else
      Advanced(Tick(c, ref), false)
  }

  /** One call of `update_player1_state` / `update_player2_state` on one side. */
  function ClockStep(sprites: map<string, map<string, nat>>, clock: Clock, ref: Option<Ref>,
                     newState: string, deltaTime: real): (t: Tick)
    requires PositiveCounts(sprites)
    // the timer is either reset to 0 (the remainder is dropped) or accumulates below the frame time
    ensures var c := Restart(clock, newState);
            if c.timer + deltaTime >= FrameTime(newState) then t.clock.timer == 0.0
            else t.clock == c.(timer := c.timer + deltaTime)
    // the side keeps the reported state, unless the attack ended and the side went back to Idle
    ensures t.clock.state == newState || t.clock == Clock(Idle, 0, 0.0)
    // at most one frame advance, modulo the sprite count
    ensures var c := Restart(clock, newState);
            t.clock.state == newState && t.clock.frame != c.frame ==>
              SpriteCount(sprites, ref, newState) > 0
              && t.clock.frame == (c.frame + 1) % SpriteCount(sprites, ref, newState)
    // walking and idling loop forever and never touch the player
    ensures IsCycleState(newState) ==> t.clock.state == newState && t.ref == ref
    // the referenced player keeps its archetype and position
    ensures t.ref.Some? == ref.Some?
    ensures ref.Some? ==> t.ref.value.characterType == ref.value.characterType
                          && t.ref.value.status.x == ref.value.status.x
    // the cursor never leaves the current animation
    ensures FrameInRange(sprites, ref, clock) ==> FrameInRange(sprites, t.ref, t.clock)
  {
    var c := Restart(clock, newState);
    var a := if c.timer + deltaTime >= FrameTime(c.state) then FrameStep(sprites, c.(timer := 0.0), ref)
             else Advanced(Tick(c.(timer := c.timer + deltaTime), ref), false);
    if a.finished then a.tick
    else a.tick.(ref := ComboAvailability(a.tick.ref, SpriteOwner(a.tick.ref), a.tick.clock.state, a.tick.clock.frame))
  }
  /**
   * What one call of `update_player*_state` does once the frame time is
   * reached: a state with sprites moves one frame, unless an attack wraps and
   * its completion is handled, which ends or chains the attack and skips the
   * combo refresh; every other step in an attack refreshes the combo window.
   */
  lemma ClockStepAdvances(sprites: map<string, map<string, nat>>, clock: Clock, ref: Option<Ref>,
                          newState: string, deltaTime: real)
    requires PositiveCounts(sprites)
    ensures var t := ClockStep(sprites, clock, ref, newState, deltaTime);
            var c := Restart(clock, newState);
            var n := SpriteCount(sprites, ref, newState);
            var fires := c.timer + deltaTime >= FrameTime(newState);
            var handledWrap := n > 0 && !IsCycleState(newState) && (c.frame + 1) % n == 0
                               && CompletionOf(ref, newState, SpriteOwner(ref)) != Unhandled;
            && (fires && n > 0 && !handledWrap ==> t.clock == Clock(newState, (c.frame + 1) % n, 0.0))
            && (fires && handledWrap ==> t.ref == Complete(ref, CompletionOf(ref, newState, SpriteOwner(ref))))
            && (fires && handledWrap ==>
                  t.clock == (if CompletionOf(ref, newState, SpriteOwner(ref)).Ended? then Clock(Idle, 0, 0.0)
                              else c.(timer := 0.0)))
            && (!IsCycleState(newState) && !(fires && handledWrap) ==>
                  t.ref == ComboAvailability(ref, SpriteOwner(ref), newState, t.clock.frame))
  {
    var c := Restart(clock, newState);
    if c.timer + deltaTime >= FrameTime(newState) {
      var a := FrameStep(sprites, c.(timer := 0.0), ref);
    }
  }

  // --- Properties of the tables and the clock ---

  /** Every table `load_sprites` builds has at least one sprite per animation. */
  lemma FrameCountsPositive()
    ensures PositiveCounts(FrameCounts())
  {
  }

  /** Lower-casing leaves no `c` in a string holding neither `c` nor its capital. */
  lemma LowerWithout(s: string, c: char)
    requires 'a' <= c <= 'z'
    requires c !in s && (c as int - 32) as char !in s
    ensures forall i :: 0 <= i < |s| ==> Lower(s)[i] != c
  {
  }

  lemma DefaultFrameTimeOf(s: string)
    requires s != RageSkill
    requires 'f' !in s && 'F' !in s && 's' !in s && 'S' !in s
    ensures FrameTime(s) == DefaultFrameTime
  {
    LowerWithout(s, 'f');
    LowerWithout(s, 's');
    NotContainedWithoutFirstChar(Lower(s), "fast");
    NotContainedWithoutFirstChar(Lower(s), "strong");
  }

  lemma FastFrameTimeOf(s: string)
    requires s != RageSkill
    requires |s| >= 4 && s[..4] == "fast"
    ensures FrameTime(s) == FastAttackFrameTime
  {
    assert Lower(s)[..4] == "fast" by {
      assert forall i | 0 <= i < 4 :: Lower(s)[i] == s[i] == "fast"[i];
    }
    assert OccursAt(Lower(s), "fast", 0);
  }

  lemma StrongFrameTimeOf(s: string)
    requires s != RageSkill
    requires 'f' !in s && 'F' !in s
    requires |s| >= 6 && s[..6] == "strong"
    ensures FrameTime(s) == StrongAttackFrameTime
  {
    LowerWithout(s, 'f');
    NotContainedWithoutFirstChar(Lower(s), "fast");
    assert Lower(s)[..6] == "strong" by {
      assert forall i | 0 <= i < 6 :: Lower(s)[i] == s[i] == "strong"[i];
    }
    assert OccursAt(Lower(s), "strong", 0);
  }

  /** Walking and idling use the default frame time. */
  lemma CycleFrameTimes()
    ensures FrameTime(Idle) == DefaultFrameTime && FrameTime(Walk) == DefaultFrameTime
    ensures FrameTime(BackWalk) == DefaultFrameTime
  {
    DefaultFrameTimeOf(Idle);
    DefaultFrameTimeOf(Walk);
    DefaultFrameTimeOf(BackWalk);
  }

  /** Every fast attack uses the fast frame time. */
  lemma FastFrameTimes()
    ensures FrameTime(FastMiddleATK) == FastAttackFrameTime && FrameTime(FastMiddleATK2) == FastAttackFrameTime
    ensures FrameTime(FastMiddleATK3) == FastAttackFrameTime && FrameTime(FastLowerATK) == FastAttackFrameTime
    ensures FrameTime(FastUpperATK) == FastAttackFrameTime
  {
    FastFrameTimeOf(FastMiddleATK);
    FastFrameTimeOf(FastMiddleATK2);
    FastFrameTimeOf(FastMiddleATK3);
    FastFrameTimeOf(FastLowerATK);
    FastFrameTimeOf(FastUpperATK);
  }

  /** Every strong attack uses the strong frame time. */
  lemma StrongFrameTimes()
    ensures FrameTime(StrongMiddleATK) == StrongAttackFrameTime && FrameTime(StrongMiddleATK2) == StrongAttackFrameTime
    ensures FrameTime(StrongUpperATK) == StrongAttackFrameTime && FrameTime(StrongUpperATK2) == StrongAttackFrameTime
    ensures FrameTime(StrongLowerATK) == StrongAttackFrameTime
  {
    StrongFrameTimeOf(StrongMiddleATK);
    StrongFrameTimeOf(StrongMiddleATK2);
    StrongFrameTimeOf(StrongUpperATK);
    StrongFrameTimeOf(StrongUpperATK2);
    StrongFrameTimeOf(StrongLowerATK);
  }

  /**
   * Among the animations a known archetype has sprites for, the attack states
   * are exactly those that are not walking or idling.
   */
  lemma AttackStatesAreAnimatedAttacks(characterType: string, state: string)
    requires IsKnownCharacter(characterType) && state in FrameCounts()[characterType]
    ensures IsAttackStateLabel(state) <==> !IsCycleState(state)
  {
  }

  /** The combo thresholds exist exactly for the chainable (archetype, state) pairs. */
  lemma ComboFramesMatchChains(characterType: string, state: string)
    ensures characterType in ComboFrames() && state in ComboFrames()[characterType]
            <==> Chainable(characterType, state)
  {
  }

  /**
   * Every combo successor has sprites of its own and differs from its source,
   * and a chain is at most three stages long.
   */
  lemma ComboChainsEnd(characterType: string, state: string)
    requires Chainable(characterType, state)
    ensures var next := ComboMapping()[characterType][state];
            && next != state
            && IsKnownCharacter(characterType) && next in FrameCounts()[characterType]
            && !IsCycleState(next)
            && (Chainable(characterType, next) ==> !Chainable(characterType, ComboMapping()[characterType][next]))
  {
  }

  /**
   * Every attack animation a known archetype has sprites for ends or chains
   * when it wraps: none of them loops.
   */
  lemma KnownAttacksComplete(ref: Option<Ref>, state: string)
    requires ref.Some? && IsKnownCharacter(ref.value.characterType)
    requires state in FrameCounts()[ref.value.characterType] && !IsCycleState(state)
    ensures CompletionOf(ref, state, ref.value.characterType) != Unhandled
  {
  }

  /**
   * A player whose archetype has no table of its own animates with the priest
   * sprites, and a wrap of its fast or strong middle attack is left unhandled,
   * so that animation loops.
   */
  lemma UnknownArchetypeLoops(ref: Option<Ref>)
    requires ref.Some? && !IsKnownCharacter(ref.value.characterType)
    ensures CharacterSprites(FrameCounts(), ref.value.characterType) == FrameCounts()[Priest]
    ensures FastMiddleATK in FrameCounts()[Priest]
    ensures CompletionOf(ref, FastMiddleATK, ref.value.characterType) == Unhandled
    ensures CompletionOf(ref, StrongMiddleATK, ref.value.characterType) == Unhandled
  {
  }

  /**
   * When an attack animation wraps with a combo reserved, the player moves to
   * the next stage while the clock keeps the finished state; the next call,
   * reporting the player's new state, restarts the clock at frame 0.
   */
  lemma ChainRestartsNextStage(sprites: map<string, map<string, nat>>, clock: Clock, ref: Option<Ref>,
                               deltaTime: real)
    requires PositiveCounts(sprites)
    requires ref.Some? && ref.value.status.comboReserved
    requires Chainable(ref.value.characterType, clock.state) && clock.state != RageSkill
    requires ref.value.characterType in sprites && clock.state in sprites[ref.value.characterType]
    requires clock.frame + 1 == sprites[ref.value.characterType][clock.state]
    requires clock.timer + deltaTime >= FrameTime(clock.state)
    ensures var t := ClockStep(sprites, clock, ref, clock.state, deltaTime);
            var next := ComboMapping()[ref.value.characterType][clock.state];
            && t.ref == Some(ref.value.(status := ChainTo(ref.value.status, next)))
            && t.clock == clock.(timer := 0.0)
            && Restart(t.clock, t.ref.value.status.state) == Clock(next, 0, 0.0)
  {
    var ct := ref.value.characterType;
    var next := ComboMapping()[ct][clock.state];
    ComboChainsEnd(ct, clock.state);
    assert CharacterSprites(sprites, SpriteOwner(ref)) == sprites[ct];
    assert (clock.frame + 1) % sprites[ct][clock.state] == 0;
    assert CompletionOf(ref, clock.state, ct) == Chained(next);
  }

  /**
   * When an attack animation wraps with no combo reserved, the attack ends:
   * the player is idle and no longer attacking, and the side's clock is reset.
   */
  lemma WrapWithoutReservationEnds(sprites: map<string, map<string, nat>>, clock: Clock, ref: Option<Ref>,
                                   deltaTime: real)
    requires PositiveCounts(sprites)
    requires ref.Some? && !ref.value.status.comboReserved
    requires IsKnownCharacter(ref.value.characterType) && sprites == FrameCounts()
    requires clock.state in sprites[ref.value.characterType] && !IsCycleState(clock.state)
    requires clock.frame + 1 == sprites[ref.value.characterType][clock.state]
    requires clock.timer + deltaTime >= FrameTime(clock.state)
    ensures var t := ClockStep(sprites, clock, ref, clock.state, deltaTime);
            && t.clock == Clock(Idle, 0, 0.0)
            && t.ref.value.status.state == Idle && !t.ref.value.status.isAttacking
            && !t.ref.value.status.canCombo
  {
    var ct := ref.value.characterType;
    KnownAttacksComplete(ref, clock.state);
    assert CompletionOf(ref, clock.state, ct) == Ended;
    assert CharacterSprites(sprites, SpriteOwner(ref)) == sprites[ct];
    assert (clock.frame + 1) % sprites[ct][clock.state] == 0;
    var c := clock.(timer := 0.0);
    assert FrameStep(sprites, c, ref).tick == Tick(Clock(Idle, 0, 0.0), Complete(ref, Ended));
  }

  /** The player-side view of a referenced `Player`, `None` for no reference. */
  function RefOf(p: Player?): Option<Ref>
    reads p, if p != null then {p.character} else {}
  {
    if p == null then None else Some(Ref(p.GetCharacterType(), p.Snapshot()))
  }

  class SpriteManager {
    var sharedSprites: map<string, map<string, nat>>
    var player1State: string
    var player2State: string
    var player1Frame: nat
    var player2Frame: nat
    var frameTimer: real
    var player2FrameTimer: real
    var player1X: real
    var player1Y: real
    var player1Dir: int
    var player2X: real
    var player2Y: real
    var player2Dir: int
    var player1Ref: Player?
    var player2Ref: Player?

    predicate Valid()
      reads this
    {
      PositiveCounts(sharedSprites)
    }

    function Clock1(): Clock
      reads this
    {
      Clock(player1State, player1Frame, frameTimer)
    }

    function Clock2(): Clock
      reads this
    {
      Clock(player2State, player2Frame, player2FrameTimer)
    }

    constructor ()
      ensures Valid() && sharedSprites == map[]
      ensures Clock1() == Clock(Idle, 0, 0.0) && Clock2() == Clock(Idle, 0, 0.0)
      ensures player1X == 400.0 && player1Y == 300.0 && player1Dir == -1
      ensures player2X == 600.0 && player2Y == 300.0 && player2Dir == -1
      ensures player1Ref == null && player2Ref == null
    {
      sharedSprites := map[];
      player1State, player2State := Idle, Idle;
      player1Frame, player2Frame := 0, 0;
      frameTimer, player2FrameTimer := 0.0, 0.0;
      player1X, player1Y, player1Dir := 400.0, 300.0, -1;
      player2X, player2Y, player2Dir := 600.0, 300.0, -1;
      player1Ref, player2Ref := null, null;
    }

    method SetPlayerReferences(player1: Player?, player2: Player?)
      modifies this`player1Ref, this`player2Ref
      ensures player1Ref == player1 && player2Ref == player2
    {
      player1Ref := player1;
      player2Ref := player2;
    }

    /** `load_sprites`: installs the three archetype tables, keeping any other entry. */
    method LoadSprites()
      modifies this`sharedSprites
      ensures sharedSprites == old(sharedSprites) + FrameCounts()
      ensures old(Valid()) ==> Valid()
    {
      // one entry per archetype, each replacing any earlier table of that archetype
      FrameCountsPositive();
      sharedSprites := sharedSprites + FrameCounts();
    }

    function GetCharacterSprites(characterType: string): (table: map<string, nat>)
      reads this
      ensures characterType in sharedSprites ==> table == sharedSprites[characterType]
      ensures characterType !in sharedSprites && Priest in sharedSprites ==> table == sharedSprites[Priest]
      ensures characterType !in sharedSprites && Priest !in sharedSprites ==> table == map[]
    {
      CharacterSprites(sharedSprites, characterType)
    }

    /** `_end_attack`: the player goes idle and the side's state and frame are reset. */
    method EndAttackOf(p: Player, isPlayer1: bool)
      modifies p`isAttacking, p`state, p`canCombo
      modifies this`player1State, this`player1Frame, this`player2State, this`player2Frame
      ensures p.Snapshot() == EndAttack(old(p.Snapshot()))
      ensures isPlayer1 ==> player1State == Idle && player1Frame == 0
                            && player2State == old(player2State) && player2Frame == old(player2Frame)
      ensures !isPlayer1 ==> player2State == Idle && player2Frame == 0
                             && player1State == old(player1State) && player1Frame == old(player1Frame)
    {
      p.isAttacking := false;
      p.state := Idle;
      p.canCombo := false;
      if isPlayer1 {
        player1State, player1Frame := Idle, 0;
      } else {
        player2State, player2Frame := Idle, 0;
      }
    }

    /** `_handle_animation_completion`: chains, ends the attack, or reports it unhandled. */
    method HandleAnimationCompletion(p: Player?, state: string, characterType: string, isPlayer1: bool)
      returns (handled: bool)
      modifies p, this`player1State, this`player1Frame, this`player2State, this`player2Frame
      ensures p != null ==> p.y == old(p.y) && p.dir == old(p.dir)
      ensures handled <==> CompletionOf(old(RefOf(p)), state, characterType) != Unhandled
      ensures RefOf(p) == Complete(old(RefOf(p)), CompletionOf(old(RefOf(p)), state, characterType))
      ensures CompletionOf(old(RefOf(p)), state, characterType) == Ended ==>
                if isPlayer1 then player1State == Idle && player1Frame == 0 && player2State == old(player2State)
                                  && player2Frame == old(player2Frame)
                else player2State == Idle && player2Frame == 0 && player1State == old(player1State)
                     && player1Frame == old(player1Frame)
      ensures CompletionOf(old(RefOf(p)), state, characterType) != Ended ==>
                && player1State == old(player1State) && player1Frame == old(player1Frame)
                && player2State == old(player2State) && player2Frame == old(player2Frame)
    {
      if p == null {
        return false;
      }
      if state == RageSkill {
        EndAttackOf(p, isPlayer1);
        return true;
      }
      var comboMapping := ComboMapping();
      if characterType in comboMapping && state in comboMapping[characterType] {
        if p.comboReserved {
          p.state := comboMapping[characterType][state];
          p.comboReserved := false;
          p.canCombo := false;
          return true;
        } else {
          EndAttackOf(p, isPlayer1);
          return true;
        }
      } else if state in [FastMiddleATK3, StrongMiddleATK2, StrongUpperATK2, StrongLowerATK, StrongUpperATK,
                          StrongLowerATK, FastMiddleATK, FastLowerATK, FastUpperATK, StrongMiddleATK, RageSkill] {
        if || (state == FastMiddleATK && characterType == Priest)
           || (state in [StrongUpperATK, StrongLowerATK] && characterType == Priest)
           || (state in [FastLowerATK, FastUpperATK, StrongMiddleATK, StrongLowerATK] && characterType == Fighter)
           || state == RageSkill
        {
          EndAttackOf(p, isPlayer1);
          return true;
        } else if state in [FastMiddleATK3, StrongMiddleATK2, StrongUpperATK2, StrongLowerATK] {
          EndAttackOf(p, isPlayer1);
          return true;
        }
      }
      return false;
    }

    /** `_update_combo_availability`. */
    method UpdateComboAvailability(p: Player?, state: string, characterType: string, frame: int)
      modifies p
      ensures p != null ==> p.y == old(p.y) && p.dir == old(p.dir)
      ensures RefOf(p) == ComboAvailability(old(RefOf(p)), characterType, state, frame)
    {
      if p == null {
        return;
      }
      var comboFrames := ComboFrames();
      if characterType in comboFrames && state in comboFrames[characterType]
         && frame >= comboFrames[characterType][state]
      {
        p.canCombo := true;
      }
    }

    /**
     * The advance block of `update_player1_state`, entered with the timer reset:
     * returns whether the source returns early from the update.
     */
    method AdvancePlayer1Frame() returns (finished: bool)
      requires Valid()
      modifies this`player1State, this`player1Frame, this`player2State, this`player2Frame, player1Ref
      ensures FrameStep(sharedSprites, old(Clock1()), old(RefOf(player1Ref)))
              == Advanced(Tick(Clock1(), RefOf(player1Ref)), finished)
      ensures player1Ref != null ==> player1Ref.y == old(player1Ref.y) && player1Ref.dir == old(player1Ref.dir)
      ensures player2State == old(player2State) && player2Frame == old(player2Frame)
    {
      finished := false;
      var characterType := if player1Ref != null then player1Ref.GetCharacterType() else Priest;
      var sprites := GetCharacterSprites(characterType);
      if player1State in sprites {
        var nextFrame := (player1Frame + 1) % sprites[player1State];
        if IsCycleState(player1State) {
          player1Frame := nextFrame;
          return true;
        }
        if nextFrame == 0 {
          finished := HandleAnimationCompletion(player1Ref, player1State, characterType, true);
          if finished {
            return;
          }
        }
        player1Frame := nextFrame;
      }
    }

    /**
     * The advance block of `update_player2_state`, entered with the timer reset:
     * returns whether the source returns early from the update.
     */
    method AdvancePlayer2Frame() returns (finished: bool)
      requires Valid()
      modifies this`player2State, this`player2Frame, this`player1State, this`player1Frame, player2Ref
      ensures FrameStep(sharedSprites, old(Clock2()), old(RefOf(player2Ref)))
              == Advanced(Tick(Clock2(), RefOf(player2Ref)), finished)
      ensures player2Ref != null ==> player2Ref.y == old(player2Ref.y) && player2Ref.dir == old(player2Ref.dir)
      ensures player1State == old(player1State) && player1Frame == old(player1Frame)
    {
      finished := false;
      var characterType := if player2Ref != null then player2Ref.GetCharacterType() else Priest;
      var sprites := GetCharacterSprites(characterType);
      if player2State in sprites {
        var nextFrame := (player2Frame + 1) % sprites[player2State];
        if IsCycleState(player2State) {
          player2Frame := nextFrame;
          return true;
        }
        if nextFrame == 0 {
          finished := HandleAnimationCompletion(player2Ref, player2State, characterType, false);
          if finished {
            return;
          }
        }
        player2Frame := nextFrame;
      }
    }

    /**
     * `update_player1_state`: restart on a state change, accumulate the timer,
     * advance once the frame time is reached, then refresh the combo availability.
     */
    method UpdatePlayer1State(newState: string, deltaTime: real)
      requires Valid()
      modifies this`player1State, this`player1Frame, this`frameTimer, this`player2State, this`player2Frame
      modifies player1Ref
      ensures var t := ClockStep(sharedSprites, old(Clock1()), old(RefOf(player1Ref)), newState, deltaTime);
              Clock1() == t.clock && RefOf(player1Ref) == t.ref
      ensures player1Ref != null ==> player1Ref.y == old(player1Ref.y) && player1Ref.dir == old(player1Ref.dir)
      ensures Clock2() == old(Clock2())
    {
      if player1State != newState {
        player1State := newState;
        player1Frame := 0;
        frameTimer := 0.0;
      }
      var currentFrameTime := FrameTime(player1State);
      frameTimer := frameTimer + deltaTime;
      var finished := false;
      if frameTimer >= currentFrameTime {
        frameTimer := 0.0;
        finished := AdvancePlayer1Frame();
      }
      if !finished && player1Ref != null {
        var characterType := player1Ref.GetCharacterType();
        UpdateComboAvailability(player1Ref, player1State, characterType, player1Frame);
      }
    }

    /** `update_player2_state`: the same clock on the second side's fields. */
    method UpdatePlayer2State(newState: string, deltaTime: real)
      requires Valid()
      modifies this`player2State, this`player2Frame, this`player2FrameTimer, this`player1State, this`player1Frame
      modifies player2Ref
      ensures var t := ClockStep(sharedSprites, old(Clock2()), old(RefOf(player2Ref)), newState, deltaTime);
              Clock2() == t.clock && RefOf(player2Ref) == t.ref
      ensures player2Ref != null ==> player2Ref.y == old(player2Ref.y) && player2Ref.dir == old(player2Ref.dir)
      ensures Clock1() == old(Clock1())
    {
      if player2State != newState {
        player2State := newState;
        player2Frame := 0;
        player2FrameTimer := 0.0;
      }
      var currentFrameTime := FrameTime(player2State);
      player2FrameTimer := player2FrameTimer + deltaTime;
      var finished := false;
      if player2FrameTimer >= currentFrameTime {
        player2FrameTimer := 0.0;
        finished := AdvancePlayer2Frame();
      }
      if !finished && player2Ref != null {
        var characterType := player2Ref.GetCharacterType();
        UpdateComboAvailability(player2Ref, player2State, characterType, player2Frame);
      }
    }

    method UpdatePlayer1Position(x: real, y: real)
      modifies this`player1X, this`player1Y
      ensures player1X == x && player1Y == y
    {
      player1X, player1Y := x, y;
    }

    method UpdatePlayer1Direction(direction: int)
      modifies this`player1Dir
      ensures player1Dir == direction
    {
      player1Dir := direction;
    }

    method UpdatePlayer2Position(x: real, y: real)
      modifies this`player2X, this`player2Y
      ensures player2X == x && player2Y == y
    {
      player2X, player2Y := x, y;
    }

    method UpdatePlayer2Direction(direction: int)
      modifies this`player2Dir
      ensures player2Dir == direction
    {
      player2Dir := direction;
    }
  }
}
