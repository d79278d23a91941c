// Scenes/characterSelectScene.py: each player cycles through three
// characters and locks a choice with a confirm key; the chosen character's
// "selected" animation then plays once. Frame indices and animation clocks
// live in dictionaries keyed by character name, so two players who pick the
// same character share one entry.

module CharacterSelect {
  import opened Common

  /** The selectable characters, in display order. */
  const Characters: seq<string> := ["fighter", "priest", "Thief"]
  /** Seconds per frame: ten frames per second. */
  const FrameTime: real := 1.0 / 10.0

  /** One player's cursor: index into `Characters`, locked flag, chosen character. */
  datatype Pick = Pick(index: int, selected: bool, character: Option<string>)

  /** The per-character frame indices and accumulated animation time. */
  datatype Track = Track(frameIndex: map<string, int>, animTime: map<string, real>)

  /** The scene's mutable state. */
  datatype Scene = Scene(p1: Pick, p2: Pick, track: Track, p1Complete: bool, p2Complete: bool)

  predicate PickValid(p: Pick) {
    && 0 <= p.index < |Characters|
    && (p.selected <==> p.character.Some?)
    && (p.selected ==> p.character.value == Characters[p.index])
  }

  /** A frame index is in `[0, n)`, or 0 for a character with no frames. */
  predicate FrameOk(n: nat, i: int) {
    0 <= i && (i < n || (n == 0 && i == 0))
  }

  /** Every character has a frame count, a frame index in range and a clock. */
  predicate TrackValid(frames: map<string, nat>, t: Track) {
    && (forall c | c in Characters :: c in frames)
    && (forall c | c in frames :: c in t.frameIndex && c in t.animTime && FrameOk(frames[c], t.frameIndex[c]))
  }

  predicate SceneValid(frames: map<string, nat>, s: Scene) {
    PickValid(s.p1) && PickValid(s.p2) && TrackValid(frames, s.track)
  }

  // --- Input ---------------------------------------------------------------------

  datatype Chosen = Chosen(pick: Pick, track: Track)

  /**
   * One key press for one player: the left and right keys move the cursor
   * cyclically, the confirm key locks the choice and restarts that
   * character's animation; a locked player ignores every key.
   */
  function SelectInput(p: Pick, t: Track, key: Key, left: Key, right: Key, confirm: Key): (r: Chosen)
    requires PickValid(p)
    ensures PickValid(r.pick)
    ensures p.selected ==> r == Chosen(p, t)
    ensures !p.selected && key == left ==>
              r == Chosen(p.(index := if p.index == 0 then |Characters| - 1 else p.index - 1), t)
    ensures !p.selected && key != left && key == right ==>
              r == Chosen(p.(index := if p.index == |Characters| - 1 then 0 else p.index + 1), t)
    ensures !p.selected && key != left && key != right && key == confirm ==>
              var c := Characters[p.index];
              && r.pick == Pick(p.index, true, Some(c))
              && r.track == Track(t.frameIndex[c := 0], t.animTime[c := 0.0])
    ensures !p.selected && key != left && key != right && key != confirm ==> r == Chosen(p, t)
  {
    if p.selected then Chosen(p, t)
    else if key == left then Chosen(p.(index := (p.index - 1) % |Characters|), t)
    else if key == right then Chosen(p.(index := (p.index + 1) % |Characters|), t)
    else if key == confirm then
      var c := Characters[p.index];
      Chosen(Pick(p.index, true, Some(c)), Track(t.frameIndex[c := 0], t.animTime[c := 0.0]))
    else Chosen(p, t)
  }

  /** One event: a key press goes to player 1 (a, d, space), then to player 2 (left, right, enter). */
  function InputStep(s: Scene, e: Event): Scene
    requires PickValid(s.p1) && PickValid(s.p2)
  {
    if e.KeyDown? then
      var a := SelectInput(s.p1, s.track, e.key, KeyA, KeyD, KeySpace);
      var b := SelectInput(s.p2, a.track, e.key, ArrowLeft, ArrowRight, KeyReturn);
      s.(p1 := a.pick, p2 := b.pick, track := b.track)
    else s
  }

  /** The scene after the events, in order. */
  function AfterInputs(s: Scene, events: seq<Event>): (r: Scene)
    requires PickValid(s.p1) && PickValid(s.p2)
    ensures PickValid(r.p1) && PickValid(r.p2)
    ensures r.p1Complete == s.p1Complete && r.p2Complete == s.p2Complete
    decreases |events|
  {
    if events == [] then s
    else InputStep(AfterInputs(s, events[..|events| - 1]), events[|events| - 1])
  }

  /** A key press keeps every character's frame index in range. */
  lemma SelectInputKeepsTrack(frames: map<string, nat>, p: Pick, t: Track, key: Key, left: Key, right: Key, confirm: Key)
    requires PickValid(p) && TrackValid(frames, t)
    ensures TrackValid(frames, SelectInput(p, t, key, left, right, confirm).track)
  {
    var r := SelectInput(p, t, key, left, right, confirm);
    if r.track != t {
      var c := Characters[p.index];
      assert r.track == Track(t.frameIndex[c := 0], t.animTime[c := 0.0]);
      forall d | d in frames
        ensures d in r.track.frameIndex && d in r.track.animTime && FrameOk(frames[d], r.track.frameIndex[d])
      {
        if d != c {
          assert r.track.frameIndex[d] == t.frameIndex[d];
        }
      }
    }
  }

  /** Input keeps every character's frame index in range. */
  lemma {:induction false} InputKeepsValid(frames: map<string, nat>, s: Scene, events: seq<Event>)
    requires SceneValid(frames, s)
    ensures SceneValid(frames, AfterInputs(s, events))
    decreases |events|
  {
    if events != [] {
      InputKeepsValid(frames, s, events[..|events| - 1]);
      var m := AfterInputs(s, events[..|events| - 1]);
      var e := events[|events| - 1];
      if e.KeyDown? {
        SelectInputKeepsTrack(frames, m.p1, m.track, e.key, KeyA, KeyD, KeySpace);
        var a := SelectInput(m.p1, m.track, e.key, KeyA, KeyD, KeySpace);
        SelectInputKeepsTrack(frames, m.p2, a.track, e.key, ArrowLeft, ArrowRight, KeyReturn);
      }
    }
  }

  /** A locked choice never changes again, whatever keys follow. */
  lemma {:induction false} SelectionLocks(s: Scene, events: seq<Event>)
    requires PickValid(s.p1) && PickValid(s.p2)
    ensures s.p1.selected ==> AfterInputs(s, events).p1 == s.p1
    ensures s.p2.selected ==> AfterInputs(s, events).p2 == s.p2
    decreases |events|
  {
    if events != [] {
      SelectionLocks(s, events[..|events| - 1]);
    }
  }

  /** Space locks player 1 on the character under the cursor and restarts its animation; player 2 is untouched. */
  lemma ConfirmPicksCursor(s: Scene)
    requires PickValid(s.p1) && PickValid(s.p2) && !s.p1.selected
    ensures var r := InputStep(s, KeyDown(KeySpace));
            && r.p1 == Pick(s.p1.index, true, Some(Characters[s.p1.index]))
            && r.track.frameIndex[Characters[s.p1.index]] == 0
            && r.track.animTime[Characters[s.p1.index]] == 0.0
            && r.p2 == s.p2
  {
  }

  // --- Animation -----------------------------------------------------------------

  datatype Animated = Animated(track: Track, complete: bool)

  /** Whether a player's character is animating: selected and not yet complete. */
  predicate Animating(p: Pick, complete: bool) {
    p.selected && p.character.Some? && !complete
  }

  /**
   * One player's block of `update`: a selected, unfinished character with
   * frames accumulates `dt`; once a frame time has accumulated, one frame
   * time is taken off and the frame advances; wrapping from the last frame
   * to the first marks the animation complete.
   */
  function Animate(frames: map<string, nat>, t: Track, p: Pick, complete: bool, dt: real): (r: Animated)
    requires p.character.Some? ==> (p.character.value in frames && p.character.value in t.frameIndex
                                   && p.character.value in t.animTime)
    ensures r.track.frameIndex.Keys == t.frameIndex.Keys && r.track.animTime.Keys == t.animTime.Keys
    ensures !Animating(p, complete) ==> r == Animated(t, complete)
    ensures Animating(p, complete) ==>
              var c := p.character.value;
              var n := frames[c];
              var time := t.animTime[c] + dt;
              && r.track.frameIndex - {c} == t.frameIndex - {c}
              && r.track.animTime - {c} == t.animTime - {c}
              && (n == 0 ==> r == Animated(t, false))
              && (n > 0 && time < FrameTime ==>
                    r == Animated(Track(t.frameIndex, t.animTime[c := time]), false))
              && (n > 0 && time >= FrameTime ==>
                    && r.track.animTime[c] == time - FrameTime
                    && (FrameOk(n, t.frameIndex[c]) ==>
                          && FrameOk(n, r.track.frameIndex[c])
                          && (r.complete <==> r.track.frameIndex[c] == 0)
                          && (t.frameIndex[c] < n - 1 ==> r.track.frameIndex[c] == t.frameIndex[c] + 1)
                          && (t.frameIndex[c] == n - 1 ==> r.track.frameIndex[c] == 0)))
  {
    if Animating(p, complete) then
      var c := p.character.value;
      if frames[c] > 0 then
        var time := t.animTime[c] + dt;
        if time >= FrameTime then
          var prev := t.frameIndex[c];
          var next := (prev + 1) % frames[c];
          Animated(Track(t.frameIndex[c := next], t.animTime[c := time - FrameTime]),
                   prev == frames[c] - 1 && next == 0)
        else Animated(Track(t.frameIndex, t.animTime[c := time]), complete)
      else Animated(t, complete)
    else Animated(t, complete)
  }

  /** `update`: player 1's block, then player 2's on the dictionaries player 1 left. */
  function Updated(frames: map<string, nat>, s: Scene, dt: real): (r: Scene)
    requires SceneValid(frames, s)
    ensures SceneValid(frames, r)
    ensures r.p1 == s.p1 && r.p2 == s.p2
    ensures s.p1Complete ==> r.p1Complete
    ensures s.p2Complete ==> r.p2Complete
  {
    var a := Animate(frames, s.track, s.p1, s.p1Complete, dt);
    var b := Animate(frames, a.track, s.p2, s.p2Complete, dt);
    s.(track := b.track, p1Complete := a.complete, p2Complete := b.complete)
  }

  /** Before any selection nothing animates and no animation completes. */
  lemma NothingAnimatesUnselected(frames: map<string, nat>, s: Scene, dt: real)
    requires SceneValid(frames, s) && !s.p1.selected && !s.p2.selected
    ensures Updated(frames, s, dt) == s
  {
  }

  /**
   * Two players who pick the same character share its frame index, so one
   * `update` can advance it twice: a full frame time of `dt` is added once
   * per player.
   */
  lemma SharedCharacterAdvancesTwice(frames: map<string, nat>, s: Scene)
    requires SceneValid(frames, s)
    requires s.p1.selected && s.p2.selected && s.p1.character == s.p2.character
    requires !s.p1Complete && !s.p2Complete
    requires var c := s.p1.character.value; frames[c] == 4 && s.track.frameIndex[c] == 0 && s.track.animTime[c] == 0.0
    ensures var c := s.p1.character.value;
            Updated(frames, s, FrameTime).track.frameIndex[c] == 2
  {
    var c := s.p1.character.value;
    var a := Animate(frames, s.track, s.p1, s.p1Complete, FrameTime);
    assert a.track.frameIndex[c] == 1 && a.track.animTime[c] == 0.0;
  }

  // --- The scene object ----------------------------------------------------------

  class CharacterSelectScene {
    var p1Index: int
    var p2Index: int
    var p1Selected: bool
    var p2Selected: bool
    var p1Character: Option<string>
    var p2Character: Option<string>
    /** The number of "selected" sprites per character, fixed when the scene is initialised. */
    const spriteFrames: map<string, nat>
    var spriteFrameIndex: map<string, int>
    var spriteAnimationTime: map<string, real>
    var p1AnimationComplete: bool
    var p2AnimationComplete: bool

    function State(): Scene
      reads this
    {
      Scene(Pick(p1Index, p1Selected, p1Character), Pick(p2Index, p2Selected, p2Character),
            Track(spriteFrameIndex, spriteAnimationTime), p1AnimationComplete, p2AnimationComplete)
    }

    predicate Valid()
      reads this
    {
      SceneValid(spriteFrames, State())
    }

    /**
     * `__init__` followed by `initialize`, with the sprite counts found on
     * disk passed in: both cursors on the first character, nothing
     * selected, every frame index and clock at zero.
     */
    constructor (fighterFrames: nat, priestFrames: nat, thiefFrames: nat)
      ensures Valid()
      ensures spriteFrames == map["fighter" := fighterFrames, "priest" := priestFrames, "Thief" := thiefFrames]
      ensures State() == Scene(Pick(0, false, None), Pick(0, false, None),
                               Track(map["fighter" := 0, "priest" := 0, "Thief" := 0],
                                     map["fighter" := 0.0, "priest" := 0.0, "Thief" := 0.0]), false, false)
    {
      p1Index, p2Index := 0, 0;
      p1Selected, p2Selected := false, false;
      p1Character, p2Character := None, None;
      spriteFrames := map["fighter" := fighterFrames, "priest" := priestFrames, "Thief" := thiefFrames];
      spriteFrameIndex := map["fighter" := 0, "priest" := 0, "Thief" := 0];
      spriteAnimationTime := map["fighter" := 0.0, "priest" := 0.0, "Thief" := 0.0];
      p1AnimationComplete, p2AnimationComplete := false, false;
    }

    /** `handle_input`: the events move the cursors and lock choices, in order. */
    method HandleInput(events: seq<Event>)
      requires Valid()
      modifies this`p1Index, this`p2Index, this`p1Selected, this`p2Selected, this`p1Character, this`p2Character,
               this`spriteFrameIndex, this`spriteAnimationTime
      ensures State() == AfterInputs(old(State()), events)
      ensures Valid()
    {
      InputKeepsValid(spriteFrames, State(), events);
      for i := 0 to |events|
        invariant PickValid(State().p1) && PickValid(State().p2)
        invariant State() == AfterInputs(old(State()), events[..i])
      {
        assert events[..i + 1][..i] == events[..i];
        HandleEvent(events[i]);
      }
      assert events[..|events|] == events;
    }

    /** `update`: advance each selected, unfinished character's animation by `deltaTime`. */
    method Update(deltaTime: real)
      requires Valid()
      modifies this`spriteFrameIndex, this`spriteAnimationTime, this`p1AnimationComplete, this`p2AnimationComplete
      ensures State() == Updated(spriteFrames, old(State()), deltaTime)
      ensures Valid()
    {
      ghost var before := State();
      AnimatePlayer1(deltaTime);
      ghost var a := Animate(spriteFrames, before.track, before.p1, before.p1Complete, deltaTime);
      assert State() == before.(track := a.track, p1Complete := a.complete);
      AnimatePlayer2(deltaTime);
    }

    /** One event of `handle_input`: a key press goes to player 1's block, then to player 2's. */
    method HandleEvent(event: Event)
      requires PickValid(State().p1) && PickValid(State().p2)
      modifies this`p1Index, this`p2Index, this`p1Selected, this`p2Selected, this`p1Character, this`p2Character,
               this`spriteFrameIndex, this`spriteAnimationTime
      ensures State() == InputStep(old(State()), event)
    {
      if event.KeyDown? {
        ghost var before := State();
        SelectPlayer1(event.key);
        ghost var a := SelectInput(before.p1, before.track, event.key, KeyA, KeyD, KeySpace);
        assert State() == before.(p1 := a.pick, track := a.track);
        SelectPlayer2(event.key);
      }
    }

    /** Player 1's block of `handle_input` for one key press: a, d and space. */
    method SelectPlayer1(key: Key)
      requires PickValid(Pick(p1Index, p1Selected, p1Character))
      modifies this`p1Index, this`p1Selected, this`p1Character, this`spriteFrameIndex, this`spriteAnimationTime
      ensures Chosen(Pick(p1Index, p1Selected, p1Character), Track(spriteFrameIndex, spriteAnimationTime))
              == SelectInput(old(Pick(p1Index, p1Selected, p1Character)),
                             old(Track(spriteFrameIndex, spriteAnimationTime)), key, KeyA, KeyD, KeySpace)
    {
      if !p1Selected {
        if key == KeyA {
          p1Index := (p1Index - 1) % |Characters|;
        } else if key == KeyD {
          p1Index := (p1Index + 1) % |Characters|;
        } else if key == KeySpace {
          p1Selected := true;
          p1Character := Some(Characters[p1Index]);
          spriteFrameIndex := spriteFrameIndex[p1Character.value := 0];
          spriteAnimationTime := spriteAnimationTime[p1Character.value := 0.0];
        }
      }
    }

    /** Player 2's block of `handle_input` for one key press: left, right and enter. */
    method SelectPlayer2(key: Key)
      requires PickValid(Pick(p2Index, p2Selected, p2Character))
      modifies this`p2Index, this`p2Selected, this`p2Character, this`spriteFrameIndex, this`spriteAnimationTime
      ensures Chosen(Pick(p2Index, p2Selected, p2Character), Track(spriteFrameIndex, spriteAnimationTime))
              == SelectInput(old(Pick(p2Index, p2Selected, p2Character)),
                             old(Track(spriteFrameIndex, spriteAnimationTime)), key, ArrowLeft, ArrowRight, KeyReturn)
    {
      if !p2Selected {
        if key == ArrowLeft {
          p2Index := (p2Index - 1) % |Characters|;
        } else if key == ArrowRight {
          p2Index := (p2Index + 1) % |Characters|;
        } else if key == KeyReturn {
          p2Selected := true;
          p2Character := Some(Characters[p2Index]);
          spriteFrameIndex := spriteFrameIndex[p2Character.value := 0];
          spriteAnimationTime := spriteAnimationTime[p2Character.value := 0.0];
        }
      }
    }

    /** Player 1's block of `update`. */
    method AnimatePlayer1(deltaTime: real)
      requires p1Character.Some? ==> (p1Character.value in spriteFrames && p1Character.value in spriteFrameIndex
                                      && p1Character.value in spriteAnimationTime)
      modifies this`spriteFrameIndex, this`spriteAnimationTime, this`p1AnimationComplete
      ensures Animated(Track(spriteFrameIndex, spriteAnimationTime), p1AnimationComplete)
              == Animate(spriteFrames, old(Track(spriteFrameIndex, spriteAnimationTime)),
                         Pick(p1Index, p1Selected, p1Character), old(p1AnimationComplete), deltaTime)
    {
      if p1Selected && p1Character.Some? && !p1AnimationComplete {
        var c := p1Character.value;
        if spriteFrames[c] > 0 {
          spriteAnimationTime := spriteAnimationTime[c := spriteAnimationTime[c] + deltaTime];
          if spriteAnimationTime[c] >= FrameTime {
            spriteAnimationTime := spriteAnimationTime[c := spriteAnimationTime[c] - FrameTime];
            var prevFrame := spriteFrameIndex[c];
            spriteFrameIndex := spriteFrameIndex[c := (spriteFrameIndex[c] + 1) % spriteFrames[c]];
            if prevFrame == spriteFrames[c] - 1 && spriteFrameIndex[c] == 0 {
              p1AnimationComplete := true;
            }
          }
        }
      }
    }

    /** Player 2's block of `update`, on the dictionaries player 1's block left. */
    method AnimatePlayer2(deltaTime: real)
      requires p2Character.Some? ==> (p2Character.value in spriteFrames && p2Character.value in spriteFrameIndex
                                      && p2Character.value in spriteAnimationTime)
      modifies this`spriteFrameIndex, this`spriteAnimationTime, this`p2AnimationComplete
      ensures Animated(Track(spriteFrameIndex, spriteAnimationTime), p2AnimationComplete)
              == Animate(spriteFrames, old(Track(spriteFrameIndex, spriteAnimationTime)),
                         Pick(p2Index, p2Selected, p2Character), old(p2AnimationComplete), deltaTime)
    {
      if p2Selected && p2Character.Some? && !p2AnimationComplete {
        var c := p2Character.value;
        if spriteFrames[c] > 0 {
          spriteAnimationTime := spriteAnimationTime[c := spriteAnimationTime[c] + deltaTime];
          if spriteAnimationTime[c] >= FrameTime {
            spriteAnimationTime := spriteAnimationTime[c := spriteAnimationTime[c] - FrameTime];
            var prevFrame := spriteFrameIndex[c];
            spriteFrameIndex := spriteFrameIndex[c := (spriteFrameIndex[c] + 1) % spriteFrames[c]];
            if prevFrame == spriteFrames[c] - 1 && spriteFrameIndex[c] == 0 {
              p2AnimationComplete := true;
            }
          }
        }
      }
    }

    /** `is_both_selected`: both players have a character and both animations have played. */
    function IsBothSelected(): (r: bool)
      requires Valid()
      reads this
      ensures r <==> p1Character.Some? && p2Character.Some? && p1AnimationComplete && p2AnimationComplete
    {
      p1Selected && p2Selected && p1AnimationComplete && p2AnimationComplete
    }

    /** `get_selected_characters`: each player's locked character, or none while still choosing. */
    function GetSelectedCharacters(): (r: (Option<string>, Option<string>))
      requires Valid()
      reads this
      ensures r.0.Some? <==> p1Selected
      ensures r.1.Some? <==> p2Selected
      ensures r.0.Some? ==> r.0.value == Characters[p1Index] && r.0.value in spriteFrames
      ensures r.1.Some? ==> r.1.value == Characters[p2Index] && r.1.value in spriteFrames
    {
      (p1Character, p2Character)
    }
  }
}
