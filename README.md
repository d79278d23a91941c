# 2DGP fighting game — a Dafny model of its game-logic core

This project models the logic core of a two-player 2D fighting game.

- **Sprite manager.** It runs each side's animation clock. It chains combo attacks when an animation wraps, and it opens the combo window at a per-attack frame.
- **Input manager.** It turns keyboard events into held keys, move directions, attack labels, combo tags, stances and get-up requests.
- **Players.** The base player and its left and right subclasses resolve one tick: a combo reservation, an attack start, or a walk.
- **Character.** It holds the archetype and its move speed.
- **Collision handler.** It pushes overlapping players apart and clamps them to the screen.
- **Character-select scene.** It holds the cursors, the locked choices and a play-once animation.
- **Legacy files.** The earlier, simpler versions of the sprite manager, input manager and players are modelled as separate small modules.

The modules, by file:

| file | module | models |
|---|---|---|
| common.dfy | `Common` | keys, events, character and state labels, ASCII `lower()` and substring search |
| character.dfy | `Character` | Character/character.py |
| player.dfy | `Player` | Player/player.py |
| player_left.dfy | `PlayerLeft` | Player/playerLeft.py |
| player_right.dfy | `PlayerRight` | Player/playerRight.py |
| sprite_manager.dfy | `SpriteManager` | spriteManager.py |
| io_manager.dfy | `IOManager` | ioManager.py |
| collision.dfy | `Collision` | handle_collision.py |
| character_select.dfy | `CharacterSelect` | Scenes/characterSelectScene.py |
| combo_consistency.dfy | `ComboConsistency` | how the players' combo tables line up with the sprite manager's |
| legacy_*.dfy | `Legacy…` | SpriteManager.py, IOManager.py, player/Player.py, player/PlayerLeft.py, player/PlayerRight.py |

Some source code changes state step by step: the update methods, the event loops, and the collision resolver that assigns `player.x`. That code is written as Dafny classes and methods with `modifies` frames. Each such method's `ensures` ties the new state to a pure function of the old state:

- `Player.Step` and its left and right variants;
- `SpriteManager.ClockStep`, `SpriteManager.FrameStep` and `SpriteManager.ComboAvailability`;
- `IOManager.KeysAfter`;
- `Collision.ResolvedPositions`;
- `CharacterSelect.AfterInputs` and `CharacterSelect.Updated`;
- `LegacySpriteManager.Step`.

The properties are stated on those functions and in lemmas. Python's subclasses become modules of methods over the shared `Player.Player` class. Python dictionaries become `map`s. Strings stay strings.

Two details follow the code rather than its comments or the rest of the game:

- Move speeds are 250/300/300 (Character/character.py:13-17), not the 200/270/270 of the comments in config.py.
- The character-select scene's third character is spelled `"Thief"` (Scenes/characterSelectScene.py:7), unlike the `"thief"` used everywhere else.

## Model

| member | source | states |
|---|---|---|
| Character.MoveSpeedOf | Character/character.py:13-17 | priest 250, thief and fighter 300, any other archetype the 200 default; nothing else is possible |
| Character.Character.constructor | Character/character.py:6-18 | the archetype is stored; frame 0, position (400, 300), state Idle |
| Character.Character.SetCharacterType | Character/character.py:44-51 | the archetype read back is the one set |
| Character.Character.GetMoveSpeed | Character/character.py:53-55 | 250 for the priest, 300 for the thief and the fighter, the 200 default for any other archetype |
| Character.Character.GetCharacterType | Character/character.py:49-51 | the archetype the object holds |
| Character.Character.Initialize | Character/character.py:20-28 | the per-archetype initialisation changes nothing |
| Character.Character.Update | Character/character.py:30-38 | the per-archetype update changes nothing |
| Player.CanUseAttackFor | Player/player.py:24-27 | only known archetypes may use attacks; only the priest has the rage skill; a fighter has every attack but rage; a thief has exactly middle-fast and the three strong attacks; a priest has exactly middle-fast, the three strong attacks and rage |
| Player.IsAttackStateLabel | Player/player.py:29-32 | a state is an attack state iff it is one of the seven attack inputs or one of the four later chain stages; idle and walking are not |
| Player.Step | Player/player.py:41-116 | a combo press in an eligible attack only reserves the combo; while attacking nothing else changes; a legal attack starts when idle, with `can_combo` per the archetype table; otherwise the player walks left or right at the archetype's full speed in state Walk, or idles |
| Player.Player.constructor | Player/player.py:6-22 | position as given, facing right, idle, no attack flags; the character copy holds the archetype and position |
| Player.Player.SetCharacterType | Player/player.py:121-127 | the archetype read back is the one set; the character's position, state and frame are kept |
| Player.Player.Initialize | Player/player.py:38-39 | changes nothing |
| Player.Player.CanUseAttack | Player/player.py:24-27 | only a known archetype may use an attack; the priest exactly middle-fast, the three strong attacks and rage; the thief exactly middle-fast and the three strong attacks; the fighter every attack input but rage |
| Player.Player.IsAttackState | Player/player.py:29-32 | the player's state is an attack state iff it is an attack input or a later chain stage; idle and walking are not |
| Player.Player.GetMoveSpeed | Player/player.py:34-36 | the character's speed: 250 for the priest, 300 for the thief and the fighter, 200 otherwise |
| Player.Player.GetCharacterType | Player/player.py:125-127 | the archetype the character object holds |
| Player.Player.Update | Player/player.py:41-116 | the new flags and position are `Player.Step` of the old ones; `y` and `dir` are unchanged; the character copy is synchronised to the old position and state, and its archetype and frame are kept |
| PlayerLeft.Step | Player/playerLeft.py:12-73 | the left player's combo table and attack start without the legality check; fast-upper and rage inputs never start an attack; left walks back at half speed |
| PlayerLeft.Create | Player/playerLeft.py:5-6 | a fresh fighter at (400, 300), idle |
| PlayerLeft.Initialize | Player/playerLeft.py:8-10 | faces right (`dir` -1), nothing else changes |
| PlayerLeft.Update | Player/playerLeft.py:12-73 | the new flags and position are `PlayerLeft.Step` of the old ones; `y` and `dir` are kept; the character copy takes the old position and state and keeps its archetype and frame |
| PlayerRight.Step | Player/playerRight.py:12-64 | the right player's combo table; a reservation only in an eligible state; fast-lower, fast-upper and rage inputs never start an attack; left moves 1 pixel per tick in state Walk, right 0.5 pixels in state BackWalk, with neither speed nor time step |
| PlayerRight.Create | Player/playerRight.py:5-6 | a fresh priest at (600, 300), idle |
| PlayerRight.Initialize | Player/playerRight.py:8-10 | faces left (`dir` 1), nothing else changes |
| PlayerRight.Update | Player/playerRight.py:12-64 | the new flags and position are `PlayerRight.Step` of the old ones; `y` and `dir` are kept; the character copy takes the old position and state and keeps its archetype and frame |
| SpriteManager.CharacterSprites | spriteManager.py:78-80 | an archetype's own table, else the priest's, else empty |
| SpriteManager.FrameTime | spriteManager.py:179-188 | 1/18 for rage, 0.1 when the lower-cased label contains "fast", else 0.15 when it contains "strong", else 0.083; always positive |
| SpriteManager.CycleFrameTimes | spriteManager.py:179-188 | Idle, Walk and BackWalk use the default frame time |
| SpriteManager.FastFrameTimes | spriteManager.py:179-188 | every fast attack label uses 0.1 |
| SpriteManager.StrongFrameTimes | spriteManager.py:179-188 | every strong attack label uses 0.15 |
| SpriteManager.DefaultFrameTimeOf | spriteManager.py:179-188 | a label containing neither "fast" nor "strong" in any case, other than rage, uses the default |
| SpriteManager.FastFrameTimeOf | spriteManager.py:179-188 | a label other than rage containing "fast" uses 0.1 |
| SpriteManager.StrongFrameTimeOf | spriteManager.py:179-188 | a label containing "strong" but not "fast" uses 0.15 |
| SpriteManager.LowerWithout | spriteManager.py:181-186 | lower-casing introduces no letter whose lower and upper forms were both absent |
| SpriteManager.FrameCountsPositive | spriteManager.py:35-76 | every animation table has at least one sprite |
| SpriteManager.CompletionOf | spriteManager.py:82-142 | no player reference: unhandled; rage: the attack ends; a chainable state chains when a combo is reserved and ends otherwise; a chain only from a chainable, reserved state |
| SpriteManager.EndAttack | spriteManager.py:144-155 | idle, not attacking, no combo window; the reservation and position are kept |
| SpriteManager.ChainTo | spriteManager.py:114-120 | the next stage, with the reservation and combo window cleared and the attack flag kept |
| SpriteManager.ComboAvailability | spriteManager.py:157-177 | the combo window opens once the frame reaches the attack's threshold and is never closed here; nothing else changes |
| SpriteManager.Restart | spriteManager.py:192-195 | a state change resets the frame and timer; the same state keeps the clock |
| SpriteManager.FrameStep | spriteManager.py:202-223 | a state with sprites always moves one frame modulo its count, except at the wrap of an attack that `CompletionOf` handles, which ends (Idle at frame 0) or chains the attack and returns early; cycle states return early after advancing; a state without sprites changes nothing; the frame stays in range |
| SpriteManager.ClockStep | spriteManager.py:190-229 | the timer is reset when a frame time is reached and otherwise accumulates; at most one advance, modulo the sprite count; the state is the new one unless the attack ended into Idle; walking and idling never touch the player; the frame stays in range |
| SpriteManager.ClockStepAdvances | spriteManager.py:190-229 | once the frame time is reached a state with sprites moves one frame, unless an attack wraps and its completion is handled, which ends the attack on an Idle clock at frame 0 or chains it with the clock's timer zeroed, and skips the combo refresh; every other step in an attack applies `ComboAvailability` at the new frame |
| SpriteManager.AttackStatesAreAnimatedAttacks | Player/player.py:29-32 | among the animations a known archetype has sprites for, the attack states are exactly those other than walking and idling |
| SpriteManager.ComboFramesMatchChains | spriteManager.py:93-108 | combo thresholds exist exactly for the chainable (archetype, state) pairs |
| SpriteManager.ComboChainsEnd | spriteManager.py:93-108 | each chain's successor is a different attack with sprites and no loop state; no chain is longer than three stages |
| SpriteManager.KnownAttacksComplete | spriteManager.py:82-142 | for a known archetype every chainable attack and rage is handled when it wraps |
| SpriteManager.UnknownArchetypeLoops | spriteManager.py:78-142 | an unknown archetype draws priest sprites, and its fast and strong middle attacks wrap without being handled |
| SpriteManager.ChainRestartsNextStage | spriteManager.py:190-229 | a reserved chainable attack that wraps restarts at frame 0 of its successor with the reservation cleared |
| SpriteManager.WrapWithoutReservationEnds | spriteManager.py:190-229 | an unreserved chainable attack that wraps ends in Idle at frame 0 |
| SpriteManager.SpriteManager.constructor | spriteManager.py:5-24 | both clocks idle at frame 0, no references, default positions and directions |
| SpriteManager.SpriteManager.SetPlayerReferences | spriteManager.py:26-29 | stores both references |
| SpriteManager.SpriteManager.LoadSprites | spriteManager.py:31-76 | installs the three archetype tables and keeps every count positive |
| SpriteManager.SpriteManager.GetCharacterSprites | spriteManager.py:78-80 | the loaded table of the archetype, else the priest's, else empty |
| SpriteManager.SpriteManager.EndAttackOf | spriteManager.py:144-155 | the player's flags are `EndAttack` of the old ones; the side's state and frame become Idle and 0 |
| SpriteManager.SpriteManager.HandleAnimationCompletion | spriteManager.py:82-142 | returns whether the completion is handled; the player's new flags follow `CompletionOf`; the player's `y` and `dir` are kept |
| SpriteManager.SpriteManager.UpdateComboAvailability | spriteManager.py:157-177 | the player's new flags are `ComboAvailability` of the old ones; the player's `y` and `dir` are kept |
| SpriteManager.SpriteManager.AdvancePlayer1Frame | spriteManager.py:202-223 | the side's clock and player are `FrameStep` of the old ones; the player's `y` and `dir` are kept; the other side is untouched |
| SpriteManager.SpriteManager.AdvancePlayer2Frame | spriteManager.py:243-264 | the second side's clock and player are `FrameStep` of the old ones; the player's `y` and `dir` are kept; the first side is untouched |
| SpriteManager.SpriteManager.UpdatePlayer1State | spriteManager.py:190-229 | the first side's clock and player are `ClockStep` of the old ones; the player's `y` and `dir` are kept; the second clock is unchanged |
| SpriteManager.SpriteManager.UpdatePlayer2State | spriteManager.py:231-270 | the second side's clock and player are `ClockStep` of the old ones; the player's `y` and `dir` are kept; the first clock is unchanged |
| SpriteManager.SpriteManager.UpdatePlayer1Position | spriteManager.py:272-274 | sets only player 1's position |
| SpriteManager.SpriteManager.UpdatePlayer1Direction | spriteManager.py:276-277 | sets only player 1's direction |
| SpriteManager.SpriteManager.UpdatePlayer2Position | spriteManager.py:279-281 | sets only player 2's position |
| SpriteManager.SpriteManager.UpdatePlayer2Direction | spriteManager.py:283-284 | sets only player 2's direction |
| IOManager.KeysAfter | ioManager.py:31-63 | applying events keeps the set of tracked key names |
| IOManager.HeldIsLastPress | ioManager.py:31-63 | after the events a key is held exactly when its last press or release was a press (or, with none, it was held before) |
| IOManager.Direction | ioManager.py:53-63 | priority up, down, left, right; none when no direction key is held |
| IOManager.Attack | ioManager.py:193-211 | no attack iff neither attack key is held; fast beats strong; up selects Upper, else down selects Lower, else Middle; never rage |
| IOManager.Attack1 | ioManager.py:87-109 | the rage key wins over every other key; otherwise as `Attack` |
| IOManager.ComboTag | ioManager.py:111-134 | the fast-middle, strong-middle and strong-upper combo tags each exactly for their state and keys |
| IOManager.Stance | ioManager.py:238-254 | High iff up, Low iff down without up, Middle otherwise |
| IOManager.FirstCharacterChoice | ioManager.py:19-29 | a choice is a known archetype; none iff no event presses 1, 2 or 3 |
| IOManager.FirstChoiceDecides | ioManager.py:19-29 | the first press of 1, 2 or 3 decides the choice: 1 gives the priest, 2 the thief, 3 the fighter |
| IOManager.IOManager.constructor | ioManager.py:4-9 | all keys released, no combo input |
| IOManager.IOManager.HandleSpaceInput | ioManager.py:11-17 | true iff some event presses space |
| IOManager.IOManager.CheckEscape | ioManager.py:266-272 | true iff some event presses escape |
| IOManager.IOManager.HandleCharacterChangePlayer1 | ioManager.py:19-29 | the result is `FirstCharacterChoice` of the events, so by `FirstChoiceDecides` the first press of 1, 2 or 3 decides |
| IOManager.IOManager.HandleMoveInputPlayer1 | ioManager.py:31-63 | held keys follow the w/s/a/d events; the result is `Direction` of the held keys |
| IOManager.IOManager.HandleATKInputPlayer1 | ioManager.py:65-109 | held keys follow the attack-key events; the combo flag is raised by an f or g press; the result is `Attack1` of the held keys |
| IOManager.IOManager.CheckPlayer1ComboInput | ioManager.py:111-134 | the combo flag is consumed; a tag only when it was raised |
| IOManager.IOManager.HandleMoveInputPlayer2 | ioManager.py:136-168 | held keys follow the arrow events; the result is `Direction` of the held arrows |
| IOManager.IOManager.HandleATKInputPlayer2 | ioManager.py:170-211 | held keys follow ctrl, shift and arrow events; a ctrl or shift press raises the combo flag; the result is `Attack` of the held keys |
| IOManager.IOManager.CheckPlayer2ComboInput | ioManager.py:213-236 | the combo flag is consumed; a tag only when it was raised |
| IOManager.IOManager.GetPlayer1PositionState | ioManager.py:238-245 | High iff w is held, Low iff s is held without w, Middle otherwise |
| IOManager.IOManager.GetPlayer2PositionState | ioManager.py:247-254 | High iff up is held, Low iff down is held without up, Middle otherwise |
| IOManager.IOManager.CheckPlayer1GetupInput | ioManager.py:256-259 | true iff any of w, a, s, d is held |
| IOManager.IOManager.CheckPlayer2GetupInput | ioManager.py:261-264 | true iff any arrow key is held |
| Collision.GetOverlap | handle_collision.py:23-29 | on each axis the overlap is the length shared by the two intervals: right edge of the first minus left edge of the second for a partial overlap, from either side, and the inner box's extent for containment; it never exceeds either box's width or height |
| Collision.OverlapSymmetric | handle_collision.py:23-29 | the overlap does not depend on the order of the boxes |
| Collision.CollisionSymmetric | handle_collision.py:17-20 | the collision test does not depend on argument order |
| Collision.TouchingBoxesDoNotCollide | handle_collision.py:17-20 | boxes sharing only an edge do not collide |
| Collision.OverlapIffCollision | handle_collision.py:17-29 | positive overlap on both axes implies a collision, and for boxes of positive extent the converse holds |
| Collision.DegenerateCollisionWithoutOverlap | handle_collision.py:58-65 | a zero-width box can collide with no positive overlap, the case the resolver's second test returns on |
| Collision.ClampPosition | handle_collision.py:150-164 | the result lies within the margins when they are ordered; a position inside is kept; a position left of the margin goes to the margin, one right of `windowWidth - margin` (and not left of the margin) goes there |
| Collision.ClampIdempotent | handle_collision.py:150-164 | clamping twice is clamping once |
| Collision.PushRatio | handle_collision.py:101-115 | 0.2 when only player 1 attacks, 0.8 when only player 2 does, 0.5 otherwise |
| Collision.NoPushCases | handle_collision.py:58-76 | without a positive overlap, or with both hit, or both airborne, nobody moves |
| Collision.OneSidedPush | handle_collision.py:78-98 | a hit or airborne player stays put and the other is pushed away by the whole horizontal overlap |
| Collision.BalancedPush | handle_collision.py:100-125 | between two normal players the pushes point apart, add up to the horizontal overlap, and player 1's share is the ratio |
| Collision.SpawnSeparation | handle_collision.py:203-226 | players closer than the minimum end exactly the minimum apart, each moved away from the other by half the shortfall, so their order is kept; others are unchanged |
| Collision.CheckPlayerCollision | handle_collision.py:32-40 | a collision iff both players exist and their boxes collide |
| Collision.ClampToScreen | handle_collision.py:132-147 | x becomes its clamp; the flags are unchanged |
| Collision.ResolvePlayerCollision | handle_collision.py:43-129 | for two distinct players the new positions are `ResolvedPositions` of the old ones; flags never change; with a missing player nothing changes |
| Collision.SafeMovePlayer | handle_collision.py:167-200 | no player gives 0; otherwise the result is the player's final x, the clamped target when there is no collision, and `ResolvedPositions` from the clamped target when there is one; the other player stays put without a collision or without a moving player; no flag changes |
| Collision.PreventOverlapOnSpawn | handle_collision.py:203-230 | players closer than the minimum (120 by default) are separated by `SpawnSeparation` and clamped; others stay put |
| Collision.DefaultSpawnKeepsGap | handle_collision.py:203-230 | with the default gap of 120 and margin of 60, a too-close pair spawned at least 60 inside the margins is not clamped and ends exactly 120 apart, order kept |
| Collision.Body.constructor | handle_collision.py:68-73 | a body with the resolver's default flags: not hit, grounded, not attacking |
| CharacterSelect.SelectInput | Scenes/characterSelectScene.py:51-74 | a locked player ignores keys; left and right move the cursor cyclically (0 goes to 2, 2 to 0); confirm locks the character under the cursor and restarts its animation |
| CharacterSelect.AfterInputs | Scenes/characterSelectScene.py:46-74 | cursors stay in range and a locked player's character is the one under its cursor; the completion flags are untouched |
| CharacterSelect.InputKeepsValid | Scenes/characterSelectScene.py:46-74 | input keeps every character's frame index in range |
| CharacterSelect.SelectionLocks | Scenes/characterSelectScene.py:51-64 | once locked, a player's cursor and character never change |
| CharacterSelect.ConfirmPicksCursor | Scenes/characterSelectScene.py:56-61 | space locks player 1 on the character under the cursor and zeroes its frame and clock |
| CharacterSelect.Animate | Scenes/characterSelectScene.py:79-91 | only a selected, unfinished character with frames animates; its clock loses one frame time per advance; at most one advance; the frame stays in range; the last frame wraps to frame 0, and completion happens exactly on that wrap; other characters untouched |
| CharacterSelect.Updated | Scenes/characterSelectScene.py:76-106 | choices are unchanged, frame indices stay in range, and a completed animation stays completed |
| CharacterSelect.NothingAnimatesUnselected | Scenes/characterSelectScene.py:79-94 | before any choice an update changes nothing |
| CharacterSelect.SharedCharacterAdvancesTwice | Scenes/characterSelectScene.py:79-106 | two players on the same character share its frame, so one update can advance it twice |
| CharacterSelect.CharacterSelectScene.constructor | Scenes/characterSelectScene.py:6-44 | cursors at 0, nothing selected, every frame index and clock 0 |
| CharacterSelect.CharacterSelectScene.HandleInput | Scenes/characterSelectScene.py:46-74 | the new state is `AfterInputs` of the old one and the events |
| CharacterSelect.CharacterSelectScene.HandleEvent | Scenes/characterSelectScene.py:49-74 | the scene after one event is `InputStep` of the scene before it |
| CharacterSelect.CharacterSelectScene.SelectPlayer1 | Scenes/characterSelectScene.py:51-61 | player 1's block for one key is `SelectInput` with a, d and space |
| CharacterSelect.CharacterSelectScene.SelectPlayer2 | Scenes/characterSelectScene.py:64-74 | player 2's block for one key is `SelectInput` with left, right and enter |
| CharacterSelect.CharacterSelectScene.Update | Scenes/characterSelectScene.py:76-106 | the new state is `Updated` of the old one |
| CharacterSelect.CharacterSelectScene.AnimatePlayer1 | Scenes/characterSelectScene.py:79-91 | player 1's block is `Animate` |
| CharacterSelect.CharacterSelectScene.AnimatePlayer2 | Scenes/characterSelectScene.py:94-106 | player 2's block is `Animate` on what player 1's block left |
| CharacterSelect.CharacterSelectScene.IsBothSelected | Scenes/characterSelectScene.py:204-207 | true iff both players hold a character and both animations have completed |
| CharacterSelect.CharacterSelectScene.GetSelectedCharacters | Scenes/characterSelectScene.py:209-211 | each player's character is present iff locked, and is then the one under the cursor |
| ComboConsistency.BaseEligibleIsChainable | Player/player.py:50-55 | the base player reserves a combo exactly in the states the sprite manager chains from |
| ComboConsistency.LeftEligibleIsChainable | Player/playerLeft.py:21-26 | every left-player reservation state is chainable; only the fighter's strong upper attack is chainable but not reservable |
| ComboConsistency.RightEligibleIsChainable | Player/playerRight.py:21-25 | every right-player reservation state is chainable; the thief's strong upper attack and every fighter chain are not reservable |
| LegacySpriteManager.SpriteCounts | SpriteManager.py:18-25 | Idle has 3 frames and Walk 8, and no other state has sprites |
| LegacySpriteManager.Step | SpriteManager.py:27-40 | the state is the new one; a change restarts the clock; a state with sprites advances one frame, modulo its count, exactly when the timer reaches 0.1; the timer is then zeroed and always stays below it; a state without sprites never advances; the frame stays in range |
| LegacySpriteManager.UnknownStateStaysOnFirstFrame | SpriteManager.py:38-40 | a state other than Idle and Walk stays on frame 0 |
| LegacySpriteManager.WalkWrapsAfterEight | SpriteManager.py:38-40 | from Walk's last frame one frame time wraps to frame 0 |
| LegacySpriteManager.SpriteManager.constructor | SpriteManager.py:5-16 | no sprites, idle at frame 0, at (400, 300) facing -1 |
| LegacySpriteManager.SpriteManager.LoadSprites | SpriteManager.py:18-25 | installs the counts, all positive |
| LegacySpriteManager.SpriteManager.UpdatePlayer1State | SpriteManager.py:27-40 | the new clock is `Step` of the old one |
| LegacySpriteManager.SpriteManager.UpdatePlayer1Position | SpriteManager.py:42-44 | sets only the position |
| LegacySpriteManager.SpriteManager.UpdatePlayer1Direction | SpriteManager.py:46-47 | sets only the direction |
| LegacyIOManager.Press | IOManager.py:11-19 | w/s/a/d (arrows for player 2) give up/down/left/right, each iff that key; any other key gives none |
| LegacyIOManager.HandleInput | IOManager.py:8-32 | a direction is the one a key-down event among the events gives |
| LegacyIOManager.HandleInputPlayer1 | IOManager.py:8-19 | a result is a direction, and only from a press of w, s, a or d |
| LegacyIOManager.HandleInputPlayer2 | IOManager.py:21-32 | a result is a direction, and only from a press of an arrow key |
| LegacyIOManager.FirstKeyDownDecides | IOManager.py:8-19 | the first key-down event alone decides the result |
| LegacyIOManager.NoKeyDownNoDirection | IOManager.py:8-19 | without a key-down event there is no direction |
| LegacyIOManager.LaterEventsIgnored | IOManager.py:8-19 | events after the first key-down never matter |
| LegacyIOManager.OtherKeyFirstGivesNone | IOManager.py:8-19 | another key pressed first hides a direction key pressed later |
| LegacyPlayer.Step | player/Player.py:18-28 | left and right move five units and walk; anything else idles in place |
| LegacyPlayer.RunDisplacement | player/Player.py:18-28 | after any run of updates x has moved five units per right input minus five per left input |
| LegacyPlayer.Player.constructor | player/Player.py:6-11 | at (400, 300), facing -1, idle |
| LegacyPlayer.Player.Update | player/Player.py:18-28 | `x` and `state` become `Step` of the old `x`; `y` and `dir` are untouched |
| LegacyPlayerLeft.Step | player/PlayerLeft.py:12-22 | left backs off one unit (BackWalk), right advances three (Walk), the fast middle attack stands, anything else idles |
| LegacyPlayerLeft.Initialize | player/PlayerLeft.py:9-10 | faces right (`dir` -1) |
| LegacyPlayerLeft.Update | player/PlayerLeft.py:12-22 | `x` and `state` become `Step` of the old `x`; nothing else changes |
| LegacyPlayerRight.Step | player/PlayerRight.py:11-21 | left advances three units (Walk), right backs off one (BackWalk), the fast middle attack stands, anything else idles |
| LegacyPlayerRight.MirrorsLeftPlayer | player/PlayerRight.py:11-21 | the right player is the left one reflected about x = 0 with left and right exchanged |
| LegacyPlayerRight.Initialize | player/PlayerRight.py:8-9 | faces left (`dir` 1) |
| LegacyPlayerRight.Update | player/PlayerRight.py:11-21 | `x` and `state` become `Step` of the old `x`; nothing else changes |

## Left out

- Image loading, drawing and the filesystem (`load_sprites`' images, every `render`, `draw_selection_box`, `CharacterSelectScene.initialize`): the sprite tables keep only their frame counts, and the character-select scene takes its frame counts as constructor arguments.
- Wall-clock time and the event queue: `deltaTime` and the event list are parameters; events are `KeyDown`/`KeyUp` of a key or an event of another kind.
- Floating point: timers, speeds, positions and ratios are exact reals, so IEEE rounding is not modelled. For example, 0.083 and 1/18 are exact.
- `str.lower()` is modelled on ASCII letters only; the labels the game uses are ASCII.
- Bounding boxes: `get_bb()` belongs to no player class shown, so `get_aabb` is not modelled; the boxes are inputs of the collision operations. `SafeMovePlayer` takes the boxes the players report after the move.
- The module-level convenience wrappers of handle_collision.py (lines 234-252) only delegate to the modelled static methods.
- Collision.ResolvePlayerCollision: positions are stated only for two distinct players; the source never passes one object twice.
- Collision.SafeMovePlayer: positions are stated only when the other player is a different object.
- Collision.PreventOverlapOnSpawn: positions are stated only for two distinct players.
- Collision.Body: the resolver reads `is_hit`, `is_grounded` and `is_attacking` with defaults through `getattr`; `Body` carries those three flags with the same defaults instead of the game's player classes.
- The legacy `PlayerRight` constructor (player/PlayerRight.py:5-6) passes `x` and `y` to a base constructor that takes no arguments, so it cannot succeed and is not modelled; its `initialize` and `update` are.
- The legacy `SpriteManager`'s unused player-2 fields and the legacy `Player.initialize` and `render` (empty) are not modelled.
- Entry points and scene flow (game.py, Game.py, main.py, the scene managers, the title and play scenes) only wire the components together. One of them calls `check_player*_combo_input` without its argument.
- The empty stub files (Player/Player.py, Character/Character.py, character/Character.py and the three Priest files) hold no logic.
- Health, guarding, hit reactions, knockback and scoring do not appear in the modelled code.
