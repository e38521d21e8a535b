# Timebound Adventure — a model of the game's progression logic

3DJavaScriptAdventures is a browser game. The player walks a character through five worlds. In each world one guide NPC asks for a small JavaScript "rune", and the player writes it in an in-game code editor. A per-level validator judges the code. A solved quest activates a portal to the next world. This project models, in Dafny, the logic that drives that progression, leaving out the rendering:

- **Game state record** (`entities.dfy`, `quest.dfy`):
  - the dialog and quest flags and counters, and their handlers: close dialog, open editor, close editor, validation failure, the validator's success update, talking to an NPC, the portal flags, portal entry;
  - the message the dialog shows and the editor-button gate;
  - the avatar and music look-ups;
  - an event machine that composes the handlers, with invariants proved over every run.
- **Interaction** (`interaction.dfy`):
  - the per-frame portal proximity check;
  - the first-match NPC scan;
  - portal entry behind a cooldown.
- **Collision and the player tick** (`collision.dfy`, `player.dfy`):
  - the distance-threshold collision test with exact rollback;
  - the tick: turn, local step, rotated step, collision, gravity, ground clamp, boundary clamp.
- **Level load and spawn search** (`world.dfy`, `monolithic.dfy`):
  - the bounded rejection sampling of the spawn point, with its fallback;
  - the NPC anchor table;
  - the wrapped validator;
  - the portal placement;
  - the list rebuild.
- **Validators** (`level_data.dfy`, `js_strings.dfy`): the five level validators and the epilogue's validator, over a model of `String.prototype.includes`.
- **Editor run** (`code_editor.dfy`): log capture and join, and the pass / fail / exception branches.
- **Typewriter dialog** (`game_dialog.dfy`): reveal one character per tick; Enter first finishes the text, a second Enter closes.
- **Audio settings** (`audio_settings.dfy`): defaults overlaid with the stored record, four one-field setters, and the write-back under `audio-settings`.
- **Game component** (`game.dfy`): key press and release, the frame update, portal visibility, and mounting.

The repository holds two copies of the game component: the modular `src/games/*` and the older monolithic `src/components/Game.tsx`. They share one state machine here. A `Session` carries a `variant`. The only behavioural difference is the monolithic level load, which also zeroes the velocity and grounds the player. `Monolithic.LoadLevel` models that copy; `World.LoadLevel` models the modular one, which leaves the reset to its callers.

Modelling choices:
- Positions are `real`. Distance tests compare squared distances: `distanceTo(a, b) < r` becomes `DistSq(a, b) < r * r` with `r > 0`.
- The rotation of the local step by the yaw is taken as an input `Heading(cos, sin)` for the new yaw, so no trigonometry is needed.
- The random draws of the spawn search are an input sequence, one pair per attempt.
- The execution of the player's code is an input `Execution`: either the log calls it made or the message it threw.
- React's deferred `setGameState` is modelled as an immediate update of the state record. `gameStateRef` is taken to be the current state.
- Held keys are a set of lower-cased key names.

## Model

| member | source | states |
|---|---|---|
| Quest.InitialState | src/games/Game.tsx:69-81 | level 1, stage 1, no failures, no NPC, every flag false; the state satisfies the invariant and the panel coherence |
| Quest.DialogClose | src/games/Game.tsx:313-346 | on the hint screen it closes the dialog and clears the reveal and nothing else; after the quest it closes only the dialog; before stage 3 it advances the stage by one and keeps the dialog open; at stage 3 it closes and keeps the stage; the failure count never changes, a stage in 1..3 stays in 1..3, and the invariant is preserved |
| Quest.OpenEditor | src/games/Game.tsx:348-354 | the dialog closes and the editor opens, nothing else changes, so the two are exclusive |
| Quest.EditorClose | src/games/Game.tsx:356-361 | only the editor flag is cleared |
| Quest.ValidationFailure | src/games/Game.tsx:363-374 | the failure count rises by exactly one; the editor closes, the dialog opens and the objective is revealed; nothing else changes |
| Quest.QuestSolved | src/games/World.ts:620-630 | the wrapped validator's update: quest complete and portal active, nothing else changes |
| Quest.Converse | src/games/Interaction.ts:73-83 | talking opens the dialog on the NPC and changes nothing else; with the editor closed the panels stay coherent |
| Quest.PortalFlags | src/games/Interaction.ts:34-63 | the portal hint and the entry flag both become the proximity verdict, nothing else changes; the invariant is kept when the verdict needs an active portal |
| Quest.PortalEntered | src/games/Interaction.ts:112-159 | below level 5 the state becomes the initial record of the next level; at level 5 the level is kept and the dialog opens on the epilogue NPC with nothing else changed; levels stay in 1..5 |
| Quest.HintFor | src/games/Game.tsx:381-388 | the hint is rung min(failures, 3) of the ladder: none, hint1, hint2, hint3 |
| Quest.StageLine | src/games/Game.tsx:397-406 | stages 1..3 select the matching dialog line; any other stage falls back to the first |
| Quest.CurrentDialogMessage | src/games/Game.tsx:376-407 | no NPC gives the empty message; otherwise the hint screen comes first, then the completion line, then the stage's line |
| Quest.EditorButtonShowsLastLine | src/games/Game.tsx:435-439 | whenever the editor button is offered the dialog shows the third line, and closing it keeps stage 3 |
| Quest.ConversationWalk | src/games/Game.tsx:334-345 | a fresh conversation shows lines 1, 2, 3 on successive closes; only the third offers the editor, and the final close ends the dialog |
| Quest.HintAfterFailure | src/games/Game.tsx:363-390 | after a failure the message is the hint prefix followed by a non-empty rung of the ladder |
| Quest.NpcAvatar | src/games/Game.tsx:33-42 | a name has no avatar exactly when it is not one of the five keys of the table |
| Quest.AvatarCoverage | src/data.ts:16-88 | the guides of levels 1 to 4 have avatars; the level 5 guide and the epilogue character have none |
| Quest.MusicForLevel | src/games/Game.tsx:45-54 | the village track plays exactly for levels outside 2..5 |
| Quest.MusicDistinct | src/games/Game.tsx:46-52 | the five levels have five different tracks |
| Quest.Step | src/games/Game.tsx:430-452 | an event its panel cannot deliver leaves the state alone; every event preserves the invariant |
| Quest.LevelAdvancesOnlyAfterQuest | src/games/Interaction.ts:107-126 | the level changes only through portal entry below level 5 after a solved quest, by one, into a fresh record |
| Quest.ProgressKeptWithinLevel | src/games/Game.tsx:313-374 | within a level the failure count never drops, the dialog stage never goes back, and a solved quest stays solved |
| Quest.StepCoherent | src/games/Game.tsx:430-452 | every event keeps the panels exclusive and backed by an NPC, except portal entry at level 5 with the editor open |
| Quest.RunValid | src/games/Game.tsx:313-374 | any sequence of events from a valid state ends in a valid state |
| Quest.RunLevelBounds | src/games/Interaction.ts:112-126 | along any run the level never falls, never passes 5, and rises at most once per portal event |
| Quest.GameStaysInBounds | src/games/Game.tsx:69-81 | every run from the initial state ends valid, at a level in 1..5 |
| Entities.TranslationLength | src/games/Player.ts:63-64 | a move by d lands exactly the length of d away from the start, and the opposite move returns to the start |
| Entities.DistSq | src/games/CollisionSystem.ts:14 | the squared distance is non-negative and zero from a point to itself |
| Entities.Player.constructor | src/games/Game.tsx:155-156 | the player mesh starts at the given position, unrotated |
| Entities.Session.constructor | src/games/Game.tsx:69-97 | a session starts with empty lists, no player and no portal, zero velocity, grounded, and every reference flag false |
| LevelData.Entry | src/data.ts:14-85 | the level table has entries for exactly the levels 1 to 5 |
| LevelData.ValidatorOneMeaning | src/data.ts:25-27 | level 1 passes iff the code contains "console.log" and the output is non-empty |
| LevelData.ValidatorTwoMeaning | src/data.ts:39-41 | level 2 passes iff the code contains "power" and one of "let", "const", "var" |
| LevelData.ValidatorThreeMeaning | src/data.ts:53-55 | level 3 passes iff the code contains "for" or "while", and "console.log" or "i" |
| LevelData.ValidatorFourMeaning | src/data.ts:67-69 | level 4 passes iff the code contains "name" and "console.log" and not "nmae" |
| LevelData.ValidatorFiveMeaning | src/data.ts:81-83 | level 5 passes iff the code contains "function greet", "return" and "name" |
| LevelData.OutputIgnoredAfterLevelOne | src/data.ts:39-83 | the verdict of levels 2 to 5 does not depend on the output |
| LevelData.WhileAlonePassesLevelThree | src/data.ts:53-55 | any code containing "while" passes level 3 |
| LevelData.DirectHintPassesLevelTwo | src/data.ts:38-41 | the third hint of level 2 passes level 2 |
| LevelData.DirectHintPassesLevelThree | src/data.ts:52-55 | the third hint of level 3 passes level 3 |
| LevelData.DirectHintPassesLevelFive | src/data.ts:80-83 | the third hint of level 5 passes level 5 |
| LevelData.BrokenFragmentHintFails | src/data.ts:66-69 | the third hint of level 4, submitted verbatim, fails level 4 |
| LevelData.FinalNeverPasses | src/data.ts:94 | the epilogue validator rejects everything |
| JsStrings.IncludesIff | src/data.ts:26 | the model of `includes` holds exactly when the substring occurs at some index |
| JsStrings.JoinEmptyIff | src/components/CodeEditor.tsx:40 | a join is empty exactly when there are no parts, or one empty part |
| JsStrings.JoinSplit | src/components/CodeEditor.tsx:32 | splitting the parts at any point splits the join there around exactly one separator |
| JsStrings.JoinLength | src/components/CodeEditor.tsx:32 | a join's length is the parts' lengths plus one separator between each two |
| Collision.Resolved | src/games/CollisionSystem.ts:31-33 | the result is the candidate or the original: the original exactly when the candidate is blocked |
| Collision.DetectCollision | src/games/CollisionSystem.ts:10-29 | the scans report a collision iff some obstacle is closer than 2.5 or some NPC closer than 2 |
| Collision.ResolvePlayerCollisions | src/games/CollisionSystem.ts:4-34 | only the player's position is written, and it becomes the resolved position |
| PlayerController.TurnDelta | src/games/Player.ts:42-47 | 'a' turns by +0.05, 'd' by -0.05, both or neither not at all |
| PlayerController.LocalDirection | src/games/Player.ts:50-56 | x = y = 0; z is -0.1 for 'w' plus +0.05 for 's' |
| PlayerController.Rotate | src/games/Player.ts:60 | rotation about the vertical axis keeps the height and, for a unit heading, the horizontal length of the step |
| PlayerController.Clamp | src/games/Player.ts:88-90 | the result lies in [-20, 20]; inside values are kept, outside ones go to the nearer bound |
| PlayerController.FallVelocity | src/games/Player.ts:75-77 | gravity never raises the vertical velocity, and leaves it unchanged exactly when the player is grounded |
| PlayerController.WorldStep | src/games/Player.ts:50-60 | the world step is horizontal, and zero without 'w' or 's' |
| PlayerController.Tick | src/games/Player.ts:35-91 | the yaw turns by the key delta; x and z are the clamped resolved move; y lands at 1 with zero velocity and grounded, or keeps the fall; y >= 1 and x, z in [-20, 20] after every tick; a settled player stays settled |
| PlayerController.RollbackIsExact | src/games/CollisionSystem.ts:31-33 | a blocked move leaves x and z exactly as before; a free move inside the boundary is taken in full |
| PlayerController.StepIsShort | src/games/Player.ts:50-64 | with a unit heading each horizontal coordinate moves by at most 0.1 per tick, and not at all with neither 'w' nor 's' |
| PlayerController.ClampShrinks | src/games/Player.ts:88-90 | clamping never moves a value further from a point inside the boundary |
| PlayerController.UpdatePlayer | src/games/Player.ts:27-91 | the step-by-step update leaves player and motion state equal to the tick; horizontal velocity untouched; no player, no change |
| Monolithic.UpdatePlayer | src/components/Game.tsx:1137-1214 | the inline tick of the older copy is the same tick |
| Monolithic.LoadLevel | src/components/Game.tsx:341-470 | the modular level load, plus zero velocity and grounded when there is a player |
| World.Candidate | src/games/World.ts:16-18 | a draw in [0,1)² gives a point at height 1 with x, z in [-10, 10) |
| World.FirstAdmissible | src/games/World.ts:15-43 | the first attempt, within 50, whose candidate is admissible; every earlier one is rejected |
| World.SpawnPosition | src/games/World.ts:7-46 | the result is the fallback (-8, 1, -8) or an admissible point |
| World.SpawnPositionSpec | src/games/World.ts:7-46 | y = 1 and x, z in [-10, 10]; either every of the 50 candidates was rejected and the fallback is returned, or the result is the first admissible candidate |
| World.SpawnUsesFirstDraws | src/games/World.ts:13-15 | only the first 50 draws influence the spawn point |
| World.SearchIgnoresHeight | src/games/World.ts:20-34 | the spawn search depends on the NPC and the obstacles only through their ground projections |
| World.GenerateRandomSpawnPosition | src/games/World.ts:7-46 | the loop with `continue` and inner `break` returns the specified spawn point |
| World.NpcAnchor | src/games/World.ts:599-610 | levels 1 to 5 take their table anchor; any other level takes (5, 0, 0) |
| World.FallbackClearsAnchors | src/games/World.ts:45 | the fallback spawn is at least 8 from every anchor's projection |
| World.FlatDistanceIsShorter | src/games/World.ts:20-22 | a spawn at height 1 is farther from a ground anchor than from its projection |
| World.SpawnOutOfReach | src/components/Game.tsx:440-451 | a freshly spawned player can neither talk to nor touch the level's NPC |
| World.LevelNpc | src/games/World.ts:607-631 | the level's NPC carries the table entry's texts, the level anchor and the level's wrapped validator |
| World.CallValidator | src/games/World.ts:620-630 | the wrapper returns the underlying verdict; a pass applies the quest-solved update, a failure changes nothing |
| World.LoadLevel | src/games/World.ts:493-658 | exactly one NPC, the environment's obstacles, an invisible portal at (-8, 2, 0); the player is moved to the spawn point, its yaw kept |
| Interaction.CheckInteractions | src/games/Interaction.ts:15-64 | no player, no change; otherwise both references and both state flags become "active portal within 4" |
| Interaction.FirstInReach | src/games/Interaction.ts:73-83 | the first NPC in list order within 3, and none exactly when no NPC is within 3 |
| Interaction.HandleInteraction | src/games/Interaction.ts:66-84 | the scan opens the dialog on the first NPC in reach and stops; none in reach or no player, no change |
| Interaction.HandlePortalEntry | src/games/Interaction.ts:86-165 | no entry flag or the cooldown on: nothing changes; otherwise cooldown on and the state as portal entry leaves it; below 5 the next level is loaded by the session's copy, so the monolithic copy also stops and grounds the player; at 5 nothing else changes |
| Interaction.ClearPortalCooldown | src/games/Interaction.ts:162-164 | the deferred action turns the cooldown off whatever the state |
| Game.LowerChar | src/games/Game.tsx:229 | ASCII upper-case letters fold to lower case; every other character is kept |
| Game.Lower | src/games/Game.tsx:229 | a key name folds character by character, keeping its length |
| Game.LowerIdempotent | src/games/Game.tsx:229-237 | folding a folded key changes nothing |
| Game.InteractKeyNames | src/games/Game.tsx:236-245 | "e" and "E" both fold to "e"; "Enter" folds to "enter" |
| Game.KeyDown | src/games/Game.tsx:227-262 | the folded key is held; space jumps only when grounded; the interact key talks only with no panel shown; Enter enters the portal only when both references are set and the cooldown is off; velocity and grounding change only by a jump or a portal entry |
| Game.KeyUp | src/games/Game.tsx:264-266 | the folded key is released |
| Game.Frame | src/games/Game.tsx:172-216 | the tick runs only when no panel is shown, and then leaves the horizontal velocity alone; the portal check then runs at the new position |
| Game.SyncPortalVisibility | src/games/Game.tsx:308-312 | the portal is visible exactly when active |
| Game.Mount | src/games/Game.tsx:154-170 | a fresh session with the initial state and a player spawned by loading level 1 |
| CodeEditor.LogEntry | src/components/CodeEditor.tsx:31-33 | no arguments give an empty line, one argument is the line itself, and at every split of the arguments the line is the join of the left part, one space, and the join of the right part; its length is the arguments' lengths plus the spaces |
| CodeEditor.Entries | src/components/CodeEditor.tsx:29-33 | one line per log call, in call order |
| CodeEditor.OutputEmptyIff | src/components/CodeEditor.tsx:40 | the validator's output is empty exactly when nothing or only one empty line was logged |
| CodeEditor.Display | src/components/CodeEditor.tsx:41 | the panel never shows an empty output; a non-empty output is shown as is |
| CodeEditor.RunOutcome | src/components/CodeEditor.tsx:27-70 | a throw is a crash with its message, before the validator; otherwise the verdict on the joined output decides pass or fail |
| CodeEditor.FinalRunNeverPasses | src/data.ts:94 | no run passes the epilogue |
| CodeEditor.SilentRunFailsLevelOne | src/data.ts:25-27 | a run that logs nothing fails level 1 |
| CodeEditor.LoggingPassesLevelOne | src/data.ts:24-27 | logging a name with console.log passes level 1 |
| CodeEditor.Editor.constructor | src/components/CodeEditor.tsx:15-19 | the editor starts with the placeholder code and no output, error or animation |
| CodeEditor.Editor.SetCode | src/components/CodeEditor.tsx:15 | editing replaces the code |
| CodeEditor.Editor.RunCode | src/components/CodeEditor.tsx:23-71 | output and error cleared first; a pass applies the quest-solved update and schedules the close, with no failure; a failure reports one failure and schedules no close; a throw shows its message and reports neither |
| CodeEditor.Editor.StopAnimation | src/components/CodeEditor.tsx:54-57 | the failure animation ends |
| CodeEditor.Editor.FireScheduledClose | src/components/CodeEditor.tsx:46-48 | a scheduled close closes the editor, once |
| GameDialog.Typewriter.constructor | src/components/GameDialog.tsx:21-24 | a new dialog shows nothing, index 0, not complete, typing |
| GameDialog.Typewriter.SetMessage | src/components/GameDialog.tsx:21-24 | a new message restarts the typewriter |
| GameDialog.Typewriter.Tick | src/components/GameDialog.tsx:29-42 | one more character while any remain, with the sound exactly at multiples of 3; then complete and stopped; the shown text stays the prefix up to the index |
| GameDialog.Typewriter.PressEnter | src/components/GameDialog.tsx:48-60 | while typing it reveals the whole message without closing; once complete it closes with nothing else changed |
| GameDialog.SoundCount | src/components/GameDialog.tsx:35-37 | counting one sound per new index that is a multiple of three gives n / 3 sounds for n characters |
| GameDialog.TypingReveals | src/components/GameDialog.tsx:30-32 | the text shown after k characters is a prefix of the text shown after any later count, and is the whole message once k reaches its length |
| GameDialog.TypeOut | src/components/GameDialog.tsx:28-41 | running the interval of a fresh dialog to its end with no key pressed: it takes one tick per character plus one, keeps the shown text equal to the text after that many characters, ends complete and stopped with the whole message shown, and plays exactly SoundCount of the length sounds |
| GameDialog.Buttons | src/components/GameDialog.tsx:85-97 | "Open Editor" appears iff requested and handled; the close label is "Explore First" beside it and "OK" otherwise |
| GameDialog.EditorButtonInGame | src/games/Game.tsx:435-440 | in the game the editor button appears exactly at stage 3 of an unsolved, unrevealed quest |
| AudioSettings.InitialSettings | src/contexts/AudioSettingsContexts.tsx:29-39 | nothing stored or unparsable gives the defaults; a record overlays the defaults field by field |
| AudioSettings.ToRecord | src/contexts/AudioSettingsContexts.tsx:42 | the written record has every field, and reading it back gives the settings that were written |
| AudioSettings.StoreRoundTrip | src/contexts/AudioSettingsContexts.tsx:29-43 | reading back the written record gives the same settings |
| AudioSettings.EmptyRecordIsDefaults | src/contexts/AudioSettingsContexts.tsx:21-33 | an empty stored record gives the defaults 0.25, 0.5, on, on |
| AudioSettings.WithMusicVolume | src/contexts/AudioSettingsContexts.tsx:45-47 | only the music volume changes |
| AudioSettings.WithSfxVolume | src/contexts/AudioSettingsContexts.tsx:49-51 | only the effects volume changes |
| AudioSettings.WithMusicEnabled | src/contexts/AudioSettingsContexts.tsx:53-55 | only the music switch changes |
| AudioSettings.WithSfxEnabled | src/contexts/AudioSettingsContexts.tsx:57-59 | only the effects switch changes |
| AudioSettings.SettersCommute | src/contexts/AudioSettingsContexts.tsx:45-59 | setters of different fields commute; a later set of the same field wins |
| AudioSettings.Provider.constructor | src/contexts/AudioSettingsContexts.tsx:28-43 | the provider starts from the initial settings and writes them under the storage key |
| AudioSettings.Provider.Persist | src/contexts/AudioSettingsContexts.tsx:41-43 | the settings are written under "audio-settings" and read back unchanged |
| AudioSettings.Provider.SetMusicVolume | src/contexts/AudioSettingsContexts.tsx:45-47 | the setter's update followed by the write-back |
| AudioSettings.Provider.SetSfxVolume | src/contexts/AudioSettingsContexts.tsx:49-51 | the setter's update followed by the write-back |
| AudioSettings.Provider.SetMusicEnabled | src/contexts/AudioSettingsContexts.tsx:53-55 | the setter's update followed by the write-back |
| AudioSettings.Provider.SetSfxEnabled | src/contexts/AudioSettingsContexts.tsx:57-59 | the setter's update followed by the write-back |
| AudioSettings.UseAudioSettings | src/contexts/AudioSettingsContexts.tsx:76-82 | inside a provider its settings; outside, the error "useAudioSettings must be used within AudioSettingsProvider" |

## Left out

- Rendering: scenes, meshes, lights, atmospheres, environment builders, camera follow, portal spin, player light, and the walk animation. These are visual only. Each level's obstacle positions are an input `environment`.
- The trigonometry of `applyEuler`. The cosine and sine of the new yaw are an input `Heading`. `PlayerController.StepIsShort` assumes they form a unit vector.
- Floating point. Arithmetic is on `real`, so `yaw + 0.05 - 0.05` is exact here. The boundary, ground and distance comparisons are exact too.
- `Math.random`, `setTimeout` and `setInterval`:
  - the draws are an input;
  - the deferred cooldown clear, editor close and animation end are explicit methods;
  - the typing interval is `Typewriter.Tick`.
- The execution of the player's code through `new Function`. It is a foreign call, and its result is the input `Execution`.
- `JSON.parse` of stored settings. A stored field of the wrong type is not modelled: the record's fields are already typed.
- `localStorage` I/O. The storage is a map field of the provider.
- Audio playback and volume fades. `MusicForLevel` picks the track; playing it is left out.
- Extra keys in a stored settings record. The spread would copy them; the model has only the four fields.
- Presentation components: the settings dialog, start screen, controls and HUD.
- CodeEditor.Editor.FireScheduledClose: `closeScheduled` is one flag, whereas two passing runs within one second schedule two `onClose` timers in the source. The model closes once, which has the same effect because closing the editor twice leaves the same state as closing it once.
- React effects and scheduling. State updates apply at once, so no change is ever batched or lost. The lag between `gameState` and `gameStateRef` is not modelled.
- GameDialog.Typewriter.Tick: counts the message in characters, whereas `message.length` counts UTF-16 code units. The two differ on the epilogue line's emoji.
- Game.Lower: folds only ASCII letters, whereas `toLowerCase` folds all of Unicode.
- Levels outside 1..5. `levelData[level]` has no fallback, so the level load requires 1..5.
- The case of a missing scene. `handlePortalEntry` skips the level load when `sceneRef` is null; the model assumes that the scene exists.
- Quest.StepCoherent: holds except for portal entry at level 5 with the editor open. In that case the record would show both panels; the property is stated with that exception.
- The monolithic copy's inline `checkInteractions`, `handleInteraction`, `handlePortalEntry` and dialog handlers (src/components/Game.tsx:1232-1423). They are the same code as the modular ones, so the same members model them. The session's `variant` selects only the tick and the level load.
- `src/components/data/data` is not part of this model. The `src/games/*` files import it in place of `src/data.ts`; it is taken to have the same contents.
