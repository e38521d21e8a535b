/**
 * The quest/dialog state machine shared by both copies of the game component
 * (src/games/Game.tsx and src/components/Game.tsx): the initial record, the
 * four dialog/editor handlers, the message selection, the editor-button gate,
 * the state updates made by interaction, validation and the portal, and the
 * event-level machine that strings them together.
 */
module Quest {
  import opened Wrappers
  import opened Entities
  import LevelData

  /** The record the game starts from. */
  function InitialState(): (s: GameState)
    ensures s.currentLevel == 1 && s.dialogStage == 1 && s.failureCount == 0
    ensures s.currentNpc == None
    ensures !s.questComplete && !s.showDialog && !s.showEditor && !s.portalActive
    ensures !s.showPortalHint && !s.canEnterPortal && !s.objectiveRevealed
    ensures Valid(s) && Coherent(s)
  {
    GameState(1, false, false, false, None, false, false, false, 1, 0, false)
  }

  /**
   * The invariant of the counters and flags: the level is one of the five,
   * the dialog stage one of the three, the portal hint and the entry flag go
   * together and need an active portal, the portal is active exactly when the
   * quest is complete, and the hint screen only follows a failure.
   */
  predicate Valid(s: GameState)
  {
    && 1 <= s.currentLevel <= 5
    && 1 <= s.dialogStage <= 3
    && s.failureCount >= 0
    && s.showPortalHint == s.canEnterPortal
    && (s.canEnterPortal ==> s.portalActive)
    && s.questComplete == s.portalActive
    && (s.objectiveRevealed ==> s.failureCount >= 1)
  }

  /** The dialog and the editor are never shown together. */
  predicate Exclusive(s: GameState)
  {
    !(s.showDialog && s.showEditor)
  }

  /**
   * What the user interface keeps: the two panels are exclusive, and a panel
   * is only open when there is a current NPC to render it for.
   */
  predicate Coherent(s: GameState)
  {
    Exclusive(s) && ((s.showDialog || s.showEditor) ==> s.currentNpc.Some?)
  }

  /** The dialog's close button (or Enter once its text is complete). */
  function DialogClose(s: GameState): (r: GameState)
    ensures s.objectiveRevealed ==>
      !r.showDialog && !r.objectiveRevealed && r.(showDialog := s.showDialog, objectiveRevealed := true) == s
    ensures !s.objectiveRevealed && s.questComplete ==> r == s.(showDialog := false)
    ensures !s.objectiveRevealed && !s.questComplete && s.dialogStage < 3 ==>
      r.showDialog && r.dialogStage == s.dialogStage + 1 && r.(showDialog := s.showDialog, dialogStage := s.dialogStage) == s
    ensures !s.objectiveRevealed && !s.questComplete && s.dialogStage >= 3 ==> r == s.(showDialog := false)
    ensures r.dialogStage >= s.dialogStage && r.failureCount == s.failureCount && r.showEditor == s.showEditor
    ensures 1 <= s.dialogStage <= 3 ==> 1 <= r.dialogStage <= 3
    ensures Valid(s) ==> Valid(r)
  {
    if s.objectiveRevealed then s.(showDialog := false, objectiveRevealed := false)
    else if s.questComplete then s.(showDialog := false)
    else if s.dialogStage < 3 then s.(dialogStage := s.dialogStage + 1, showDialog := true)
    else s.(showDialog := false)
  }

  /** The "Open Editor" button: the dialog gives way to the editor. */
  function OpenEditor(s: GameState): (r: GameState)
    ensures r.showEditor && !r.showDialog && Exclusive(r)
    ensures r.(showDialog := s.showDialog, showEditor := s.showEditor) == s
    ensures Valid(s) ==> Valid(r)
  {
    s.(showDialog := false, showEditor := true)
  }

  /** Closing the editor without a verdict. */
  function EditorClose(s: GameState): (r: GameState)
    ensures !r.showEditor && Exclusive(r)
    ensures r.(showEditor := s.showEditor) == s
    ensures Valid(s) ==> Valid(r)
  {
    s.(showEditor := false)
  }

  /** A failed run: one more failure, and the NPC comes back with a hint. */
  function ValidationFailure(s: GameState): (r: GameState)
    ensures r.failureCount == s.failureCount + 1
    ensures !r.showEditor && r.showDialog && r.objectiveRevealed && Exclusive(r)
    ensures r.(failureCount := s.failureCount, showEditor := s.showEditor,
               showDialog := s.showDialog, objectiveRevealed := s.objectiveRevealed) == s
    ensures Valid(s) ==> Valid(r)
  {
    s.(failureCount := s.failureCount + 1, showEditor := false, showDialog := true, objectiveRevealed := true)
  }

  /** The state update of the level's wrapped validator when the code passes. */
  function QuestSolved(s: GameState): (r: GameState)
    ensures r.questComplete && r.portalActive
    ensures r.(questComplete := s.questComplete, portalActive := s.portalActive) == s
    ensures Valid(s) ==> Valid(r)
  {
    s.(questComplete := true, portalActive := true)
  }

  /** The state update of pressing the interact key next to an NPC. */
  function Converse(s: GameState, npc: Npc): (r: GameState)
    ensures r.showDialog && r.currentNpc == Some(npc)
    ensures r.(showDialog := s.showDialog, currentNpc := s.currentNpc) == s
    ensures Valid(s) ==> Valid(r)
    ensures !s.showEditor ==> Coherent(r)
  {
    s.(showDialog := true, currentNpc := Some(npc))
  }

  /**
   * The state update of the per-frame portal check: the hint and the entry
   * flag become `on`, and nothing else changes.
   */
  function PortalFlags(s: GameState, on: bool): (r: GameState)
    ensures r.showPortalHint == on && r.canEnterPortal == on
    ensures r.(showPortalHint := s.showPortalHint, canEnterPortal := s.canEnterPortal) == s
    ensures Valid(s) && (on ==> s.portalActive) ==> Valid(r)
  {
    s.(showPortalHint := on, canEnterPortal := on)
  }

  /** The NPC that opens the epilogue after the last level. */
  const FinalNpc: Npc := Npc(
    LevelData.FinalName, Vec3(0.0, 0.0, 0.0),
    LevelData.FinalDialogLine, LevelData.FinalDialogLine, LevelData.FinalDialogLine, LevelData.FinalDialogLine,
    LevelData.FinalObjective, LevelData.FinalHint1, LevelData.FinalHint2, LevelData.FinalHint3,
    FinalValidator)

  /**
   * The state portal entry leaves behind: below the last level, the initial
   * record for the next level; at the last level, the same record with the
   * epilogue dialog open.
   */
  function PortalEntered(s: GameState): (r: GameState)
    ensures s.currentLevel < 5 ==> r == InitialState().(currentLevel := s.currentLevel + 1)
    ensures s.currentLevel >= 5 ==>
      r.showDialog && r.currentNpc == Some(FinalNpc) && r.(showDialog := s.showDialog, currentNpc := s.currentNpc) == s
    ensures Valid(s) ==> Valid(r)
    ensures 1 <= s.currentLevel <= 5 ==> 1 <= r.currentLevel <= 5
  {
    if s.currentLevel < 5 then
      GameState(s.currentLevel + 1, false, false, false, None, false, false, false, 1, 0, false)
    else
      s.(showDialog := true, currentNpc := Some(FinalNpc))
  }

  /** The text shown before every hint. */
  const HintPrefix := "The spell is not working as expected. Let me help you:\n\n"

  function Min(a: int, b: int): int
  {
    if a < b then a else b
  }

  /** The hint ladder: none before the first failure, then the three hints. */
  function HintLadder(npc: Npc): (h: seq<string>)
    ensures |h| == 4 && h[0] == ""
  {
    ["", npc.hint1, npc.hint2, npc.hint3]
  }

  /** The hint for a failure count: the ladder's rung, the last one from three failures on. */
  function HintFor(npc: Npc, failureCount: int): (h: string)
    ensures failureCount >= 0 ==> h == HintLadder(npc)[Min(failureCount, 3)]
    ensures failureCount < 0 ==> h == ""
  {
    if failureCount == 1 then npc.hint1
    else if failureCount == 2 then npc.hint2
    else if failureCount >= 3 then npc.hint3
    else ""
  }

  /** The three dialog lines in order. */
  function DialogLines(npc: Npc): (d: seq<string>)
    ensures |d| == 3
  {
    [npc.dialog1, npc.dialog2, npc.dialog3]
  }

  /** The dialog line for a stage; an unknown stage shows the first line. */
  function StageLine(npc: Npc, stage: int): (line: string)
    ensures 1 <= stage <= 3 ==> line == DialogLines(npc)[stage - 1]
    ensures !(1 <= stage <= 3) ==> line == npc.dialog1
  {
    match stage
    case 1 => npc.dialog1
    case 2 => npc.dialog2
    case 3 => npc.dialog3
    case _ => npc.dialog1
  }

  /**
   * The message the dialog shows. The hint screen comes first, then the
   * completion line, then the line for the dialog stage; with no NPC there
   * is no message.
   */
  function CurrentDialogMessage(s: GameState): (m: string)
    ensures s.currentNpc.None? ==> m == ""
    ensures s.currentNpc.Some? && s.objectiveRevealed ==>
      m == HintPrefix + HintFor(s.currentNpc.value, s.failureCount)
    ensures s.currentNpc.Some? && !s.objectiveRevealed && s.questComplete ==>
      m == s.currentNpc.value.completedDialog
    ensures s.currentNpc.Some? && !s.objectiveRevealed && !s.questComplete ==>
      m == StageLine(s.currentNpc.value, s.dialogStage)
  {
    match s.currentNpc
    case None => ""
    case Some(npc) =>
      if s.objectiveRevealed then HintPrefix + HintFor(npc, s.failureCount)
      else if s.questComplete then npc.completedDialog
      else StageLine(npc, s.dialogStage)
  }

  /** The dialog offers the editor only at the last stage of an unsolved quest, outside the hint screen. */
  predicate ShowEditorButton(s: GameState)
  {
    !s.questComplete && s.dialogStage == 3 && !s.objectiveRevealed
  }

  /** Whenever the editor button is offered, the dialog is showing its third line. */
  lemma EditorButtonShowsLastLine(s: GameState)
    requires ShowEditorButton(s) && s.currentNpc.Some?
    ensures CurrentDialogMessage(s) == s.currentNpc.value.dialog3
    ensures !DialogClose(s).showDialog && DialogClose(s).dialogStage == 3
  {
  }

  /**
   * A first conversation walks through the three lines in order: each close
   * shows the next line, the third line offers the editor, and closing it
   * ends the dialog without losing the stage.
   */
  lemma ConversationWalk(s: GameState)
    requires s.currentNpc.Some? && s.showDialog && s.dialogStage == 1
    requires !s.objectiveRevealed && !s.questComplete
    ensures var npc := s.currentNpc.value;
      var s2 := DialogClose(s);
      var s3 := DialogClose(s2);
      var s4 := DialogClose(s3);
      && CurrentDialogMessage(s) == npc.dialog1 && !ShowEditorButton(s)
      && s2.showDialog && CurrentDialogMessage(s2) == npc.dialog2 && !ShowEditorButton(s2)
      && s3.showDialog && CurrentDialogMessage(s3) == npc.dialog3 && ShowEditorButton(s3)
      && !s4.showDialog && ShowEditorButton(s4)
  {
  }

  /**
   * After a failure the dialog shows a real hint: the rung of the ladder for
   * the new failure count, never the empty one.
   */
  lemma HintAfterFailure(s: GameState)
    requires Valid(s) && s.currentNpc.Some?
    ensures var r := ValidationFailure(s);
      var k := Min(s.failureCount + 1, 3);
      && 1 <= k <= 3
      && CurrentDialogMessage(r) == HintPrefix + HintLadder(s.currentNpc.value)[k]
  {
  }

  /** The avatars the dialog knows. */
  datatype Avatar = ElderRowanAvatar | SageMarrelinAvatar | RangerThalenAvatar | ChronoWardenAvatar | OracleAvatar | NoAvatar

  /** The avatar for an NPC name; an unknown name has none. */
  function NpcAvatar(name: string): (a: Avatar)
    ensures a == NoAvatar <==>
      name !in ["Elder Rowan", "Sage Marrelin", "Ranger Thalen", "Chrono-Warden", "Oracle"]
  {
    if name == "Elder Rowan" then ElderRowanAvatar
    else if name == "Sage Marrelin" then SageMarrelinAvatar
    else if name == "Ranger Thalen" then RangerThalenAvatar
    else if name == "Chrono-Warden" then ChronoWardenAvatar
    else if name == "Oracle" then OracleAvatar
    else NoAvatar
  }

  /**
   * The guides of levels 1 to 4 have their own avatars; the guide of level 5
   * and the epilogue character match no entry of the table, so the oracle
   * avatar is never shown.
   */
  lemma AvatarCoverage()
    ensures NpcAvatar(LevelData.LevelOne.name) == ElderRowanAvatar
    ensures NpcAvatar(LevelData.LevelTwo.name) == SageMarrelinAvatar
    ensures NpcAvatar(LevelData.LevelThree.name) == RangerThalenAvatar
    ensures NpcAvatar(LevelData.LevelFour.name) == ChronoWardenAvatar
    ensures NpcAvatar(LevelData.LevelFive.name) == NoAvatar
    ensures NpcAvatar(LevelData.FinalName) == NoAvatar
  {
    assert LevelData.LevelFive.name[0] == '?';
    assert LevelData.FinalName[0] == 'A';
  }

  const VillageAmbient := "/sounds/village-ambient.mp3"

  /** The background track per level; any other level plays the village track. */
  function MusicForLevel(level: int): (track: string)
    ensures track == VillageAmbient <==> !(2 <= level <= 5)
  {
    if level == 2 then "/sounds/field-ambient.mp3"
    else if level == 3 then "/sounds/forest-ambient.mp3"
    else if level == 4 then "/sounds/dungeon-ambient.mp3"
    else if level == 5 then "/sounds/control-room-ambient.mp3"
    else VillageAmbient
  }

  /** Every level has its own track. */
  lemma MusicDistinct(a: int, b: int)
    requires 1 <= a <= 5 && 1 <= b <= 5 && a != b
    ensures MusicForLevel(a) != MusicForLevel(b)
  {
    var tracks := [MusicForLevel(1), MusicForLevel(2), MusicForLevel(3), MusicForLevel(4), MusicForLevel(5)];
    assert forall i :: 0 <= i < 5 ==> tracks[i][8] == ['v', 'f', 'f', 'd', 'c'][i];
    assert tracks[1][9] == 'i' && tracks[2][9] == 'o';
    assert tracks[a - 1] == MusicForLevel(a) && tracks[b - 1] == MusicForLevel(b);
  }

  /**
   * The events the two panels, the keyboard and the frame loop deliver to the
   * state machine. `Talk` carries the NPC the interaction scan found, and
   * `PortalCheck` whether the player is within reach of the portal.
   */
  datatype Event =
    | CloseDialog
    | OpenEditorButton
    | CloseEditor
    | FailValidation
    | PassValidation
    | Talk(npc: Npc)
    | PortalCheck(nearPortal: bool)
    | EnterPortal

  /** The dialog is rendered only while it is shown for a current NPC; so is the editor. */
  predicate DialogOnScreen(s: GameState)
  {
    s.showDialog && s.currentNpc.Some?
  }

  predicate EditorOnScreen(s: GameState)
  {
    s.showEditor && s.currentNpc.Some?
  }

  /** Whether an event can reach its handler in state s. */
  predicate Enabled(s: GameState, e: Event)
  {
    match e
    case CloseDialog => DialogOnScreen(s)
    case OpenEditorButton => DialogOnScreen(s) && ShowEditorButton(s)
    case CloseEditor => EditorOnScreen(s)
    case FailValidation => EditorOnScreen(s)
    case PassValidation => EditorOnScreen(s)
    case Talk(_) => !s.showDialog && !s.showEditor
    case PortalCheck(_) => true
    case EnterPortal => s.canEnterPortal
  }

  /** One event; an event that cannot reach its handler leaves the state alone. */
  function Step(s: GameState, e: Event): (r: GameState)
    ensures !Enabled(s, e) ==> r == s
    ensures Valid(s) ==> Valid(r)
  {
    if !Enabled(s, e) then s
    else match e
      case CloseDialog => DialogClose(s)
      case OpenEditorButton => OpenEditor(s)
      case CloseEditor => EditorClose(s)
      case FailValidation => ValidationFailure(s)
      case PassValidation => QuestSolved(s)
      case Talk(npc) => Converse(s, npc)
      case PortalCheck(near) => PortalFlags(s, s.portalActive && near)
      case EnterPortal => PortalEntered(s)
  }

  /** A sequence of events, in order. */
  function Run(s: GameState, events: seq<Event>): GameState
    decreases |events|
  {
    if |events| == 0 then s else Run(Step(s, events[0]), events[1..])
  }

  /**
   * The level only moves through the portal, by exactly one, after the
   * level's quest is solved, and into a fresh record; at the last level the
   * portal keeps the level.
   */
  lemma LevelAdvancesOnlyAfterQuest(s: GameState, e: Event)
    requires Valid(s)
    ensures var r := Step(s, e);
      r.currentLevel != s.currentLevel ==>
        && e == EnterPortal && s.questComplete && s.currentLevel < 5
        && r == InitialState().(currentLevel := s.currentLevel + 1)
  {
  }

  /**
   * Within a level, failures only accumulate, the conversation never goes
   * back a stage, and a solved quest stays solved.
   */
  lemma ProgressKeptWithinLevel(s: GameState, e: Event)
    ensures var r := Step(s, e);
      r.currentLevel == s.currentLevel ==>
        r.failureCount >= s.failureCount && (s.questComplete ==> r.questComplete)
        && r.dialogStage >= s.dialogStage
  {
    match e
    case CloseDialog =>
    case OpenEditorButton =>
    case CloseEditor =>
    case FailValidation =>
    case PassValidation =>
    case Talk(_) =>
    case PortalCheck(_) =>
    case EnterPortal =>
  }

  /**
   * Every event keeps the panels coherent, except for entering the portal at
   * the last level while the editor is open.
   */
  lemma StepCoherent(s: GameState, e: Event)
    requires Coherent(s)
    requires !(e == EnterPortal && s.currentLevel >= 5 && s.showEditor)
    ensures Coherent(Step(s, e))
  {
  }

  /** Any run of events keeps the invariant. */
  lemma {:induction false} RunValid(s: GameState, events: seq<Event>)
    requires Valid(s)
    ensures Valid(Run(s, events))
    decreases |events|
  {
    if |events| > 0 {
      RunValid(Step(s, events[0]), events[1..]);
    }
  }

  /**
   * Along any run from a valid state the level never goes down, never
   * passes 5, and rises at most once per portal event.
   */
  lemma {:induction false} RunLevelBounds(s: GameState, events: seq<Event>)
    requires Valid(s)
    ensures var r := Run(s, events);
      s.currentLevel <= r.currentLevel <= 5
      && r.currentLevel - s.currentLevel <= CountPortalEvents(events)
    decreases |events|
  {
    if |events| > 0 {
      var t := Step(s, events[0]);
      LevelAdvancesOnlyAfterQuest(s, events[0]);
      RunLevelBounds(t, events[1..]);
    }
  }

  function CountPortalEvents(events: seq<Event>): (n: nat)
    ensures n <= |events|
    decreases |events|
  {
    if |events| == 0 then 0
    else (if events[0] == EnterPortal then 1 else 0) + CountPortalEvents(events[1..])
  }

  /** The whole game, from the start: any run ends in a valid record of levels 1 to 5. */
  lemma GameStaysInBounds(events: seq<Event>)
    ensures Valid(Run(InitialState(), events))
    ensures 1 <= Run(InitialState(), events).currentLevel <= 5
  {
    RunValid(InitialState(), events);
  }
}
