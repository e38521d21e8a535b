/**
 * The dialog box: a typewriter that reveals the message one character per
 * tick, the Enter key that first reveals the rest and then closes, and the
 * row of buttons under the text.
 */
module GameDialog {
  import Quest
  import opened Entities

  /**
   * The typewriter's state for the current message: the text shown so far,
   * the next index, whether typing is complete and whether the interval is
   * still ticking.
   */
  class Typewriter {
    var message: string
    var displayed: string
    var index: nat
    var complete: bool
    var ticking: bool

    /** The shown text is always the message's prefix up to the index. */
    predicate Valid()
      reads this
    {
      index <= |message| && displayed == message[..index]
    }

    /** A dialog opened on this message: nothing shown yet, typing under way. */
    constructor (message: string)
      ensures this.message == message && displayed == "" && index == 0
      ensures !complete && ticking && Valid()
    {
      this.message := message;
      displayed := "";
      index := 0;
      complete := false;
      ticking := true;
    }

    /** A new message: the typewriter starts over. */
    method SetMessage(m: string)
      modifies this
      ensures message == m && displayed == "" && index == 0
      ensures !complete && ticking && Valid()
    {
      message := m;
      displayed := "";
      index := 0;
      complete := false;
      ticking := true;
    }

    /**
     * One interval tick. While characters remain, one more is shown and the
     * typing sound plays when the new index is a multiple of three; once all
     * are shown, typing completes and the interval stops.
     */
    method Tick() returns (sound: bool)
      requires Valid()
      modifies this`displayed, this`index, this`complete, this`ticking
      ensures Valid()
      ensures !old(ticking) ==> unchanged(this) && !sound
      ensures old(ticking) && old(index) < |message| ==>
        && index == old(index) + 1 && displayed == message[..index]
        && sound == (index % 3 == 0)
        && complete == old(complete) && ticking
      ensures old(ticking) && old(index) == |message| ==>
        && index == old(index) && displayed == old(displayed)
        && complete && !ticking && !sound
    {
      sound := false;
      if !ticking {
        return;
      }
      if index < |message| {
        displayed := message[..index + 1];
        index := index + 1;
        sound := index % 3 == 0;
      } else {
        complete := true;
        ticking := false;
      }
    }

    /**
     * The Enter key. While typing, the whole message is shown at once and
     * typing completes; once complete, the dialog asks to close. A single
     * press never does both.
     */
    method PressEnter() returns (close: bool)
      requires Valid()
      modifies this`displayed, this`index, this`complete
      ensures Valid()
      ensures close <==> old(complete)
      ensures !old(complete) ==> displayed == message && index == |message| && complete
      ensures old(complete) ==> unchanged(this)
    {
      if !complete {
        displayed := message;
        index := |message|;
        complete := true;
        close := false;
      } else {
        close := true;
      }
    }
  }

  /**
   * The number of typing sounds while n characters are typed: one for each
   * new index from 1 to n that is a multiple of three.
   */
  function SoundCount(n: nat): (c: nat)
    ensures c == n / 3
  {
    if n == 0 then 0 else SoundCount(n - 1) + (if n % 3 == 0 then 1 else 0)
  }

  /** What is shown after k ticks of an uninterrupted typewriter. */
  function TypedAfter(message: string, k: nat): (shown: string)
  {
    message[..if k < |message| then k else |message|]
  }

  /** The text shown only grows with ticks, and after as many ticks as characters it is the whole message. */
  lemma TypingReveals(message: string, j: nat, k: nat)
    requires j <= k
    ensures TypedAfter(message, j) <= TypedAfter(message, k)
    ensures k >= |message| ==> TypedAfter(message, k) == message
  {
  }

  /**
   * The typing interval of a freshly opened dialog, run until it stops with
   * no key pressed: one tick per character and a final one that completes
   * typing. The text shown after each tick is `TypedAfter` of the ticks so
   * far, and the sounds played are `SoundCount` of the message's length.
   */
  method TypeOut(t: Typewriter) returns (ticks: nat, sounds: nat)
    requires t.Valid() && t.index == 0 && t.ticking && !t.complete
    modifies t`displayed, t`index, t`complete, t`ticking
    ensures t.Valid() && t.displayed == t.message && t.index == |t.message|
    ensures t.complete && !t.ticking
    ensures ticks == |t.message| + 1
    ensures sounds == SoundCount(|t.message|)
  {
    ticks, sounds := 0, 0;
    while t.ticking
      modifies t`displayed, t`index, t`complete, t`ticking
      invariant t.Valid()
      invariant t.displayed == TypedAfter(t.message, t.index)
      invariant sounds == SoundCount(t.index)
      invariant ticks == t.index + (if t.ticking then 0 else 1)
      invariant t.ticking ==> !t.complete
      invariant !t.ticking ==> t.complete && t.index == |t.message|
      decreases |t.message| - t.index + (if t.ticking then 1 else 0)
    {
      var sound := t.Tick();
      ticks := ticks + 1;
      if sound {
        sounds := sounds + 1;
      }
    }
  }

  /** The labels under the text, in order. */
  const OpenEditor := "Open Editor"
  const ExploreFirst := "Explore First"
  const Ok := "OK"

  /**
   * The buttons: "Open Editor" when the editor button is requested and a
   * handler for it is given, then the close button, labelled "Explore
   * First" beside the editor button and "OK" otherwise.
   */
  function Buttons(showEditorButton: bool, hasOpenEditor: bool): (b: seq<string>)
    ensures 1 <= |b| <= 2
    ensures (OpenEditor in b) <==> showEditorButton && hasOpenEditor
    ensures b[|b| - 1] == (if showEditorButton then ExploreFirst else Ok)
    ensures |b| == 2 ==> b[0] == OpenEditor
  {
    var close := if showEditorButton then ExploreFirst else Ok;
    if showEditorButton && hasOpenEditor then [OpenEditor, close] else [close]
  }

  /**
   * In the game the editor handler is always given, so the dialog offers
   * the editor exactly at the last stage of an unsolved, unrevealed quest.
   */
  lemma EditorButtonInGame(s: GameState)
    ensures (OpenEditor in Buttons(Quest.ShowEditorButton(s), true))
      <==> !s.questComplete && s.dialogStage == 3 && !s.objectiveRevealed
  {
  }
}
