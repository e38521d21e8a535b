/**
 * The code editor's run: the player's code is executed (outside this
 * model) with a console whose log calls are captured; the captured lines,
 * joined, go to the NPC's validator, and the run ends in a pass, a failure
 * or an exception.
 */
module CodeEditor {
  import opened Wrappers
  import opened Entities
  import opened JsStrings
  import World
  import Quest
  import LevelData

  /**
   * What executing the code did: it completed, having made these log calls
   * (each call's arguments already converted with `String`), or it threw
   * with this message. The execution itself is not modelled.
   */
  datatype Execution = Completed(calls: seq<seq<string>>) | Threw(message: string)

  /** The editor's initial contents. */
  const InitialCode := "// Write your code here\n"

  /** What the output panel shows for an empty output. */
  const NoOutput := "(No output)"

  /** One log call's line: its arguments joined by single spaces. */
  function LogEntry(args: seq<string>): (line: string)
    ensures |args| == 0 ==> line == ""
    ensures |args| == 1 ==> line == args[0]
    ensures forall k :: 0 < k < |args| ==> line == Join(args[..k], " ") + " " + Join(args[k..], " ")
    ensures |args| > 0 ==> |line| == SumLengths(args) + |args| - 1
  {
    JoinSplitAll(args, " ");
    if |args| > 0 then JoinLength(args, " "); Join(args, " ") else Join(args, " ")
  }

  /** The lines of a run, one per log call, in call order. */
  function Entries(calls: seq<seq<string>>): (lines: seq<string>)
    ensures |lines| == |calls|
    ensures forall i :: 0 <= i < |calls| ==> lines[i] == LogEntry(calls[i])
    decreases |calls|
  {
    if |calls| == 0 then [] else Entries(calls[..|calls| - 1]) + [LogEntry(calls[|calls| - 1])]
  }

  /** The output handed to the validator: the lines joined by newlines. */
  function Output(calls: seq<seq<string>>): (out: string)
  {
    Join(Entries(calls), "\n")
  }

  /** The output is empty exactly when there was no log call, or one that printed nothing. */
  lemma OutputEmptyIff(calls: seq<seq<string>>)
    ensures Output(calls) == "" <==> |calls| == 0 || (|calls| == 1 && LogEntry(calls[0]) == "")
  {
    JoinEmptyIff(Entries(calls), "\n");
  }

  /** The output panel's text: the output, or a placeholder when it is empty. */
  function Display(out: string): (shown: string)
    ensures shown != ""
    ensures out != "" ==> shown == out
  {
    if out == "" then NoOutput else out
  }

  /** How a run ends. */
  datatype Outcome = Passed | Failed | Crashed(message: string)

  /** A run's outcome: an exception crashes it before the validator; otherwise the verdict decides. */
  function RunOutcome(exec: Execution, code: string, v: Validator): (o: Outcome)
    requires World.KnownValidator(v)
    ensures exec.Threw? <==> o.Crashed?
    ensures exec.Threw? ==> o == Crashed(exec.message)
    ensures exec.Completed? ==> (o == Passed <==> World.Verdict(v, code, Output(exec.calls)))
  {
    match exec
    case Threw(message) => Crashed(message)
    case Completed(calls) => if World.Verdict(v, code, Output(calls)) then Passed else Failed
  }

  /** The epilogue's validator fails every completed run. */
  lemma FinalRunNeverPasses(exec: Execution, code: string)
    ensures RunOutcome(exec, code, FinalValidator) != Passed
  {
    if exec.Completed? {
      LevelData.FinalNeverPasses(code, Output(exec.calls));
    }
  }

  /** At level 1 a run that logs nothing fails, even when the code mentions console.log. */
  lemma SilentRunFailsLevelOne(code: string)
    ensures RunOutcome(Completed([]), code, QuestValidator(1)) == Failed
  {
  }

  /** At level 1, logging a name with console.log passes. */
  lemma LoggingPassesLevelOne()
    ensures RunOutcome(Completed([["Aria"]]), "console.log('Aria')", QuestValidator(1)) == Passed
  {
    assert "console.log('Aria')" == "" + "console.log" + "('Aria')";
    IncludesInfix("", "console.log", "('Aria')");
    assert Output([["Aria"]]) == "Aria";
  }

  /** The editor panel's own state. `closeScheduled` stands for the deferred close after a pass. */
  class Editor {
    var code: string
    var output: string
    var error: string
    var shaking: bool
    var flashing: bool
    var closeScheduled: bool

    constructor ()
      ensures code == InitialCode && output == "" && error == ""
      ensures !shaking && !flashing && !closeScheduled
    {
      code := InitialCode;
      output := "";
      error := "";
      shaking := false;
      flashing := false;
      closeScheduled := false;
    }

    /** Editing the code. */
    method SetCode(value: string)
      modifies this`code
      ensures code == value
    {
      code := value;
    }

    /**
     * Runs the code against the current NPC's validator. Output and error
     * are cleared first. On completion the log lines are captured one per
     * call and the output shown; a pass marks the quest complete (the
     * wrapped validator) and schedules the close, a failure starts the
     * failure animation and reports the failure to the game. An exception
     * shows its message, starts the animation and reports nothing.
     */
    method RunCode(g: Session, exec: Execution) returns (o: Outcome)
      requires g.state.currentNpc.Some? && World.KnownValidator(g.state.currentNpc.value.validator)
      modifies this`output, this`error, this`shaking, this`flashing, this`closeScheduled, g`state
      ensures o == RunOutcome(exec, code, old(g.state).currentNpc.value.validator)
      ensures o == Passed ==>
        && g.state == Quest.QuestSolved(old(g.state))
        && closeScheduled && shaking == old(shaking) && flashing == old(flashing)
      ensures o == Failed ==>
        && g.state == Quest.ValidationFailure(old(g.state))
        && shaking && flashing && closeScheduled == old(closeScheduled)
      ensures o.Crashed? ==>
        && g.state == old(g.state)
        && error == o.message && output == ""
        && shaking && flashing && closeScheduled == old(closeScheduled)
      ensures exec.Completed? ==> output == Display(Output(exec.calls)) && error == ""
    {
      output := "";
      error := "";
      match exec {
        case Threw(message) =>
          error := message;
          shaking := true;
          flashing := true;
          o := Crashed(message);
        case Completed(calls) =>
          var logs: seq<string> := [];
          for i := 0 to |calls|
            invariant logs == Entries(calls[..i])
          {
            assert calls[..i + 1][..i] == calls[..i];
            logs := logs + [LogEntry(calls[i])];
          }
          assert calls[..|calls|] == calls;
          var result := Join(logs, "\n");
          output := if result == "" then NoOutput else result;
          var verdict := World.CallValidator(g.state, g.state.currentNpc.value.validator, code, result);
          g.state := verdict.1;
          if verdict.0 {
            closeScheduled := true;
            o := Passed;
          } else {
            shaking := true;
            flashing := true;
            g.state := Quest.ValidationFailure(g.state);
            o := Failed;
          }
      }
    }

    /** The end of the failure animation. */
    method StopAnimation()
      modifies this`shaking, this`flashing
      ensures !shaking && !flashing
    {
      shaking := false;
      flashing := false;
    }

    /** The deferred close after a pass: the game closes the editor. */
    method FireScheduledClose(g: Session)
      modifies this`closeScheduled, g`state
      ensures !closeScheduled
      ensures old(closeScheduled) ==> g.state == Quest.EditorClose(old(g.state))
      ensures !old(closeScheduled) ==> g.state == old(g.state)
    {
      if closeScheduled {
        closeScheduled := false;
        g.state := Quest.EditorClose(g.state);
      }
    }
  }
}
