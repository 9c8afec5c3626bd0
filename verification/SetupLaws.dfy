/** Where a setup run goes when its command ends without success, and how long commands live. */
module SetupLaws {
  import opened Options
  import opened Times
  import opened SetupTables
  import opened SetupCoherence

  /** The latest command of a run, which nobody waits for any more. */
  predicate IsLatestOf(t: Tables, c: CommandId, r: RunId) {
    && c in t.commands && t.commands[c].run == Some(r) && r in t.runs
    && forall d | d in t.commands && t.commands[d].run == Some(r) :: d <= c
  }

  /** The keys a run found, made and restores. */
  predicate SameKeys(a: SetupRun, b: SetupRun) {
    a.originalKey == b.originalKey && a.newKey == b.newKey && a.restoredKey == b.restoredKey
  }

  /** The reset frame may be out: its sending was recorded, in whatever state. */
  predicate FrameMayBeOut(c: NodeCommand) {
    exists i | 0 <= i < |c.progress| :: c.progress[i].step == SendResetFrame
  }

  /** Where the run is afterwards. */
  function StateAfterFailure(run: RunState, command: NodeCommand): RunState {
    if run.Resetting? && command.kind.FactoryReset? then
      if FrameMayBeOut(command) then ReadingNode else AwaitingResetConfirmation
    else if run.Configuring? && command.kind.ConfigureNode? then AwaitingConfiguration
    else run
  }

  /** The command concerns what the run is doing. */
  predicate IsAwaited(run: RunState, kind: CommandKind) {
    || (run.Resetting? && kind.FactoryReset?)
    || (run.Configuring? && kind.ConfigureNode?)
    || (run.ReadingNode? && kind.ReadNodeInformation?)
  }

  /**
   A run whose latest command failed goes back to where it was before, keeps its keys and says which
   command it was; if the reset frame may be out, the node is read again by a new command.
   */
  lemma FailedRunGoesBack(t: Tables, c: CommandId, r: RunId, now: Time)
    requires IsLatestOf(t, c, r) && (t.runs[r].isActive <==> !IsFinal(t.runs[r].state)) && t.nextCommand !in t.commands
    ensures var u := FallBack(t, c, now);
      var run, command := t.runs[r], t.commands[c];
      var rereads := run.state.Resetting? && command.kind.FactoryReset? && FrameMayBeOut(command);
      && r in u.runs && u.runs[r].state == StateAfterFailure(run.state, command)
      && u.runs[r].isActive == run.isActive && SameKeys(u.runs[r], run)
      && u.runs[r].lastError == (if IsAwaited(run.state, command.kind) then Some(c) else run.lastError)
      && u.commands == (if rereads
           then t.commands[t.nextCommand := NodeCommand(ReadNodeInformation, CommandPending, Some(r), now + 300.0, [])]
           else t.commands)
      && u.configuredKey == t.configuredKey && forall q | q in t.runs && q != r :: q in u.runs && u.runs[q] == t.runs[q]
  {
    assert !HasNewerCommand(t, r, c);
    assert ResetFrameNoted(t.commands[c]) <==> FrameMayBeOut(t.commands[c]);
    FallsBackTo(t, c, r, now);
  }

  lemma FallsBackTo(t: Tables, c: CommandId, r: RunId, now: Time)
    requires c in t.commands && t.commands[c].run == Some(r) && r in t.runs && !HasNewerCommand(t, r, c)
    requires t.runs[r].isActive <==> !IsFinal(t.runs[r].state)
    ensures var u := FallBack(t, c, now);
      var run, command := t.runs[r], t.commands[c];
      var noted := if IsAwaited(run.state, command.kind) then Some(c) else run.lastError;
      var moved := UpdateRun(t, r, run.(state := StateAfterFailure(run.state, command), lastError := noted));
      u == if run.state.Resetting? && command.kind.FactoryReset? && FrameMayBeOut(command)
           then CreateCommand(moved, ReadNodeInformation, Some(r), now) else moved
  {
    assert ResetFrameNoted(t.commands[c]) <==> FrameMayBeOut(t.commands[c]);
    assert t.runs[r := t.runs[r]] == t.runs;
  }

  /** A command a later one of its run replaced, or that belongs to none, moves nothing. */
  lemma ReplacedCommandMovesNothing(t: Tables, c: CommandId, now: Time)
    requires c in t.commands
    requires t.commands[c].run.Some? ==>
      exists d | d in t.commands :: t.commands[d].run == t.commands[c].run && d > c
    ensures FallBack(t, c, now) == t
  {
    if t.commands[c].run.Some? {
      var d :| d in t.commands && t.commands[d].run == t.commands[c].run && d > c;
      assert BelongsTo(t, d, t.commands[c].run.value);
    }
  }

  predicate ShowsNoError(t: Tables, u: Tables, r: RunId) {
    u != t ==> r in u.runs && u.runs[r].lastError.None?
  }

  /** A run that moves on shows no error any more. */
  lemma MovingOnForgetsError(t: Tables, r: RunId, key: Key, flag: bool, now: Time)
    ensures ShowsNoError(t, RetryReading(t, r, now), r)
    ensures ShowsNoError(t, ConfirmReset(t, r, flag, now), r)
    ensures ShowsNoError(t, SubmitConfiguration(t, r, flag, now), r)
    ensures ShowsNoError(t, RecordRead(t, r, key), r)
    ensures ShowsNoError(t, RecordResetSucceeded(t, r, key), r)
    ensures ShowsNoError(t, RecordCompleted(t, r, key), r)
  {
  }

  /** A new command waits for five minutes, and a reset, a configuration or another short-lived one for one. */
  lemma CommandsLive(t: Tables, kind: CommandKind, run: Option<RunId>, now: Time)
    ensures var u := CreateCommand(t, kind, run, now);
      var short := kind.FactoryReset? || kind.ConfigureNode? || (kind.OtherCommand? && kind.isShort);
      && t.nextCommand in u.commands
      && u.commands[t.nextCommand] == NodeCommand(kind, CommandPending, run, now + (if short then 60.0 else 300.0), [])
  {
  }

  /** A recorded step is in the list in the state recorded, wherever it stands, and every other step as it was. */
  lemma {:induction false} RecordedStepIsShown(progress: seq<ProgressStep>, step: ProgressStep, shown: ProgressStep)
    ensures shown in ReplaceOrAppend(progress, step) <==>
      shown == step || (shown.step != step.step && shown in progress)
  {
    if progress != [] {
      var rest := ReplaceOrAppend(progress[1..], step);
      assert progress == [progress[0]] + progress[1..];
      if progress[0].step == step.step {
        var all := ReplaceAll(progress[1..], step);
        if shown in all {
          var i :| 0 <= i < |all| && all[i] == shown;
          assert progress[1..][i] == shown || shown == step;
        }
        if shown.step != step.step && shown in progress[1..] {
          var i :| 0 <= i < |progress[1..]| && progress[1..][i] == shown;
          assert all[i] == shown;
        }
      } else {
        RecordedStepIsShown(progress[1..], step, shown);
      }
    }
  }
}
