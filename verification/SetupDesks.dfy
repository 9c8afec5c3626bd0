/**
 The setup wizard's service functions on rows updated in place. Each leaves what its transaction
 function says, keeps runs and commands in agreement, and says what its caller may rely on.
 */
module SetupDesks {
  import opened Options
  import opened Times
  import opened SetupTables
  import opened SetupCoherence
  import opened SetupSafety

  /** What is still to come of a rebuilt list, once the step was replaced or not yet. */
  ghost function StillToRebuild(rest: seq<ProgressStep>, step: ProgressStep, replaced: bool): seq<ProgressStep> {
    if replaced then ReplaceAll(rest, step) else ReplaceOrAppend(rest, step)
  }

  lemma RebuildUnfolds(rest: seq<ProgressStep>, step: ProgressStep, replaced: bool)
    requires rest != []
    ensures var hit := rest[0].step == step.step;
      StillToRebuild(rest, step, replaced) ==
        [if hit then step else rest[0]] + StillToRebuild(rest[1..], step, replaced || hit)
  {
  }

  lemma RebuildOne(updated: seq<ProgressStep>, rest: seq<ProgressStep>, step: ProgressStep, replaced: bool)
    requires rest != []
    ensures var hit := rest[0].step == step.step;
      updated + StillToRebuild(rest, step, replaced) ==
        (updated + [if hit then step else rest[0]]) + StillToRebuild(rest[1..], step, replaced || hit)
  {
    RebuildUnfolds(rest, step, replaced);
  }

  /** The progress list rebuilt entry by entry: replaced wherever the step occurs, appended if it occurs nowhere. */
  method RebuildProgress(progress: seq<ProgressStep>, step: ProgressStep) returns (updated: seq<ProgressStep>)
    ensures updated == ReplaceOrAppend(progress, step)
  {
    updated := [];
    var replaced := false;
    var i := 0;
    ghost var rest := progress;
    while i < |progress|
      invariant i <= |progress| && rest == progress[i..]
      invariant updated + StillToRebuild(rest, step, replaced) == ReplaceOrAppend(progress, step)
    {
      RebuildOne(updated, rest, step, replaced);
      if progress[i].step == step.step {
        updated := updated + [step];
        replaced := true;
      } else {
        updated := updated + [progress[i]];
      }
      i := i + 1;
      rest := rest[1..];
    }
    assert rest == [];
    if !replaced {
      updated := updated + [step];
    }
  }

  predicate Records(progress: seq<ProgressStep>, name: StepName) {
    exists i | 0 <= i < |progress| :: progress[i].step == name
  }

  lemma RecordsFirst(first: ProgressStep, rest: seq<ProgressStep>, name: StepName)
    ensures Records([first] + rest, name) <==> first.step == name || Records(rest, name)
  {
    var all := [first] + rest;
    assert all[0] == first;
    if i :| 0 <= i < |rest| && rest[i].step == name {
      assert all[i + 1].step == name;
    }
    if i :| 0 <= i < |all| && all[i].step == name {
      assert i > 0 ==> rest[i - 1].step == name;
    }
  }

  /** Recording a step adds it and forgets none: a reset frame once noted stays noted. */
  lemma {:induction false} RecordedStepStays(progress: seq<ProgressStep>, step: ProgressStep, name: StepName)
    ensures Records(ReplaceOrAppend(progress, step), name) <==> step.step == name || Records(progress, name)
  {
    if progress != [] {
      assert progress == [progress[0]] + progress[1..];
      RecordsFirst(progress[0], progress[1..], name);
      if progress[0].step == step.step {
        var rest := ReplaceAll(progress[1..], step);
        RecordsFirst(step, rest, name);
        SameSteps(progress[1..], rest, name);
      } else {
        RecordsFirst(progress[0], ReplaceOrAppend(progress[1..], step), name);
        RecordedStepStays(progress[1..], step, name);
      }
    } else {
      RecordsFirst(step, [], name);
      assert [step] + [] == [step];
    }
  }

  lemma SameSteps(a: seq<ProgressStep>, b: seq<ProgressStep>, name: StepName)
    requires |a| == |b| && forall i | 0 <= i < |a| :: a[i].step == b[i].step
    ensures Records(a, name) <==> Records(b, name)
  {
  }

  lemma CancelledAre(t: Tables, r: RunId, rows: map<CommandId, NodeCommand>)
    requires forall c :: c in rows <==> c in t.commands
    requires forall c | c in t.commands ::
      rows[c] == (if t.commands[c].run == Some(r) && t.commands[c].state.CommandPending?
        then t.commands[c].(state := CommandCancelled) else t.commands[c])
    ensures rows == CancelPending(t, r).commands
  {
  }

  // ----- what callers may rely on ---------------------------------------------------------------------

  /** The run waits for its latest command, of this kind, which no worker took yet. */
  ghost predicate Awaits(t: Tables, r: RunId, kind: CommandKind) {
    exists c :: IsLatest(t, r, c) && Works(t, c, r, kind) && IsPending(t, c)
  }

  /** No other run and not the configured key. */
  predicate OnlyRunChanges(t: Tables, u: Tables, r: RunId) {
    u.configuredKey == t.configuredKey && forall q | q in t.runs && q != r :: q in u.runs && u.runs[q] == t.runs[q]
  }

  lemma StartedRun(t: Tables, now: Time)
    requires Coherent(t) && !AnyActive(t)
    ensures var u := StartRun(t, now);
      && Coherent(u) && AnyActive(u) && HasRun(u, t.nextRun, ReadingNode) && u.runs[t.nextRun].isActive
      && Awaits(u, t.nextRun, ReadNodeInformation) && t.nextRun !in t.runs && OnlyRunChanges(t, u, t.nextRun)
  {
    StartKeepsCoherence(t, now);
    assert t.nextRun in t.runs ==> RunOk(t, t.nextRun);
    var r := t.nextRun;
    var t1 := t.(runs := t.runs[r := SetupRun(ReadingNode, true, None, None, None, false, None)], nextRun := r + 1);
    forall c | c in t1.commands ensures CommandOk(t1, c) {
      assert CommandOk(t, c);
    }
    CreatedIsLatest(t1, ReadNodeInformation, r, now);
  }

  /** Pending commands of a run. */
  ghost predicate OnlyPending(t: Tables, r: RunId, c: CommandId) {
    BelongsTo(t, c, r) && IsPending(t, c) && forall d | BelongsTo(t, d, r) && IsPending(t, d) :: d == c
  }

  lemma RetriedRun(t: Tables, r: RunId, now: Time)
    requires Coherent(t) && HasRun(t, r, ReadingNode) && !CommandRuns(t, r)
    ensures var u := RetryReading(t, r, now);
      && Coherent(u) && HasRun(u, r, ReadingNode) && u.runs[r].lastError.None? && OnlyRunChanges(t, u, r)
      && OnlyPending(u, r, t.nextCommand) && u.commands[t.nextCommand].kind.ReadNodeInformation?
  {
    RetryKeepsCoherence(t, r, now);
  }

  lemma ConfirmedRun(t: Tables, r: RunId, now: Time)
    requires Coherent(t) && HasRun(t, r, AwaitingResetConfirmation)
    ensures var u := ConfirmReset(t, r, true, now);
      Coherent(u) && HasRun(u, r, Resetting) && Awaits(u, r, FactoryReset) && OnlyRunChanges(t, u, r)
  {
    ConfirmKeepsCoherence(t, r, true, now);
    var t1 := UpdateRun(t, r, Moved(t.runs[r], Resetting).(lastError := None));
    forall c | c in t1.commands ensures CommandOk(t1, c) {
      assert CommandOk(t, c);
    }
    CreatedIsLatest(t1, FactoryReset, r, now);
  }

  lemma SubmittedRun(t: Tables, r: RunId, restore: bool, now: Time)
    requires Coherent(t) && HasRun(t, r, AwaitingConfiguration)
    ensures var u := SubmitConfiguration(t, r, restore, now);
      && Coherent(u) && HasRun(u, r, Configuring) && u.runs[r].restoreRequested == restore
      && u.runs[r].restoredKey == t.runs[r].restoredKey && Awaits(u, r, ConfigureNode) && OnlyRunChanges(t, u, r)
  {
    SubmitKeepsCoherence(t, r, restore, now);
    var t1 := UpdateRun(t, r, Moved(t.runs[r], Configuring).(restoreRequested := restore, lastError := None));
    forall c | c in t1.commands ensures CommandOk(t1, c) {
      assert CommandOk(t, c);
    }
    CreatedIsLatest(t1, ConfigureNode, r, now);
  }

  /** The relay does not run on this key, whatever the last handshake reported. */
  ghost predicate NeverRelays(t: Tables, key: Key) {
    t.configuredKey == Some(key) ==> forall connected :: !RelayModeFor(t, connected).RelayRunning?
  }

  lemma MarkedIsNeverRelayed(t: Tables, key: Key)
    requires Coherent(t) && Marked(t, key)
    ensures NeverRelays(t, key)
  {
    if t.configuredKey == Some(key) {
      forall connected ensures !RelayModeFor(t, connected).RelayRunning? {
        MarkedNeverRelays(t, key, connected);
      }
    }
  }

  lemma CancelledRun(t: Tables, r: RunId)
    requires Coherent(t) && r in t.runs && IsCancellable(t.runs[r].state)
    ensures var u := CancelRun(t, r);
      && Coherent(u) && !AnyActive(u) && HasRun(u, r, RunAbandoned) && OnlyRunChanges(t, u, r)
      && (forall c | BelongsTo(u, c, r) :: !IsPending(u, c))
      && u.runs[r].restoredKey == t.runs[r].restoredKey
      && (t.runs[r].restoredKey.Some? ==> NeverRelays(u, t.runs[r].restoredKey.value))
  {
    var u := CancelRun(t, r);
    CancelKeepsCoherence(t, r);
    CoherentMeans(t, r);
    ActiveRunIsLatest(t, r);
    if t.runs[r].restoredKey.Some? {
      assert NoneCompletedSince(u, r);
      assert Marked(u, t.runs[r].restoredKey.value);
      MarkedIsNeverRelayed(u, t.runs[r].restoredKey.value);
    }
  }

  lemma ReadRun(t: Tables, r: RunId, key: Key)
    requires Coherent(t) && HasRun(t, r, ReadingNode)
    ensures var u := RecordRead(t, r, key);
      var wasReset := t.runs[r].originalKey.Some? && t.runs[r].originalKey != Some(key);
      && Coherent(u) && OnlyRunChanges(t, u, r) && r in u.runs && IsCancellable(u.runs[r].state)
        && u.runs[r].originalKey.Some?
      && (HasRun(u, r, AwaitingConfiguration) <==> wasReset)
      && (wasReset ==> u.runs[r].newKey == Some(key) && u.runs[r].originalKey == t.runs[r].originalKey)
      && (!wasReset ==> HasRun(u, r, AwaitingResetConfirmation) && u.runs[r].originalKey == Some(key))
  {
    RecordReadKeepsCoherence(t, r, key);
  }

  lemma ResetRun(t: Tables, r: RunId, key: Key)
    requires Coherent(t) && HasRun(t, r, Resetting)
    ensures var u := RecordResetSucceeded(t, r, key);
      && Coherent(u) && OnlyRunChanges(t, u, r) && r in u.runs
      && (HasRun(u, r, AwaitingConfiguration) <==> t.runs[r].originalKey != Some(key))
      && (HasRun(u, r, AwaitingConfiguration) ==>
        u.runs[r].newKey == Some(key) && u.runs[r].newKey != u.runs[r].originalKey)
      && (!HasRun(u, r, AwaitingConfiguration) ==> u == t)
  {
    RecordResetKeepsCoherence(t, r, key);
  }

  lemma RestoredRun(t: Tables, r: RunId, key: Key)
    requires Coherent(t) && HasRun(t, r, Configuring)
    ensures var u := RecordRestoreStarted(t, r, key);
      && Coherent(u) && OnlyRunChanges(t, u, r) && HasRun(u, r, Configuring) && u.runs[r].restoredKey == Some(key)
      && NeverRelays(u, key)
  {
    var u := RecordRestoreStarted(t, r, key);
    RecordRestoreKeepsCoherence(t, r, key);
    CoherentMeans(t, r);
    ActiveRunIsLatest(t, r);
    assert NoneCompletedSince(u, r);
    assert Marked(u, key);
    MarkedIsNeverRelayed(u, key);
  }

  /** However a running command ends, none runs afterwards. */
  lemma FinishedCommand(t: Tables, c: CommandId, state: CommandState, now: Time)
    requires Coherent(t) && IsRunning(t, c) && IsTerminal(state)
    ensures !AnyRunning(FinishCommand(t, c, state, now))
  {
    var u := FinishCommand(t, c, state, now);
    NextIsFree(t);
    FinishKeepsMarks(t, c, state, now);
    forall d ensures !IsRunning(u, d) {
      OnlyOneRuns(t, c, d);
    }
    NoneRuns(u);
  }

  lemma OnlyOneRuns(t: Tables, c: CommandId, d: CommandId)
    requires Coherent(t) && IsRunning(t, c)
    ensures IsRunning(t, d) ==> d == c
  {
  }

  lemma FinishedRun(t: Tables, c: CommandId, state: CommandState, now: Time)
    requires Coherent(t) && IsRunning(t, c) && IsUnsuccessful(state) && t.commands[c].run.Some?
    ensures var r := t.commands[c].run.value;
      var u := FinishCommand(t, c, state, now);
      r in t.runs && t.runs[r].isActive && !HasNewerCommand(t, r, c) ==>
        r in u.runs && u.runs[r].isActive && IsCancellable(u.runs[r].state)
  {
    var r := t.commands[c].run.value;
    if r in t.runs && t.runs[r].isActive && !HasNewerCommand(t, r, c) {
      OperatorCanActAgain(t, c, state, now);
    }
  }

  // ----- claiming -------------------------------------------------------------------------------------

  lemma ClaimedCommand(t: Tables, c: CommandId)
    requires Coherent(t) && IsPending(t, c) && !AnyRunning(t)
    ensures var u := ClaimOne(t, c);
      Coherent(u) && IsRunning(u, c) && forall d | IsRunning(u, d) :: d == c
  {
    ClaimKeepsCoherence(t, c);
  }

  lemma IdsAreBelow(t: Tables)
    requires Coherent(t)
    ensures forall d | d in t.commands :: d < t.nextCommand
  {
    forall d | d in t.commands ensures d < t.nextCommand {
      assert CommandOk(t, d);
    }
  }

  lemma NoneRuns(t: Tables)
    requires forall c :: !IsRunning(t, c)
    ensures !AnyRunning(t)
  {
    forall c | c in t.commands ensures !t.commands[c].state.CommandRunning? {
      assert !IsRunning(t, c);
    }
  }

  class SetupDesk {
    var runs: map<RunId, SetupRun>
    var commands: map<CommandId, NodeCommand>
    var configuredKey: Option<Key>
    var nextRun: RunId
    var nextCommand: CommandId

    function Rows(): Tables
      reads this
    {
      Tables(runs, commands, configuredKey, nextRun, nextCommand)
    }

    /** Runs and commands agree. */
    ghost predicate Valid()
      reads this
    {
      Coherent(Rows())
    }

    constructor ()
      ensures Valid() && Rows() == Tables(map[], map[], None, 1, 1)
    {
      runs, commands, configuredKey := map[], map[], None;
      nextRun, nextCommand := 1, 1;
    }

    // ----- building blocks ------------------------------------------------------------------------------

    method AddCommand(kind: CommandKind, run: Option<RunId>, now: Time)
      modifies `commands, `nextCommand
      ensures Rows() == CreateCommand(old(Rows()), kind, run, now)
    {
      commands := commands[nextCommand := NodeCommand(kind, CommandPending, run, now + Lifetime(kind), [])];
      nextCommand := nextCommand + 1;
    }

    /** State and activity of a run change in one update. */
    method Move(r: RunId, state: RunState, lastError: Option<CommandId>)
      requires r in runs
      modifies `runs
      ensures Rows() == UpdateRun(old(Rows()), r, Moved(old(runs)[r], state).(lastError := lastError))
    {
      var run := runs[r].(state := state);
      run := run.(isActive := !IsFinal(state));
      runs := runs[r := run.(lastError := lastError)];
    }

    method CancelPendingCommands(r: RunId)
      modifies `commands
      ensures Rows() == CancelPending(old(Rows()), r)
    {
      var t := Rows();
      var all := set c | c in commands && commands[c].run == Some(r) && commands[c].state.CommandPending?;
      var left := all;
      while left != {}
        invariant left <= all && forall c :: c in commands <==> c in t.commands
        invariant forall c | c in t.commands ::
          commands[c] == (if c in all && c !in left then t.commands[c].(state := CommandCancelled) else t.commands[c])
        decreases |left|
      {
        var c :| c in left;
        commands := commands[c := commands[c].(state := CommandCancelled)];
        left := left - {c};
      }
      CancelledAre(t, r, commands);
    }

    /**
     The run of a command that ended without success moves back, unless it moved on already; a
     second time changes nothing.
     */
    method MoveBack(c: CommandId, now: Time)
      requires c in commands && forall d | d in commands :: d < nextCommand
      modifies this
      ensures Rows() == FallBack(old(Rows()), c, now) && c in commands
      ensures forall later :: FallBack(Rows(), c, later) == Rows()
    {
      var command := commands[c];
      forall later ensures c in FallBack(old(Rows()), c, now).commands
        && FallBack(FallBack(old(Rows()), c, now), c, later) == FallBack(old(Rows()), c, now)
      {
        FallBackIsIdempotent(old(Rows()), c, now, later);
      }
      if command.run.None? || command.run.value !in runs || HasNewerCommand(Rows(), command.run.value, c) {
        return;
      }
      var r := command.run.value;
      if command.kind.ReadNodeInformation? && runs[r].state.ReadingNode? {
        runs := runs[r := runs[r].(lastError := Some(c))];
      } else if command.kind.FactoryReset? && runs[r].state.Resetting? {
        if !ResetFrameNoted(command) {
          Move(r, AwaitingResetConfirmation, Some(c));
        } else {
          Move(r, ReadingNode, Some(c));
          AddCommand(ReadNodeInformation, Some(r), now);
        }
      } else if command.kind.ConfigureNode? && runs[r].state.Configuring? {
        Move(r, AwaitingConfiguration, Some(c));
      }
    }

    // ----- the operator ---------------------------------------------------------------------------------

    /** False when another run is active; either way exactly one is afterwards. */
    method Start(now: Time) returns (started: bool)
      requires Valid()
      modifies this
      ensures Valid() && Rows() == StartRun(old(Rows()), now)
      ensures AnyActive(Rows()) && (started <==> !AnyActive(old(Rows())))
      ensures !started ==> Rows() == old(Rows())
      ensures started ==>
        old(nextRun) !in old(runs) && HasRun(Rows(), old(nextRun), ReadingNode) && runs[old(nextRun)].isActive
      ensures started ==>
        Awaits(Rows(), old(nextRun), ReadNodeInformation) && OnlyRunChanges(old(Rows()), Rows(), old(nextRun))
    {
      started := !AnyActive(Rows());
      if started {
        StartedRun(Rows(), now);
        var r := nextRun;
        runs := runs[r := SetupRun(ReadingNode, true, None, None, None, false, None)];
        nextRun := nextRun + 1;
        AddCommand(ReadNodeInformation, Some(r), now);
        assert Rows() == StartRun(old(Rows()), now);
      }
    }

    /** The node is read again by one new command, the only one pending for the run. */
    method Retry(r: RunId, now: Time)
      requires Valid()
      modifies this
      ensures Valid() && Rows() == RetryReading(old(Rows()), r, now)
      ensures var may := HasRun(old(Rows()), r, ReadingNode) && !CommandRuns(old(Rows()), r);
        if !may then Rows() == old(Rows())
        else && HasRun(Rows(), r, ReadingNode) && runs[r].lastError.None? && OnlyRunChanges(old(Rows()), Rows(), r)
             && OnlyPending(Rows(), r, old(nextCommand)) && commands[old(nextCommand)].kind.ReadNodeInformation?
    {
      if HasRun(Rows(), r, ReadingNode) && !CommandRuns(Rows(), r) {
        RetriedRun(Rows(), r, now);
        CancelPendingCommands(r);
        runs := runs[r := runs[r].(lastError := None)];
        AddCommand(ReadNodeInformation, Some(r), now);
      }
    }

    /** Only a typed confirmation starts a reset, and a reset always has its command under way. */
    method Confirm(r: RunId, confirmed: bool, now: Time)
      requires Valid()
      modifies this
      ensures Valid() && Rows() == ConfirmReset(old(Rows()), r, confirmed, now)
      ensures HasRun(Rows(), r, Resetting) <==>
        HasRun(old(Rows()), r, Resetting) || (confirmed && HasRun(old(Rows()), r, AwaitingResetConfirmation))
      ensures Rows() != old(Rows()) ==> Awaits(Rows(), r, FactoryReset) && OnlyRunChanges(old(Rows()), Rows(), r)
    {
      if HasRun(Rows(), r, AwaitingResetConfirmation) && confirmed {
        ConfirmedRun(Rows(), r, now);
        Move(r, Resetting, None);
        AddCommand(FactoryReset, Some(r), now);
      }
    }

    /** A submitted configuration waits for the worker; a key the run began to restore stays noted. */
    method Submit(r: RunId, restore: bool, now: Time)
      requires Valid()
      modifies this
      ensures Valid() && Rows() == SubmitConfiguration(old(Rows()), r, restore, now)
      ensures HasRun(Rows(), r, Configuring) <==>
        HasRun(old(Rows()), r, Configuring) || HasRun(old(Rows()), r, AwaitingConfiguration)
      ensures Rows() != old(Rows()) ==>
        && Awaits(Rows(), r, ConfigureNode) && OnlyRunChanges(old(Rows()), Rows(), r)
        && r in old(runs) && r in runs && runs[r].restoreRequested == restore
          && runs[r].restoredKey == old(runs)[r].restoredKey
    {
      if HasRun(Rows(), r, AwaitingConfiguration) {
        SubmittedRun(Rows(), r, restore, now);
        runs := runs[r := runs[r].(restoreRequested := restore)];
        Move(r, Configuring, None);
        AddCommand(ConfigureNode, Some(r), now);
        assert Rows().runs == SubmitConfiguration(old(Rows()), r, restore, now).runs;
      }
    }

    /** The operator may start over at once, but nothing relays on a key the abandoned run began to restore. */
    method Cancel(r: RunId)
      requires Valid()
      modifies this
      ensures Valid() && Rows() == CancelRun(old(Rows()), r)
      ensures var may := r in old(runs) && IsCancellable(old(runs)[r].state);
        if !may then Rows() == old(Rows())
        else && !AnyActive(Rows()) && HasRun(Rows(), r, RunAbandoned) && OnlyRunChanges(old(Rows()), Rows(), r)
             && (forall c | BelongsTo(Rows(), c, r) :: !IsPending(Rows(), c))
             && runs[r].restoredKey == old(runs)[r].restoredKey
             && (runs[r].restoredKey.Some? ==> NeverRelays(Rows(), runs[r].restoredKey.value))
    {
      if r in runs && IsCancellable(runs[r].state) {
        CancelledRun(Rows(), r);
        CancelPendingCommands(r);
        Move(r, RunAbandoned, runs[r].lastError);
      }
    }

    // ----- the worker's records -----------------------------------------------------------------------------

    /** Afterwards the operator can act: on a configuration exactly when the key changed since the first read. */
    method NoteRead(r: RunId, key: Key)
      requires Valid()
      modifies `runs
      ensures Valid() && Rows() == RecordRead(old(Rows()), r, key) && OnlyRunChanges(old(Rows()), Rows(), r)
      ensures !HasRun(old(Rows()), r, ReadingNode) ==> Rows() == old(Rows())
      ensures HasRun(old(Rows()), r, ReadingNode) ==>
        var before := old(runs)[r].originalKey;
        && r in runs && IsCancellable(runs[r].state)
        && (HasRun(Rows(), r, AwaitingConfiguration) <==> before.Some? && before != Some(key))
        && (HasRun(Rows(), r, AwaitingConfiguration) ==> runs[r].newKey == Some(key) && runs[r].originalKey == before)
        && (!HasRun(Rows(), r, AwaitingConfiguration) ==> runs[r].originalKey == Some(key))
    {
      if HasRun(Rows(), r, ReadingNode) {
        ReadRun(Rows(), r, key);
        if runs[r].originalKey.Some? && runs[r].originalKey.value != key {
          runs := runs[r := runs[r].(newKey := Some(key))];
          Move(r, AwaitingConfiguration, None);
          assert runs == RecordRead(old(Rows()), r, key).runs;
        } else {
          runs := runs[r := runs[r].(originalKey := Some(key))];
          Move(r, AwaitingResetConfirmation, None);
          assert runs == RecordRead(old(Rows()), r, key).runs;
        }
      }
    }

    /** A reset is over exactly when the node came back with another key. */
    method NoteReset(r: RunId, key: Key)
      requires Valid()
      modifies `runs
      ensures Valid() && Rows() == RecordResetSucceeded(old(Rows()), r, key) && OnlyRunChanges(old(Rows()), Rows(), r)
      ensures HasRun(old(Rows()), r, Resetting) ==>
        && (HasRun(Rows(), r, AwaitingConfiguration) <==> old(runs)[r].originalKey != Some(key))
        && (HasRun(Rows(), r, AwaitingConfiguration) ==>
          runs[r].newKey == Some(key) && runs[r].newKey != runs[r].originalKey)
        && (HasRun(Rows(), r, Resetting) <==> old(runs)[r].originalKey == Some(key))
      ensures !HasRun(old(Rows()), r, Resetting) ==> Rows() == old(Rows())
    {
      if HasRun(Rows(), r, Resetting) {
        ResetRun(Rows(), r, key);
        if runs[r].originalKey != Some(key) {
          runs := runs[r := runs[r].(newKey := Some(key))];
          Move(r, AwaitingConfiguration, None);
          assert runs == RecordResetSucceeded(old(Rows()), r, key).runs;
        }
      }
    }

    /** From the note on, which precedes the import, nothing relays on the key. */
    method NoteRestore(r: RunId, key: Key)
      requires Valid()
      modifies `runs
      ensures Valid() && Rows() == RecordRestoreStarted(old(Rows()), r, key) && OnlyRunChanges(old(Rows()), Rows(), r)
      ensures HasRun(old(Rows()), r, Configuring) ==>
        HasRun(Rows(), r, Configuring) && runs[r].restoredKey == Some(key) && NeverRelays(Rows(), key)
      ensures !HasRun(old(Rows()), r, Configuring) ==> Rows() == old(Rows())
    {
      if HasRun(Rows(), r, Configuring) {
        RestoredRun(Rows(), r, key);
        runs := runs[r := runs[r].(restoredKey := Some(key))];
      }
    }

    /** No run is active any more, and the relay runs on the key at once. */
    method NoteCompleted(r: RunId, key: Key)
      requires Valid()
      modifies `runs, `configuredKey
      ensures Valid() && Rows() == RecordCompleted(old(Rows()), r, key)
      ensures HasRun(old(Rows()), r, Configuring) ==>
        HasRun(Rows(), r, RunCompleted) && !AnyActive(Rows()) && RelayModeFor(Rows(), Some(key)).RelayRunning?
      ensures !HasRun(old(Rows()), r, Configuring) ==> Rows() == old(Rows())
    {
      RecordCompletedKeepsCoherence(Rows(), r, key);
      if HasRun(Rows(), r, Configuring) {
        CompletedRelays(Rows(), r, key);
        configuredKey := Some(key);
        Move(r, RunCompleted, None);
      }
    }

    // ----- the queue ------------------------------------------------------------------------------------------

    /** Pending commands past their time, as the query lists them, expire one by one, each moving its run back. */
    method ExpirePending(ids: seq<CommandId>, now: Time)
      requires Valid() && forall c | IsExpired(Rows(), c, now) :: c in ids
      modifies this
      ensures Valid() && Rows() == ExpireEach(old(Rows()), ids, now)
      ensures forall c :: !IsExpired(Rows(), c, now)
    {
      ghost var t := Rows();
      var i := 0;
      while i < |ids|
        invariant i <= |ids| && Valid()
        invariant ExpireEach(t, ids, now) == ExpireEach(Rows(), ids[i..], now)
      {
        assert ids[i..][1..] == ids[i + 1..];
        var c := ids[i];
        ExpireOneKeepsCoherence(Rows(), c, now);
        if c in commands && commands[c].state.CommandPending? && commands[c].expiresAt <= now {
          IdsAreBelow(Rows());
          commands := commands[c := commands[c].(state := CommandExpired)];
          MoveBack(c, now);
        }
        i := i + 1;
      }
      forall c ensures !IsExpired(Rows(), c, now) {
        ExpireLeavesNone(t, ids, now, c);
      }
    }

    /** The oldest pending command, found by looking at every command. */
    method FindOldestPending() returns (r: Option<CommandId>)
      ensures r.Some? ==>
        IsPending(Rows(), r.value) && forall d | d in commands && commands[d].state.CommandPending? :: r.value <= d
      ensures r.None? ==> forall d | d in commands :: !commands[d].state.CommandPending?
    {
      r := None;
      var left := commands.Keys;
      while left != {}
        invariant left <= commands.Keys
        invariant r.None? ==> forall d | d in commands && d !in left :: !commands[d].state.CommandPending?
        invariant r.Some? ==> IsPending(Rows(), r.value)
        invariant r.Some? ==>
          forall d | d in commands && d !in left && commands[d].state.CommandPending? :: r.value <= d
        decreases |left|
      {
        var c :| c in left;
        left := left - {c};
        if commands[c].state.CommandPending? && (r.None? || c < r.value) {
          r := Some(c);
        }
      }
    }

    /** Expires, then claims the oldest pending command, in time, unless another one runs. */
    method Claim(ids: seq<CommandId>, now: Time) returns (claimed: Option<CommandId>)
      requires Valid() && forall c | IsExpired(Rows(), c, now) :: c in ids
      modifies this
      ensures Valid()
      ensures claimed.None? ==> Rows() == ExpireEach(old(Rows()), ids, now)
      ensures claimed.None? ==> AnyRunning(Rows()) || forall d | d in commands :: !commands[d].state.CommandPending?
      ensures claimed.Some? ==>
        var t := ExpireEach(old(Rows()), ids, now);
        && Rows() == ClaimOne(t, claimed.value)
        && !AnyRunning(t) && IsPending(t, claimed.value) && now < t.commands[claimed.value].expiresAt
        && (forall d | d in t.commands && t.commands[d].state.CommandPending? :: claimed.value <= d)
      ensures claimed.Some? ==>
        IsRunning(Rows(), claimed.value) && forall d | IsRunning(Rows(), d) :: d == claimed.value
    {
      ExpirePending(ids, now);
      claimed := FindOldestPending();
      if claimed.Some? {
        if AnyRunning(Rows()) {
          return None;
        }
        ClaimedCommand(Rows(), claimed.value);
        assert !IsExpired(Rows(), claimed.value, now);
        commands := commands[claimed.value := commands[claimed.value].(state := CommandRunning)];
      }
    }

    method NoteProgress(c: CommandId, step: ProgressStep)
      requires Valid()
      modifies `commands
      ensures Valid() && Rows() == RecordProgress(old(Rows()), c, step)
    {
      ProgressKeepsCoherence(Rows(), c, step);
      if c in commands {
        var updated := RebuildProgress(commands[c].progress, step);
        commands := commands[c := commands[c].(progress := updated)];
      }
    }

    /**
     Ends a running command once. Nothing runs afterwards, and the run of a command that ended
     without success is back where the operator can act, unless it moved on. A command may
     succeed only once nobody waits for it any more.
     */
    method Finish(c: CommandId, state: CommandState, now: Time) returns (finished: bool)
      requires Valid()
      modifies this
      ensures Rows() == FinishCommand(old(Rows()), c, state, now)
      ensures IsUnsuccessful(state) || NotAwaited(old(Rows()), c) ==> Valid()
      ensures finished <==> IsRunning(old(Rows()), c) && IsTerminal(state)
      ensures if finished then !AnyRunning(Rows()) else Rows() == old(Rows())
      ensures finished && IsUnsuccessful(state) && old(commands)[c].run.Some? ==>
        var r := old(commands)[c].run.value;
        r in old(runs) && old(runs)[r].isActive && !HasNewerCommand(old(Rows()), r, c) ==>
          r in runs && runs[r].isActive && IsCancellable(runs[r].state)
    {
      finished := IsRunning(Rows(), c) && IsTerminal(state);
      if IsUnsuccessful(state) || NotAwaited(Rows(), c) {
        FinishKeepsCoherence(Rows(), c, state, now);
      }
      if finished {
        FinishedCommand(Rows(), c, state, now);
        if IsUnsuccessful(state) && commands[c].run.Some? {
          FinishedRun(Rows(), c, state, now);
        }
        IdsAreBelow(Rows());
        commands := commands[c := commands[c].(state := state)];
        if IsUnsuccessful(state) {
          MoveBack(c, now);
        }
      }
    }

    /** At start-up every command still running, as the query lists them, is interrupted; none runs afterwards. */
    method InterruptRunning(ids: seq<CommandId>, now: Time)
      requires Valid() && forall c | IsRunning(Rows(), c) :: c in ids
      modifies this
      ensures Valid() && Rows() == InterruptEach(old(Rows()), ids, now)
      ensures !AnyRunning(Rows())
    {
      ghost var t := Rows();
      var i := 0;
      while i < |ids|
        invariant i <= |ids| && Valid()
        invariant InterruptEach(t, ids, now) == InterruptEach(Rows(), ids[i..], now)
      {
        assert ids[i..][1..] == ids[i + 1..];
        var _ := Finish(ids[i], CommandInterrupted, now);
        i := i + 1;
      }
      InterruptKeepsMarks(t, ids, now);
      NoneRuns(Rows());
    }
  }
}
