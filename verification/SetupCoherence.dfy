/** Runs and commands never disagree: what every transaction of the wizard and the queue keeps. */
module SetupCoherence {
  import opened Options
  import opened Times
  import opened SetupTables

  predicate IsOutstanding(c: NodeCommand) {
    c.state.CommandPending? || c.state.CommandRunning?
  }

  ghost predicate IsLatest(t: Tables, r: RunId, c: CommandId) {
    BelongsTo(t, c, r) && forall d: CommandId :: BelongsTo(t, d, r) ==> d <= c
  }

  /** An outstanding command of the run that resets or configures. */
  predicate Works(t: Tables, c: CommandId, r: RunId, kind: CommandKind) {
    BelongsTo(t, c, r) && t.commands[c].kind == kind && IsOutstanding(t.commands[c])
  }

  /**
   A run waiting for the worker has exactly its latest command outstanding, of the right kind;
   otherwise none works on it.
   */
  ghost predicate QueueOk(t: Tables, r: RunId)
    requires r in t.runs
  {
    match t.runs[r].state
    case Resetting =>
      exists c ::
        IsLatest(t, r, c) && Works(t, c, r, FactoryReset) && OnlyOne(t, r, c, FactoryReset)
          && NoneWorks(t, r, ConfigureNode)
    case Configuring =>
      exists c :: IsLatest(t, r, c) && Works(t, c, r, ConfigureNode) && OnlyOne(t, r, c, ConfigureNode)
    case ReadingNode => NoneWorks(t, r, FactoryReset) && NoneWorks(t, r, ConfigureNode)
    case AwaitingResetConfirmation => NoneWorks(t, r, FactoryReset) && NoneWorks(t, r, ConfigureNode)
    case AwaitingConfiguration => NoneWorks(t, r, ConfigureNode)
    case _ => true
  }

  ghost predicate OnlyOne(t: Tables, r: RunId, c: CommandId, kind: CommandKind) {
    forall d :: Works(t, d, r, kind) ==> d == c
  }

  ghost predicate NoneWorks(t: Tables, r: RunId, kind: CommandKind) {
    forall d :: !Works(t, d, r, kind)
  }

  /** A run is active exactly until its state is final, and the active run is the latest. */
  predicate RunOk(t: Tables, r: RunId)
    requires r in t.runs
  {
    && r < t.nextRun
    && (t.runs[r].isActive <==> !IsFinal(t.runs[r].state))
    && (t.runs[r].isActive ==> forall q | q in t.runs :: q <= r)
  }

  predicate CommandOk(t: Tables, c: CommandId)
    requires c in t.commands
  {
    && c < t.nextCommand
    && (t.commands[c].run.Some? ==> t.commands[c].run.value in t.runs)
  }

  ghost predicate SingleRunning(t: Tables) {
    forall c, d | c in t.commands && d in t.commands && t.commands[c].state.CommandRunning?
      && t.commands[d].state.CommandRunning? :: c == d
  }

  ghost predicate Coherent(t: Tables) {
    && (forall r | r in t.runs :: RunOk(t, r) && QueueOk(t, r))
    && (forall c | c in t.commands :: CommandOk(t, c))
    && SingleRunning(t)
  }

  // ----- rows that do not matter to a run ----------------------------------------------------------------

  /** The commands of a run look the same in both tables. */
  ghost predicate SameCommands(t: Tables, u: Tables, r: RunId) {
    forall c :: (BelongsTo(t, c, r) <==> BelongsTo(u, c, r)) && (BelongsTo(t, c, r) ==> t.commands[c] == u.commands[c])
  }

  lemma SameCommandsKeepQueue(t: Tables, u: Tables, r: RunId)
    requires r in t.runs && r in u.runs && u.runs[r].state == t.runs[r].state && SameCommands(t, u, r) && QueueOk(t, r)
    ensures QueueOk(u, r)
  {
    assert forall c, kind :: Works(t, c, r, kind) <==> Works(u, c, r, kind);
    match t.runs[r].state {
      case Resetting =>
        var c :| IsLatest(t, r, c) && Works(t, c, r, FactoryReset) && OnlyOne(t, r, c, FactoryReset)
          && NoneWorks(t, r, ConfigureNode);
        assert IsLatest(u, r, c);
      case Configuring =>
        var c :| IsLatest(t, r, c) && Works(t, c, r, ConfigureNode) && OnlyOne(t, r, c, ConfigureNode);
        assert IsLatest(u, r, c);
      case _ =>
    }
  }

  /** A change to one run and to its own commands leaves every other run's queue alone. */
  lemma OtherQueues(t: Tables, u: Tables, r: RunId)
    requires Coherent(t)
    requires u.runs.Keys == t.runs.Keys && forall q | q in t.runs && q != r :: u.runs[q] == t.runs[q]
    requires forall q | q != r :: SameCommands(t, u, q)
    ensures forall q | q in u.runs && q != r :: QueueOk(u, q)
  {
    forall q | q in u.runs && q != r ensures QueueOk(u, q) {
      SameCommandsKeepQueue(t, u, q);
    }
  }

  /** The run's record keeps its place when its state and activity change together and stay, or end. */
  lemma RunsStayOk(t: Tables, u: Tables, r: RunId)
    requires forall q | q in t.runs :: RunOk(t, q)
    requires r in t.runs && t.runs[r].isActive && u.runs.Keys == t.runs.Keys && u.nextRun == t.nextRun
    requires forall q | q in t.runs && q != r :: u.runs[q] == t.runs[q]
    requires u.runs[r].isActive <==> !IsFinal(u.runs[r].state)
    ensures forall q | q in u.runs :: RunOk(u, q)
  {
    forall q | q in u.runs ensures RunOk(u, q) {
      assert RunOk(t, q);
      assert RunOk(t, r);
      assert forall x :: x in u.runs <==> x in t.runs;
    }
  }

  /** One active run changes, together with its own commands. */
  ghost predicate OneRunChanges(t: Tables, u: Tables, r: RunId) {
    && r in t.runs && t.runs[r].isActive
    && u.runs.Keys == t.runs.Keys && u.nextRun == t.nextRun && t.nextCommand <= u.nextCommand
    && (forall q | q in t.runs && q != r :: u.runs[q] == t.runs[q])
    && (u.runs[r].isActive <==> !IsFinal(u.runs[r].state))
    && (forall q | q != r :: SameCommands(t, u, q))
    && (forall c | c in u.commands ::
          || (c in t.commands && u.commands[c].run == t.commands[c].run && u.commands[c].kind == t.commands[c].kind)
          || (c == t.nextCommand < u.nextCommand && u.commands[c].run == Some(r)))
    && (forall c | c in t.commands :: c in u.commands)
    && (forall c | c in u.commands && u.commands[c].state.CommandRunning? ::
      c in t.commands && t.commands[c].state.CommandRunning?)
  }

  lemma OneRunKeepsCoherence(t: Tables, u: Tables, r: RunId)
    requires Coherent(t) && OneRunChanges(t, u, r) && QueueOk(u, r)
    ensures Coherent(u)
  {
    RunsStayOk(t, u, r);
    OtherQueues(t, u, r);
    forall c | c in u.commands ensures CommandOk(u, c) {
      if c in t.commands {
        assert CommandOk(t, c);
      }
    }
  }

  /** The new command is the run's latest. */
  lemma CreatedIsLatest(t: Tables, kind: CommandKind, r: RunId, now: Time)
    requires forall c | c in t.commands :: CommandOk(t, c)
    ensures var u := CreateCommand(t, kind, Some(r), now);
      && IsLatest(u, r, t.nextCommand) && Works(u, t.nextCommand, r, kind)
      && (forall d, k :: Works(u, d, r, k) <==> Works(t, d, r, k) || (d == t.nextCommand && k == kind))
  {
    var u := CreateCommand(t, kind, Some(r), now);
    forall d: CommandId | BelongsTo(u, d, r) ensures d <= t.nextCommand {
      if d in t.commands {
        assert CommandOk(t, d);
      }
    }
  }

  lemma NextIsFree(t: Tables)
    requires forall c | c in t.commands :: CommandOk(t, c)
    ensures t.nextCommand !in t.commands
  {
    assert t.nextCommand in t.commands ==> CommandOk(t, t.nextCommand);
  }

  // ----- the operator -----------------------------------------------------------------------------------------

  lemma StartKeepsCoherence(t: Tables, now: Time)
    requires Coherent(t)
    ensures Coherent(StartRun(t, now))
  {
    if !AnyActive(t) {
      var u := StartRun(t, now);
      var r := t.nextRun;
      NextIsFree(t);
      forall q | q in u.runs ensures RunOk(u, q) && QueueOk(u, q) {
        if q != r {
          assert RunOk(t, q) && QueueOk(t, q);
          assert !t.runs[q].isActive;
        } else {
          forall c, kind | kind != ReadNodeInformation ensures !Works(u, c, r, kind) {
            assert c in t.commands ==> CommandOk(t, c);
            assert forall x | x in t.runs :: RunOk(t, x);
          }
          assert forall x | x in t.runs :: RunOk(t, x);
        }
      }
      forall c | c in u.commands ensures CommandOk(u, c) {
        assert c in t.commands ==> CommandOk(t, c);
      }
    }
  }

  lemma CancelPendingWorks(t: Tables, r: RunId, c: CommandId, q: RunId, kind: CommandKind)
    ensures Works(CancelPending(t, r), c, q, kind) ==> Works(t, c, q, kind)
    ensures q != r ==> (Works(CancelPending(t, r), c, q, kind) <==> Works(t, c, q, kind))
  {
  }

  lemma CancelPendingKeepsCoherence(t: Tables, r: RunId)
    requires Coherent(t) && HasRun(t, r, ReadingNode)
    ensures Coherent(CancelPending(t, r)) && HasRun(CancelPending(t, r), r, ReadingNode)
  {
    assert RunOk(t, r) && QueueOk(t, r);
    forall c ensures !Works(CancelPending(t, r), c, r, FactoryReset)
      && !Works(CancelPending(t, r), c, r, ConfigureNode) {
      CancelPendingWorks(t, r, c, r, FactoryReset);
      CancelPendingWorks(t, r, c, r, ConfigureNode);
    }
    OneRunKeepsCoherence(t, CancelPending(t, r), r);
  }

  /** The node is read (again). */
  lemma ReadAgainKeepsCoherence(t: Tables, r: RunId, run: SetupRun, now: Time)
    requires Coherent(t) && r in t.runs && t.runs[r].isActive && run.isActive && run.state.ReadingNode?
    requires NoneWorks(t, r, FactoryReset) && NoneWorks(t, r, ConfigureNode)
    ensures Coherent(CreateCommand(UpdateRun(t, r, run), ReadNodeInformation, Some(r), now))
  {
    var t1 := UpdateRun(t, r, run);
    var u := CreateCommand(t1, ReadNodeInformation, Some(r), now);
    NextIsFree(t);
    forall c | c in t1.commands ensures CommandOk(t1, c) {
      assert CommandOk(t, c);
    }
    CreatedIsLatest(t1, ReadNodeInformation, r, now);
    forall d, k ensures Works(t1, d, r, k) <==> Works(t, d, r, k) {
    }
    OneRunKeepsCoherence(t, u, r);
  }

  lemma RetryKeepsCoherence(t: Tables, r: RunId, now: Time)
    requires Coherent(t)
    ensures Coherent(RetryReading(t, r, now))
  {
    if HasRun(t, r, ReadingNode) && !CommandRuns(t, r) {
      var t1 := CancelPending(t, r);
      CancelPendingKeepsCoherence(t, r);
      assert RunOk(t1, r) && QueueOk(t1, r);
      ReadAgainKeepsCoherence(t1, r, t1.runs[r].(lastError := None), now);
    }
  }

  /** Entering a worker state with the command that does the work. */
  lemma EnterKeepsCoherence(t: Tables, r: RunId, run: SetupRun, kind: CommandKind, now: Time)
    requires Coherent(t) && r in t.runs && t.runs[r].isActive
    requires (kind == FactoryReset && run.state.Resetting? && NoneWorks(t, r, FactoryReset)
      && NoneWorks(t, r, ConfigureNode))
      || (kind == ConfigureNode && run.state.Configuring? && NoneWorks(t, r, ConfigureNode))
    requires run.isActive
    ensures Coherent(CreateCommand(UpdateRun(t, r, run), kind, Some(r), now))
  {
    var t1 := UpdateRun(t, r, run);
    var u := CreateCommand(t1, kind, Some(r), now);
    NextIsFree(t);
    forall c | c in t1.commands ensures CommandOk(t1, c) {
      assert CommandOk(t, c);
    }
    CreatedIsLatest(t1, kind, r, now);
    forall d, k ensures Works(t1, d, r, k) <==> Works(t, d, r, k) {
    }
    assert OnlyOne(u, r, t.nextCommand, kind);
    OneRunKeepsCoherence(t, u, r);
  }

  lemma ConfirmKeepsCoherence(t: Tables, r: RunId, confirmed: bool, now: Time)
    requires Coherent(t)
    ensures Coherent(ConfirmReset(t, r, confirmed, now))
  {
    if HasRun(t, r, AwaitingResetConfirmation) && confirmed {
      assert RunOk(t, r) && QueueOk(t, r);
      EnterKeepsCoherence(t, r, Moved(t.runs[r], Resetting).(lastError := None), FactoryReset, now);
    }
  }

  lemma SubmitKeepsCoherence(t: Tables, r: RunId, restore: bool, now: Time)
    requires Coherent(t)
    ensures Coherent(SubmitConfiguration(t, r, restore, now))
  {
    if HasRun(t, r, AwaitingConfiguration) {
      assert RunOk(t, r) && QueueOk(t, r);
      EnterKeepsCoherence(t, r, Moved(t.runs[r], Configuring).(restoreRequested := restore, lastError := None),
        ConfigureNode, now);
    }
  }

  lemma CancelKeepsCoherence(t: Tables, r: RunId)
    requires Coherent(t)
    ensures Coherent(CancelRun(t, r))
  {
    if r in t.runs && IsCancellable(t.runs[r].state) {
      assert RunOk(t, r);
      OneRunKeepsCoherence(t, CancelRun(t, r), r);
    }
  }

  // ----- the worker's records ---------------------------------------------------------------------------------

  lemma RecordReadKeepsCoherence(t: Tables, r: RunId, key: Key)
    requires Coherent(t)
    ensures Coherent(RecordRead(t, r, key))
  {
    if HasRun(t, r, ReadingNode) {
      var u := RecordRead(t, r, key);
      assert RunOk(t, r) && QueueOk(t, r);
      forall d, k ensures Works(u, d, r, k) <==> Works(t, d, r, k) {
      }
      OneRunKeepsCoherence(t, u, r);
    }
  }

  lemma RecordResetKeepsCoherence(t: Tables, r: RunId, key: Key)
    requires Coherent(t)
    ensures Coherent(RecordResetSucceeded(t, r, key))
  {
    if HasRun(t, r, Resetting) && t.runs[r].originalKey != Some(key) {
      var u := RecordResetSucceeded(t, r, key);
      assert RunOk(t, r) && QueueOk(t, r);
      forall d ensures !Works(u, d, r, ConfigureNode) {
        assert !Works(t, d, r, ConfigureNode);
      }
      OneRunKeepsCoherence(t, u, r);
    }
  }

  lemma RecordRestoreKeepsCoherence(t: Tables, r: RunId, key: Key)
    requires Coherent(t)
    ensures Coherent(RecordRestoreStarted(t, r, key))
  {
    if HasRun(t, r, Configuring) {
      var u := RecordRestoreStarted(t, r, key);
      assert RunOk(t, r) && QueueOk(t, r);
      SameCommandsKeepQueue(t, u, r);
      OneRunKeepsCoherence(t, u, r);
    }
  }

  lemma RecordCompletedKeepsCoherence(t: Tables, r: RunId, key: Key)
    requires Coherent(t)
    ensures Coherent(RecordCompleted(t, r, key))
  {
    if HasRun(t, r, Configuring) {
      assert RunOk(t, r);
      OneRunKeepsCoherence(t, RecordCompleted(t, r, key), r);
    }
  }

  // ----- the queue ----------------------------------------------------------------------------------------------

  /** The command no longer keeps its run waiting. */
  predicate NotAwaited(t: Tables, c: CommandId) {
    c in t.commands && t.commands[c].run.Some? && t.commands[c].run.value in t.runs ==>
      var state := t.runs[t.commands[c].run.value].state;
      !(t.commands[c].kind.FactoryReset? && state.Resetting?)
        && !(t.commands[c].kind.ConfigureNode? && state.Configuring?)
  }

  lemma EndedWorks(t: Tables, c: CommandId, ended: CommandState, d: CommandId, r: RunId, kind: CommandKind)
    requires c in t.commands && !ended.CommandPending? && !ended.CommandRunning?
    ensures Works(SetCommandState(t, c, ended), d, r, kind) <==> Works(t, d, r, kind) && d != c
    ensures BelongsTo(SetCommandState(t, c, ended), d, r) <==> BelongsTo(t, d, r)
  {
  }

  lemma EndKeepsQueue(t: Tables, c: CommandId, ended: CommandState, r: RunId)
    requires Coherent(t) && c in t.commands && !ended.CommandPending? && !ended.CommandRunning? && r in t.runs
    requires NotAwaited(t, c) || t.commands[c].run != Some(r) || HasNewerCommand(t, r, c)
    ensures QueueOk(SetCommandState(t, c, ended), r)
  {
    var u := SetCommandState(t, c, ended);
    assert QueueOk(t, r);
    forall d, kind ensures Works(u, d, r, kind) <==> Works(t, d, r, kind) && d != c {
      EndedWorks(t, c, ended, d, r, kind);
    }
    forall d ensures BelongsTo(u, d, r) <==> BelongsTo(t, d, r) {
    }
    match t.runs[r].state {
      case Resetting =>
        var l :| IsLatest(t, r, l) && Works(t, l, r, FactoryReset) && OnlyOne(t, r, l, FactoryReset)
          && NoneWorks(t, r, ConfigureNode);
        assert l != c;
        assert IsLatest(u, r, l) && Works(u, l, r, FactoryReset) && OnlyOne(u, r, l, FactoryReset)
          && NoneWorks(u, r, ConfigureNode);
      case Configuring =>
        var l :| IsLatest(t, r, l) && Works(t, l, r, ConfigureNode) && OnlyOne(t, r, l, ConfigureNode);
        assert l != c;
        assert IsLatest(u, r, l) && Works(u, l, r, ConfigureNode) && OnlyOne(u, r, l, ConfigureNode);
      case _ =>
    }
  }

  /** Ending a command nobody waits for. */
  lemma EndKeepsCoherence(t: Tables, c: CommandId, ended: CommandState)
    requires Coherent(t) && c in t.commands && !ended.CommandPending? && !ended.CommandRunning?
    requires NotAwaited(t, c) || (t.commands[c].run.Some? && HasNewerCommand(t, t.commands[c].run.value, c))
    ensures Coherent(SetCommandState(t, c, ended))
  {
    var u := SetCommandState(t, c, ended);
    forall r | r in u.runs ensures RunOk(u, r) && QueueOk(u, r) {
      assert RunOk(t, r);
      EndKeepsQueue(t, c, ended, r);
    }
    forall d | d in u.commands ensures CommandOk(u, d) {
      assert CommandOk(t, d);
    }
  }

  lemma ClaimKeepsCoherence(t: Tables, c: CommandId)
    requires Coherent(t)
    ensures Coherent(ClaimOne(t, c))
  {
    if IsPending(t, c) && !AnyRunning(t) {
      var u := ClaimOne(t, c);
      forall r | r in u.runs ensures RunOk(u, r) && QueueOk(u, r) {
        assert RunOk(t, r) && QueueOk(t, r);
        RelabelKeepsQueue(t, u, r);
      }
      forall d | d in u.commands ensures CommandOk(u, d) {
        assert CommandOk(t, d);
      }
    }
  }

  /** Commands that keep their run, kind and being outstanding keep the queue. */
  lemma RelabelKeepsQueue(t: Tables, u: Tables, r: RunId)
    requires r in t.runs && r in u.runs && u.runs[r].state == t.runs[r].state && QueueOk(t, r)
    requires forall c, kind :: Works(t, c, r, kind) <==> Works(u, c, r, kind)
    requires forall c :: BelongsTo(t, c, r) <==> BelongsTo(u, c, r)
    ensures QueueOk(u, r)
  {
    match t.runs[r].state {
      case Resetting =>
        var c :| IsLatest(t, r, c) && Works(t, c, r, FactoryReset) && OnlyOne(t, r, c, FactoryReset)
          && NoneWorks(t, r, ConfigureNode);
        assert IsLatest(u, r, c);
      case Configuring =>
        var c :| IsLatest(t, r, c) && Works(t, c, r, ConfigureNode) && OnlyOne(t, r, c, ConfigureNode);
        assert IsLatest(u, r, c);
      case _ =>
    }
  }

  lemma ProgressKeepsCoherence(t: Tables, c: CommandId, step: ProgressStep)
    requires Coherent(t)
    ensures Coherent(RecordProgress(t, c, step))
  {
    var u := RecordProgress(t, c, step);
    forall r | r in u.runs ensures RunOk(u, r) && QueueOk(u, r) {
      assert RunOk(t, r) && QueueOk(t, r);
      RelabelKeepsQueue(t, u, r);
    }
    forall d | d in u.commands ensures CommandOk(u, d) {
      assert CommandOk(t, d);
    }
  }

  lemma OtherCommandKeepsCoherence(t: Tables, isShort: bool, now: Time)
    requires Coherent(t)
    ensures Coherent(CreateCommand(t, OtherCommand(isShort), None, now))
  {
    var u := CreateCommand(t, OtherCommand(isShort), None, now);
    NextIsFree(t);
    forall r | r in u.runs ensures RunOk(u, r) && QueueOk(u, r) {
      assert RunOk(t, r) && QueueOk(t, r);
      RelabelKeepsQueue(t, u, r);
    }
    forall d | d in u.commands ensures CommandOk(u, d) {
      assert d in t.commands ==> CommandOk(t, d);
    }
  }

  /** A command ends and its run moves. */
  lemma EndAndMove(t: Tables, c: CommandId, ended: CommandState, r: RunId, run: SetupRun)
    requires Coherent(t) && c in t.commands && r in t.runs && t.runs[r].isActive && t.commands[c].run == Some(r)
    requires IsUnsuccessful(ended) && run.isActive && !IsFinal(run.state)
    ensures var u := UpdateRun(SetCommandState(t, c, ended), r, run);
      OneRunChanges(t, u, r) && (forall d, kind :: Works(u, d, r, kind) <==> Works(t, d, r, kind) && d != c)
  {
    var u := UpdateRun(SetCommandState(t, c, ended), r, run);
    forall d, kind ensures Works(u, d, r, kind) <==> Works(t, d, r, kind) && d != c {
      EndedWorks(t, c, ended, d, r, kind);
    }
  }

  lemma FallBackMoves(t: Tables, c: CommandId, ended: CommandState, r: RunId, run: SetupRun)
    requires Coherent(t) && c in t.commands && r in t.runs && t.runs[r].isActive && t.commands[c].run == Some(r)
    requires IsUnsuccessful(ended) && run.isActive && IsCancellable(run.state)
    requires forall d :: Works(t, d, r, ConfigureNode) ==> d == c
    requires !run.state.AwaitingConfiguration? ==> forall d :: Works(t, d, r, FactoryReset) ==> d == c
    ensures Coherent(UpdateRun(SetCommandState(t, c, ended), r, run))
    ensures !run.state.AwaitingConfiguration? ==>
      NoneWorks(UpdateRun(SetCommandState(t, c, ended), r, run), r, FactoryReset)
    ensures NoneWorks(UpdateRun(SetCommandState(t, c, ended), r, run), r, ConfigureNode)
  {
    EndAndMove(t, c, ended, r, run);
    OneRunKeepsCoherence(t, UpdateRun(SetCommandState(t, c, ended), r, run), r);
  }

  lemma NoneIsNewer(t: Tables, c: CommandId, ended: CommandState, r: RunId)
    requires c in t.commands
    ensures HasNewerCommand(SetCommandState(t, c, ended), r, c) <==> HasNewerCommand(t, r, c)
  {
    var u := SetCommandState(t, c, ended);
    assert forall d :: BelongsTo(u, d, r) <==> BelongsTo(t, d, r);
    if d :| d in t.commands && BelongsTo(t, d, r) && d > c {
      assert d in u.commands && BelongsTo(u, d, r);
    }
  }

  /** The reset ended without success: back to the confirmation, or to reading the node if the frame may be out. */
  lemma ResetFallsBack(t: Tables, c: CommandId, ended: CommandState, r: RunId, now: Time)
    requires Coherent(t) && c in t.commands && IsOutstanding(t.commands[c]) && IsUnsuccessful(ended)
    requires t.commands[c].run == Some(r) && !HasNewerCommand(t, r, c) && t.commands[c].kind.FactoryReset?
      && HasRun(t, r, Resetting)
    ensures Coherent(FallBack(SetCommandState(t, c, ended), c, now))
  {
    var t1 := SetCommandState(t, c, ended);
    NoneIsNewer(t, c, ended, r);
    assert RunOk(t, r) && QueueOk(t, r);
    assert Works(t, c, r, FactoryReset);
    var back := if ResetFrameNoted(t.commands[c]) then ReadingNode else AwaitingResetConfirmation;
    var run := Moved(t.runs[r], back).(lastError := Some(c));
    FallBackMoves(t, c, ended, r, run);
    if ResetFrameNoted(t.commands[c]) {
      var t2 := UpdateRun(t1, r, run);
      ReadAgainKeepsCoherence(t2, r, run, now);
      assert UpdateRun(t2, r, run) == t2;
    }
  }

  lemma ConfigurationFallsBack(t: Tables, c: CommandId, ended: CommandState, r: RunId, now: Time)
    requires Coherent(t) && c in t.commands && IsOutstanding(t.commands[c]) && IsUnsuccessful(ended)
    requires t.commands[c].run == Some(r) && !HasNewerCommand(t, r, c) && t.commands[c].kind.ConfigureNode?
      && HasRun(t, r, Configuring)
    ensures Coherent(FallBack(SetCommandState(t, c, ended), c, now))
  {
    NoneIsNewer(t, c, ended, r);
    assert RunOk(t, r) && QueueOk(t, r);
    assert Works(t, c, r, ConfigureNode);
    FallBackMoves(t, c, ended, r, Moved(t.runs[r], AwaitingConfiguration).(lastError := Some(c)));
  }

  lemma ReadFailureKeepsCoherence(t: Tables, c: CommandId, r: RunId)
    requires Coherent(t) && HasRun(t, r, ReadingNode)
    ensures Coherent(UpdateRun(t, r, t.runs[r].(lastError := Some(c))))
  {
    var u := UpdateRun(t, r, t.runs[r].(lastError := Some(c)));
    assert RunOk(t, r) && QueueOk(t, r);
    SameCommandsKeepQueue(t, u, r);
    OneRunKeepsCoherence(t, u, r);
  }

  /** However a command ends without success, run and command agree again. */
  lemma EndingKeepsCoherence(t: Tables, c: CommandId, ended: CommandState, now: Time)
    requires Coherent(t) && c in t.commands && IsOutstanding(t.commands[c]) && IsUnsuccessful(ended)
    ensures Coherent(FallBack(SetCommandState(t, c, ended), c, now))
  {
    var t1 := SetCommandState(t, c, ended);
    assert CommandOk(t, c);
    if t.commands[c].run.None? {
      EndKeepsCoherence(t, c, ended);
    } else {
      var r := t.commands[c].run.value;
      NoneIsNewer(t, c, ended, r);
      if HasNewerCommand(t, r, c) {
        EndKeepsCoherence(t, c, ended);
      } else if t.commands[c].kind.FactoryReset? && t.runs[r].state.Resetting? {
        ResetFallsBack(t, c, ended, r, now);
      } else if t.commands[c].kind.ConfigureNode? && t.runs[r].state.Configuring? {
        ConfigurationFallsBack(t, c, ended, r, now);
      } else {
        EndKeepsCoherence(t, c, ended);
        if t.commands[c].kind.ReadNodeInformation? && t.runs[r].state.ReadingNode? {
          ReadFailureKeepsCoherence(t1, c, r);
        }
      }
    }
  }

  lemma ExpireOneKeepsCoherence(t: Tables, c: CommandId, now: Time)
    requires Coherent(t)
    ensures Coherent(ExpireOne(t, c, now))
  {
    if c in t.commands && t.commands[c].state.CommandPending? && t.commands[c].expiresAt <= now {
      EndingKeepsCoherence(t, c, CommandExpired, now);
    }
  }

  lemma {:induction false} ExpireKeepsCoherence(t: Tables, ids: seq<CommandId>, now: Time)
    requires Coherent(t)
    ensures Coherent(ExpireEach(t, ids, now))
    decreases |ids|
  {
    if ids != [] {
      ExpireOneKeepsCoherence(t, ids[0], now);
      ExpireKeepsCoherence(ExpireOne(t, ids[0], now), ids[1..], now);
    }
  }

  lemma FallBackExpiresNothing(t: Tables, c: CommandId, now: Time, d: CommandId)
    requires c in t.commands && t.nextCommand !in t.commands
    ensures IsExpired(FallBack(t, c, now), d, now) ==> IsExpired(t, d, now)
  {
  }

  lemma ExpireOneExpires(t: Tables, c: CommandId, now: Time, d: CommandId)
    requires t.nextCommand !in t.commands
    ensures IsExpired(ExpireOne(t, c, now), d, now) ==> IsExpired(t, d, now) && d != c
  {
    if IsExpired(t, c, now) {
      var t1 := SetCommandState(t, c, CommandExpired);
      FallBackExpiresNothing(t1, c, now, d);
    }
  }

  /** A list of everything expired leaves nothing expired: what a fall-back queues has its whole lifetime ahead. */
  lemma {:induction false} ExpireLeavesNone(t: Tables, ids: seq<CommandId>, now: Time, d: CommandId)
    requires Coherent(t)
    ensures IsExpired(ExpireEach(t, ids, now), d, now) ==> IsExpired(t, d, now) && d !in ids
    decreases |ids|
  {
    if ids != [] {
      NextIsFree(t);
      ExpireOneExpires(t, ids[0], now, d);
      ExpireOneKeepsCoherence(t, ids[0], now);
      ExpireLeavesNone(ExpireOne(t, ids[0], now), ids[1..], now, d);
    }
  }

  /** Any command may end without success; one that succeeds must not be awaited any more. */
  lemma FinishKeepsCoherence(t: Tables, c: CommandId, ended: CommandState, now: Time)
    requires Coherent(t) && (IsUnsuccessful(ended) || NotAwaited(t, c))
    ensures Coherent(FinishCommand(t, c, ended, now))
  {
    if IsRunning(t, c) && IsTerminal(ended) {
      if IsUnsuccessful(ended) {
        EndingKeepsCoherence(t, c, ended, now);
      } else {
        EndKeepsCoherence(t, c, ended);
      }
    }
  }

  lemma {:induction false} InterruptKeepsCoherence(t: Tables, ids: seq<CommandId>, now: Time)
    requires Coherent(t)
    ensures Coherent(InterruptEach(t, ids, now))
    decreases |ids|
  {
    if ids != [] {
      FinishKeepsCoherence(t, ids[0], CommandInterrupted, now);
      InterruptKeepsCoherence(FinishCommand(t, ids[0], CommandInterrupted, now), ids[1..], now);
    }
  }

  // ----- what the operator can rely on ----------------------------------------------------------------------------

  /**
   However the command a run waits for ends without success, the run is back in a state the
   operator can act on: retry, confirm, submit or cancel.
   */
  lemma OperatorCanActAgain(t: Tables, c: CommandId, ended: CommandState, now: Time)
    requires Coherent(t) && c in t.commands && IsOutstanding(t.commands[c]) && IsUnsuccessful(ended)
    requires t.commands[c].run.Some? && !HasNewerCommand(t, t.commands[c].run.value, c)
    requires t.commands[c].run.value in t.runs && t.runs[t.commands[c].run.value].isActive
    ensures var r := t.commands[c].run.value;
      var u := FallBack(SetCommandState(t, c, ended), c, now);
      r in u.runs && u.runs[r].isActive && IsCancellable(u.runs[r].state)
  {
    var r := t.commands[c].run.value;
    NoneIsNewer(t, c, ended, r);
    assert RunOk(t, r) && QueueOk(t, r);
    if t.runs[r].state.Resetting? {
      var l :| IsLatest(t, r, l) && Works(t, l, r, FactoryReset) && OnlyOne(t, r, l, FactoryReset)
        && NoneWorks(t, r, ConfigureNode);
      LatestIsIt(t, r, l, c);
    } else if t.runs[r].state.Configuring? {
      var l :| IsLatest(t, r, l) && Works(t, l, r, ConfigureNode) && OnlyOne(t, r, l, ConfigureNode);
      LatestIsIt(t, r, l, c);
    }
  }

  lemma LatestIsIt(t: Tables, r: RunId, l: CommandId, c: CommandId)
    requires IsLatest(t, r, l) && BelongsTo(t, c, r) && !HasNewerCommand(t, r, c)
    ensures l == c
  {
    assert c <= l;
    assert BelongsTo(t, l, r) && l in t.commands;
  }

  /** A second fall-back for a command finds nothing to do. */
  lemma FallBackIsIdempotent(t: Tables, c: CommandId, now: Time, later: Time)
    requires c in t.commands && forall d | d in t.commands :: d < t.nextCommand
    ensures var u := FallBack(t, c, now);
      c in u.commands && FallBack(u, c, later) == u
  {
    var u := FallBack(t, c, now);
    if u != t {
      var r := t.commands[c].run.value;
      if t.commands[c].kind.FactoryReset? && ResetFrameNoted(t.commands[c]) {
        assert BelongsTo(u, t.nextCommand, r) && t.nextCommand in u.commands;
        assert HasNewerCommand(u, r, c);
      } else {
        assert forall d :: BelongsTo(u, d, r) <==> BelongsTo(t, d, r);
        assert !HasNewerCommand(u, r, c);
      }
    }
  }

  /**
   In coherent tables at most one run is active, at most one command runs, and a waiting run's
   latest command is under way.
   */
  lemma CoherentMeans(t: Tables, r: RunId)
    requires Coherent(t) && r in t.runs
    ensures t.runs[r].isActive <==> !IsFinal(t.runs[r].state)
    ensures t.runs[r].isActive ==> forall q | q in t.runs && t.runs[q].isActive :: q == r
    ensures t.runs[r].state.Resetting? ==> exists c :: IsLatest(t, r, c) && Works(t, c, r, FactoryReset)
    ensures t.runs[r].state.Configuring? ==> exists c :: IsLatest(t, r, c) && Works(t, c, r, ConfigureNode)
  {
    assert RunOk(t, r) && QueueOk(t, r);
    forall q | q in t.runs && t.runs[q].isActive ensures t.runs[r].isActive ==> q == r {
      assert RunOk(t, q);
    }
  }
}
