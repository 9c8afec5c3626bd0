/** Over every run of the setup protocol: the relay never runs on a board that holds the configured key unconfigured. */
module SetupSafety {
  import opened Options
  import opened Times
  import opened SetupTables
  import opened SetupCoherence
  import opened SetupProtocol
  import opened TransitionSystems

  // ----- what other transactions leave to the worker --------------------------------------------------------

  /** The configured key stays, and no run loses the key it began to restore or becomes completed. */
  ghost predicate KeepsMarks(t: Tables, u: Tables) {
    && u.configuredKey == t.configuredKey
    && (forall r | r in t.runs :: r in u.runs && u.runs[r].restoredKey == t.runs[r].restoredKey
                                  && (u.runs[r].state.RunCompleted? <==> t.runs[r].state.RunCompleted?))
    && (forall r | r in u.runs && r !in t.runs :: !u.runs[r].state.RunCompleted?)
  }

  /** The running command stays as it is, and so does the run that waits for it; nobody starts waiting for it. */
  ghost predicate KeepsRunning(t: Tables, u: Tables) {
    && (forall c :: IsRunning(u, c) <==> IsRunning(t, c))
    && (forall c | IsRunning(t, c) :: u.commands[c] == t.commands[c])
    && (forall c | IsRunning(t, c) && !NotAwaited(t, c) ::
          t.commands[c].run.value in u.runs && u.runs[t.commands[c].run.value] == t.runs[t.commands[c].run.value])
    && (forall c | IsRunning(t, c) && NotAwaited(t, c) :: NotAwaited(u, c))
  }

  ghost predicate Steady(t: Tables, u: Tables) {
    KeepsMarks(t, u) && KeepsRunning(t, u)
  }

  lemma SteadyTransitive(t: Tables, u: Tables, v: Tables)
    requires Steady(t, u) && Steady(u, v)
    ensures Steady(t, v)
  {
    forall c | IsRunning(t, c) && !NotAwaited(t, c)
      ensures t.commands[c].run.value in v.runs && v.runs[t.commands[c].run.value] == t.runs[t.commands[c].run.value]
    {
      assert IsRunning(u, c) && !NotAwaited(u, c);
    }
    forall c | IsRunning(t, c) ensures v.commands[c] == t.commands[c] {
      assert IsRunning(u, c);
    }
    forall c | IsRunning(t, c) && NotAwaited(t, c) ensures NotAwaited(v, c) {
      assert IsRunning(u, c) && NotAwaited(u, c);
    }
  }

  /** A running command that a run waits for is that run's latest. */
  lemma AwaitedIsLatest(t: Tables, c: CommandId)
    requires Coherent(t) && IsRunning(t, c) && !NotAwaited(t, c)
    ensures IsLatest(t, t.commands[c].run.value, c)
  {
    var r := t.commands[c].run.value;
    assert QueueOk(t, r);
    if t.runs[r].state.Resetting? {
      var l :| IsLatest(t, r, l) && Works(t, l, r, FactoryReset) && OnlyOne(t, r, l, FactoryReset)
        && NoneWorks(t, r, ConfigureNode);
      assert Works(t, c, r, FactoryReset);
    } else {
      var l :| IsLatest(t, r, l) && Works(t, l, r, ConfigureNode) && OnlyOne(t, r, l, ConfigureNode);
      assert Works(t, c, r, ConfigureNode);
    }
  }

  lemma StartIsSteady(t: Tables, now: Time)
    requires Coherent(t)
    ensures Steady(t, StartRun(t, now))
  {
    var u := StartRun(t, now);
    NextIsFree(t);
    assert forall r | r in t.runs :: RunOk(t, r);
    forall c | IsRunning(t, c) && NotAwaited(t, c) ensures NotAwaited(u, c) {
      assert CommandOk(t, c);
    }
  }

  /** A transaction on one run the worker is not working for. */
  lemma OtherRunIsSteady(t: Tables, u: Tables, r: RunId)
    requires Coherent(t) && OneRunChanges(t, u, r) && u.configuredKey == t.configuredKey
    requires u.runs[r].restoredKey == t.runs[r].restoredKey && !u.runs[r].state.RunCompleted?
    requires forall c | IsRunning(t, c) :: c in u.commands && u.commands[c] == t.commands[c]
    requires forall c | IsRunning(t, c) && BelongsTo(t, c, r) :: NotAwaited(t, c) && NotAwaited(u, c)
    ensures Steady(t, u)
  {
    assert RunOk(t, r);
    forall c ensures IsRunning(u, c) <==> IsRunning(t, c) {
    }
    forall c | IsRunning(t, c) && !NotAwaited(t, c)
      ensures t.commands[c].run.value in u.runs && u.runs[t.commands[c].run.value] == t.runs[t.commands[c].run.value]
    {
      assert !BelongsTo(t, c, r);
    }
    forall c | IsRunning(t, c) && NotAwaited(t, c) ensures NotAwaited(u, c) {
      if BelongsTo(t, c, r) {
      } else {
        assert u.commands[c] == t.commands[c];
      }
    }
  }

  lemma CancelPendingChangesOneRun(t: Tables, r: RunId)
    requires Coherent(t) && HasRun(t, r, ReadingNode)
    ensures OneRunChanges(t, CancelPending(t, r), r)
  {
    assert RunOk(t, r);
  }

  lemma CancelPendingIsSteady(t: Tables, r: RunId)
    requires Coherent(t) && HasRun(t, r, ReadingNode)
    ensures Steady(t, CancelPending(t, r))
  {
    CancelPendingChangesOneRun(t, r);
    OtherRunIsSteady(t, CancelPending(t, r), r);
  }

  lemma ReadAgainIsSteady(t: Tables, r: RunId, now: Time)
    requires Coherent(t) && HasRun(t, r, ReadingNode)
    ensures Steady(t, CreateCommand(UpdateRun(t, r, t.runs[r].(lastError := None)), ReadNodeInformation, Some(r), now))
  {
    assert RunOk(t, r);
    NextIsFree(t);
    EnterChangesOneRun(t, r, t.runs[r].(lastError := None), ReadNodeInformation, now);
    OtherRunIsSteady(t,
      CreateCommand(UpdateRun(t, r, t.runs[r].(lastError := None)), ReadNodeInformation, Some(r), now), r);
  }

  lemma RetryIsSteady(t: Tables, r: RunId, now: Time)
    requires Coherent(t)
    ensures Steady(t, RetryReading(t, r, now))
  {
    if HasRun(t, r, ReadingNode) && !CommandRuns(t, r) {
      CancelPendingIsSteady(t, r);
      CancelPendingKeepsCoherence(t, r);
      ReadAgainIsSteady(CancelPending(t, r), r, now);
      SteadyTransitive(t, CancelPending(t, r), RetryReading(t, r, now));
    }
  }

  /** The changes an operator's step makes are confined to its run. */
  lemma EnterChangesOneRun(t: Tables, r: RunId, run: SetupRun, kind: CommandKind, now: Time)
    requires Coherent(t) && r in t.runs && t.runs[r].isActive && (run.isActive <==> !IsFinal(run.state))
    ensures OneRunChanges(t, CreateCommand(UpdateRun(t, r, run), kind, Some(r), now), r)
  {
    NextIsFree(t);
  }

  lemma CancelChangesOneRun(t: Tables, r: RunId)
    requires Coherent(t) && r in t.runs && t.runs[r].isActive && IsCancellable(t.runs[r].state)
    ensures OneRunChanges(t, CancelRun(t, r), r)
  {
  }

  lemma ConfirmIsSteady(t: Tables, r: RunId, confirmed: bool, now: Time)
    requires Coherent(t)
    ensures Steady(t, ConfirmReset(t, r, confirmed, now))
  {
    if HasRun(t, r, AwaitingResetConfirmation) && confirmed {
      var u := ConfirmReset(t, r, confirmed, now);
      assert RunOk(t, r) && QueueOk(t, r);
      EnterChangesOneRun(t, r, Moved(t.runs[r], Resetting).(lastError := None), FactoryReset, now);
      NextIsFree(t);
      forall c | IsRunning(t, c) && BelongsTo(t, c, r) ensures NotAwaited(t, c) && NotAwaited(u, c) {
        assert !Works(t, c, r, FactoryReset) && !Works(t, c, r, ConfigureNode);
      }
      OtherRunIsSteady(t, u, r);
    }
  }

  lemma SubmitIsSteady(t: Tables, r: RunId, restore: bool, now: Time)
    requires Coherent(t)
    ensures Steady(t, SubmitConfiguration(t, r, restore, now))
  {
    if HasRun(t, r, AwaitingConfiguration) {
      var u := SubmitConfiguration(t, r, restore, now);
      assert RunOk(t, r) && QueueOk(t, r);
      EnterChangesOneRun(t, r, Moved(t.runs[r], Configuring).(restoreRequested := restore, lastError := None),
        ConfigureNode, now);
      NextIsFree(t);
      forall c | IsRunning(t, c) && BelongsTo(t, c, r) ensures NotAwaited(t, c) && NotAwaited(u, c) {
        assert !Works(t, c, r, ConfigureNode);
      }
      OtherRunIsSteady(t, u, r);
    }
  }

  lemma CancelIsSteady(t: Tables, r: RunId)
    requires Coherent(t)
    ensures Steady(t, CancelRun(t, r))
  {
    if r in t.runs && IsCancellable(t.runs[r].state) {
      assert RunOk(t, r);
      CancelChangesOneRun(t, r);
      OtherRunIsSteady(t, CancelRun(t, r), r);
    }
  }

  /** Falling back never touches a completed run, a restored key or the configured key. */
  lemma FallBackKeepsMarks(t: Tables, c: CommandId, now: Time)
    requires c in t.commands
    ensures KeepsMarks(t, FallBack(t, c, now))
  {
    forall r | r in t.runs ensures r in FallBack(t, c, now).runs {
      FallBackKeepsMarkOf(t, c, now, r);
    }
    forall r | r in t.runs
      ensures FallBack(t, c, now).runs[r].restoredKey == t.runs[r].restoredKey
        && (FallBack(t, c, now).runs[r].state.RunCompleted? <==> t.runs[r].state.RunCompleted?)
    {
      FallBackKeepsMarkOf(t, c, now, r);
    }
    FallBackAddsNoRun(t, c, now);
  }

  lemma FallBackKeepsMarkOf(t: Tables, c: CommandId, now: Time, r: RunId)
    requires c in t.commands && r in t.runs
    ensures var u := FallBack(t, c, now);
      && r in u.runs && u.runs[r].restoredKey == t.runs[r].restoredKey
      && (u.runs[r].state.RunCompleted? <==> t.runs[r].state.RunCompleted?)
  {
  }

  lemma FallBackAddsNoRun(t: Tables, c: CommandId, now: Time)
    requires c in t.commands
    ensures var u := FallBack(t, c, now);
      u.configuredKey == t.configuredKey && forall r | r in u.runs :: r in t.runs
  {
  }

  lemma FallBackRunnings(t: Tables, c: CommandId, now: Time, d: CommandId)
    requires c in t.commands && t.nextCommand !in t.commands
    ensures IsRunning(FallBack(t, c, now), d) <==> IsRunning(t, d)
    ensures IsRunning(t, d) ==> FallBack(t, c, now).commands[d] == t.commands[d]
  {
  }

  lemma ExpireOneIsSteady(t: Tables, c: CommandId, now: Time)
    requires Coherent(t)
    ensures Steady(t, ExpireOne(t, c, now))
  {
    if c in t.commands && t.commands[c].state.CommandPending? && t.commands[c].expiresAt <= now {
      var t1 := SetCommandState(t, c, CommandExpired);
      var u := ExpireOne(t, c, now);
      NextIsFree(t);
      FallBackKeepsMarks(t1, c, now);
      forall d ensures (IsRunning(u, d) <==> IsRunning(t, d)) && (IsRunning(t, d) ==> u.commands[d] == t.commands[d]) {
        FallBackRunnings(t1, c, now, d);
      }
      forall d | IsRunning(t, d) && !NotAwaited(t, d)
        ensures t.commands[d].run.value in u.runs && u.runs[t.commands[d].run.value] == t.runs[t.commands[d].run.value]
      {
        AwaitedIsLatest(t, d);
        ExpiryLeavesAwaited(t, c, now, d);
      }
      forall d | IsRunning(t, d) && NotAwaited(t, d) ensures NotAwaited(u, d) {
        FallBackAwaitsNobody(t1, c, now, d);
      }
    }
  }

  /** A run waiting for a running command does not fall back because an older command expired. */
  lemma ExpiryLeavesAwaited(t: Tables, c: CommandId, now: Time, d: CommandId)
    requires c in t.commands && t.commands[c].state.CommandPending? && IsRunning(t, d) && t.commands[d].run.Some?
      && t.commands[d].run.value in t.runs
    requires IsLatest(t, t.commands[d].run.value, d)
    ensures var u := FallBack(SetCommandState(t, c, CommandExpired), c, now);
      var r := t.commands[d].run.value;
      r in u.runs && u.runs[r] == t.runs[r]
  {
    var t1 := SetCommandState(t, c, CommandExpired);
    var r := t.commands[d].run.value;
    if t.commands[c].run == Some(r) {
      assert BelongsTo(t, c, r) && c < d;
      assert BelongsTo(t1, d, r) && d in t1.commands;
      assert HasNewerCommand(t1, r, c);
    }
  }

  /** Where a run falls back to, nobody waits for an old command. */
  lemma FallBackAwaitsNobody(t: Tables, c: CommandId, now: Time, d: CommandId)
    requires c in t.commands && t.nextCommand !in t.commands && NotAwaited(t, d) && d in t.commands
    ensures NotAwaited(FallBack(t, c, now), d)
  {
  }

  lemma {:induction false} ExpireIsSteady(t: Tables, ids: seq<CommandId>, now: Time)
    requires Coherent(t)
    ensures Steady(t, ExpireEach(t, ids, now))
    decreases |ids|
  {
    if ids != [] {
      ExpireOneIsSteady(t, ids[0], now);
      ExpireOneKeepsCoherence(t, ids[0], now);
      ExpireIsSteady(ExpireOne(t, ids[0], now), ids[1..], now);
      SteadyTransitive(t, ExpireOne(t, ids[0], now), ExpireEach(t, ids, now));
    }
  }

  lemma OtherCommandIsSteady(t: Tables, isShort: bool, now: Time)
    requires Coherent(t)
    ensures Steady(t, CreateCommand(t, OtherCommand(isShort), None, now))
  {
    NextIsFree(t);
  }

  // ----- the invariant ----------------------------------------------------------------------------------------

  /** Some run that is not completed began to restore this key, and no run completed since it started. */
  ghost predicate Marked(t: Tables, key: Key) {
    exists r | r in t.runs ::
      !t.runs[r].state.RunCompleted? && t.runs[r].restoredKey == Some(key) && NoneCompletedSince(t, r)
  }

  /** The board holds the configured key but was not configured since the key was written. */
  predicate HoldsKeyUnconfigured(w: World) {
    w.tables.configuredKey == Some(w.board.key) && !w.board.isConfigured
  }

  /** The run the worker works for is waiting for this command, of this kind. */
  predicate WorksFor(t: Tables, c: CommandId, r: RunId, kind: CommandKind, state: RunState) {
    IsRunning(t, c) && BelongsTo(t, c, r) && t.commands[c].kind == kind && HasRun(t, r, state)
  }

  /** What the worker may rely on in each phase. */
  ghost predicate WorkerOk(w: World) {
    match w.worker
    case Dead => true
    case Idle => forall c :: !IsRunning(w.tables, c)
    case Claimed(c) => IsRunning(w.tables, c)
    case NodeRead(c, r, _) => IsRunning(w.tables, c) && w.tables.commands[c].kind.ReadNodeInformation?
    case ResetChecked(c, r) => WorksFor(w.tables, c, r, FactoryReset, Resetting)
    case ResetNoted(c, r) => WorksFor(w.tables, c, r, FactoryReset, Resetting)
    case ResetSent(c, r) => WorksFor(w.tables, c, r, FactoryReset, Resetting)
    case IdentityChecked(c, r, _) => WorksFor(w.tables, c, r, ConfigureNode, Configuring)
    case RestoreNoted(c, r, key) =>
      WorksFor(w.tables, c, r, ConfigureNode, Configuring) && RestoreIsNoted(w.tables, r, key)
    case ImportTried(c, r, key) =>
      WorksFor(w.tables, c, r, ConfigureNode, Configuring) && RestoreIsNoted(w.tables, r, key)
    case IdentitySettled(c, r, _) => WorksFor(w.tables, c, r, ConfigureNode, Configuring)
    case ReadBackMatched(c, r, expected) =>
      WorksFor(w.tables, c, r, ConfigureNode, Configuring) && w.board.key == expected && w.board.isConfigured
    case Finishing(c) => IsRunning(w.tables, c) && NotAwaited(w.tables, c)
  }

  predicate RestoreIsNoted(t: Tables, r: RunId, key: Key) {
    r in t.runs && t.runs[r].restoredKey == Some(key) && t.configuredKey == Some(key)
  }

  predicate KeysOk(w: World) {
    w.board.key in w.used && (w.tables.configuredKey.Some? ==> w.tables.configuredKey.value in w.used)
  }

  ghost predicate SetupInv(w: World) {
    && Coherent(w.tables)
    && KeysOk(w)
    && WorkerOk(w)
    && (HoldsKeyUnconfigured(w) ==> Marked(w.tables, w.board.key))
  }

  lemma MarksStay(t: Tables, u: Tables, key: Key)
    requires KeepsMarks(t, u) && Marked(t, key)
    ensures Marked(u, key)
  {
    var r :| r in t.runs && !t.runs[r].state.RunCompleted? && t.runs[r].restoredKey == Some(key)
      && NoneCompletedSince(t, r);
    assert NoneCompletedSince(u, r);
  }

  lemma SteadyKeepsWorker(w: World, u: Tables)
    requires WorkerOk(w) && Steady(w.tables, u)
    ensures WorkerOk(w.(tables := u))
  {
    var t := w.tables;
    forall c, r, kind, state | WorksFor(t, c, r, kind, state)
      && (kind, state) in {(FactoryReset, Resetting), (ConfigureNode, Configuring)}
      ensures WorksFor(u, c, r, kind, state) && u.runs[r] == t.runs[r]
    {
      assert !NotAwaited(t, c);
    }
  }

  /** Anything that goes on beside the worker. */
  lemma SteadyKeepsInv(w: World, u: Tables)
    requires SetupInv(w) && Coherent(u) && Steady(w.tables, u)
    ensures SetupInv(w.(tables := u))
  {
    SteadyKeepsWorker(w, u);
    if HoldsKeyUnconfigured(w) {
      MarksStay(w.tables, u, w.board.key);
    }
  }

  // ----- the worker ---------------------------------------------------------------------------------------------

  lemma FinishKeepsMarks(t: Tables, c: CommandId, ended: CommandState, now: Time)
    requires c in t.commands ==> t.nextCommand !in t.commands
    ensures KeepsMarks(t, FinishCommand(t, c, ended, now))
    ensures IsTerminal(ended) ==>
      forall d :: IsRunning(FinishCommand(t, c, ended, now), d) <==> IsRunning(t, d) && d != c
  {
    if IsRunning(t, c) && IsTerminal(ended) {
      var t1 := SetCommandState(t, c, ended);
      FallBackKeepsMarks(t1, c, now);
      forall d ensures IsRunning(FallBack(t1, c, now), d) <==> IsRunning(t1, d) {
        FallBackRunnings(t1, c, now, d);
      }
    }
  }

  lemma FinishKeepsInv(w: World, c: CommandId, ended: CommandState, now: Time)
    requires SetupInv(w) && IsRunning(w.tables, c)
    requires IsUnsuccessful(ended) || (ended.CommandSucceeded? && NotAwaited(w.tables, c))
    ensures SetupInv(w.(tables := FinishCommand(w.tables, c, ended, now), worker := Idle))
  {
    NextIsFree(w.tables);
    FinishKeepsMarks(w.tables, c, ended, now);
    FinishKeepsCoherence(w.tables, c, ended, now);
    if HoldsKeyUnconfigured(w) {
      MarksStay(w.tables, FinishCommand(w.tables, c, ended, now), w.board.key);
    }
  }

  lemma KeepsMarksTransitive(t: Tables, u: Tables, v: Tables)
    requires KeepsMarks(t, u) && KeepsMarks(u, v)
    ensures KeepsMarks(t, v)
  {
  }

  lemma {:induction false} InterruptKeepsMarks(t: Tables, ids: seq<CommandId>, now: Time)
    requires Coherent(t)
    ensures KeepsMarks(t, InterruptEach(t, ids, now))
    ensures forall d :: IsRunning(InterruptEach(t, ids, now), d) ==> IsRunning(t, d) && d !in ids
    decreases |ids|
  {
    if ids != [] {
      var t1 := FinishCommand(t, ids[0], CommandInterrupted, now);
      NextIsFree(t);
      FinishKeepsMarks(t, ids[0], CommandInterrupted, now);
      FinishKeepsCoherence(t, ids[0], CommandInterrupted, now);
      InterruptKeepsMarks(t1, ids[1..], now);
      KeepsMarksTransitive(t, t1, InterruptEach(t, ids, now));
    }
  }

  lemma RestartKeepsInv(w: World, ids: seq<CommandId>, now: Time)
    requires SetupInv(w) && ListsAll(w.tables, ids, CommandRunning)
    ensures SetupInv(w.(tables := InterruptEach(w.tables, ids, now), worker := Idle))
  {
    InterruptKeepsMarks(w.tables, ids, now);
    InterruptKeepsCoherence(w.tables, ids, now);
    if HoldsKeyUnconfigured(w) {
      MarksStay(w.tables, InterruptEach(w.tables, ids, now), w.board.key);
    }
  }

  lemma ClaimKeepsInv(w: World, ids: seq<CommandId>, c: CommandId, now: Time)
    requires SetupInv(w) && CanAct(w, WorkerClaims(ids, c, now))
    ensures SetupInv(Act(w, WorkerClaims(ids, c, now)))
  {
    var t := ExpireEach(w.tables, ids, now);
    ExpireIsSteady(w.tables, ids, now);
    ExpireKeepsCoherence(w.tables, ids, now);
    SteadyKeepsInv(w, t);
    assert !AnyRunning(t) by {
      assert forall d :: !IsRunning(t, d);
    }
    ClaimKeepsCoherence(t, c);
    assert KeepsMarks(t, ClaimOne(t, c));
    if HoldsKeyUnconfigured(w) {
      MarksStay(t, ClaimOne(t, c), w.board.key);
    }
  }

  /** The active run is later than every completed one. */
  lemma ActiveRunIsLatest(t: Tables, r: RunId)
    requires Coherent(t) && r in t.runs && t.runs[r].isActive
    ensures NoneCompletedSince(t, r)
  {
    assert RunOk(t, r);
  }

  lemma RecordReadKeepsMarks(t: Tables, r: RunId, key: Key)
    ensures KeepsMarks(t, RecordRead(t, r, key))
    ensures forall c :: IsRunning(RecordRead(t, r, key), c) <==> IsRunning(t, c)
  {
  }

  lemma ReadKeepsInv(w: World, a: Action)
    requires SetupInv(w) && CanAct(w, a) && (a.ReadsNode? || a.RecordsRead?)
    ensures SetupInv(Act(w, a))
  {
    if a.RecordsRead? {
      var u := RecordRead(w.tables, w.worker.run, w.worker.key);
      RecordReadKeepsCoherence(w.tables, w.worker.run, w.worker.key);
      RecordReadKeepsMarks(w.tables, w.worker.run, w.worker.key);
      if HoldsKeyUnconfigured(w) {
        MarksStay(w.tables, u, w.board.key);
      }
    }
  }

  lemma NotedFrameKeepsInv(w: World)
    requires SetupInv(w) && CanAct(w, NotesResetFrame)
    ensures SetupInv(Act(w, NotesResetFrame))
  {
    var u := Act(w, NotesResetFrame).tables;
    ProgressKeepsCoherence(w.tables, w.worker.command, ProgressStep(SendResetFrame, StepRunning));
    assert KeepsMarks(w.tables, u);
    if HoldsKeyUnconfigured(w) {
      MarksStay(w.tables, u, w.board.key);
    }
  }

  lemma RecordedResetKeepsInv(w: World)
    requires SetupInv(w) && CanAct(w, RecordsReset)
    ensures SetupInv(Act(w, RecordsReset))
  {
    var u := Act(w, RecordsReset).tables;
    RecordResetKeepsCoherence(w.tables, w.worker.run, w.board.key);
    assert KeepsMarks(w.tables, u);
    if HoldsKeyUnconfigured(w) {
      MarksStay(w.tables, u, w.board.key);
    }
  }

  lemma ResetKeepsInv(w: World, a: Action)
    requires SetupInv(w) && CanAct(w, a)
      && (a.ChecksBeforeReset? || a.NotesResetFrame? || a.SendsResetFrame? || a.RecordsReset?)
    ensures SetupInv(Act(w, a))
  {
    match a
    case NotesResetFrame => NotedFrameKeepsInv(w);
    case RecordsReset => RecordedResetKeepsInv(w);
    case _ =>
  }

  lemma RestoreKeepsMarked(t: Tables, r: RunId, key: Key)
    requires Coherent(t) && HasRun(t, r, Configuring) && Marked(t, key)
    ensures Marked(RecordRestoreStarted(t, r, key), key)
  {
    var u := RecordRestoreStarted(t, r, key);
    var q :| q in t.runs && !t.runs[q].state.RunCompleted? && t.runs[q].restoredKey == Some(key)
      && NoneCompletedSince(t, q);
    assert NoneCompletedSince(u, q);
    assert q in u.runs && u.runs[q].restoredKey == Some(key);
  }

  lemma NoteRestoreKeepsInv(w: World)
    requires SetupInv(w) && CanAct(w, NotesRestore)
    ensures SetupInv(Act(w, NotesRestore))
  {
    var key := w.tables.configuredKey.value;
    RecordRestoreKeepsCoherence(w.tables, w.worker.run, key);
    if HoldsKeyUnconfigured(w) {
      RestoreKeepsMarked(w.tables, w.worker.run, key);
    }
  }

  /** Once noted, the import may or may not reach the board. */
  lemma ImportKeepsInv(w: World, taken: bool)
    requires SetupInv(w) && CanAct(w, SendsImportFrame(taken))
    ensures SetupInv(Act(w, SendsImportFrame(taken)))
  {
    var t, r := w.tables, w.worker.run;
    assert RunOk(t, r);
    ActiveRunIsLatest(t, r);
    assert Marked(t, w.worker.key);
  }

  /** A configured board under the configured key, and a command nobody waits for. */
  lemma PersistedIsOk(w: World, u: Tables, c: CommandId)
    requires Coherent(u) && u.configuredKey == Some(w.board.key) && w.board.isConfigured && w.board.key in w.used
    requires IsRunning(u, c) && NotAwaited(u, c)
    ensures SetupInv(w.(tables := u, worker := Finishing(c)))
  {
  }

  lemma PersistKeepsInv(w: World)
    requires SetupInv(w) && CanAct(w, PersistsConfiguration)
    ensures SetupInv(Act(w, PersistsConfiguration))
  {
    var c, r, key := w.worker.command, w.worker.run, w.worker.expected;
    RecordCompletedKeepsCoherence(w.tables, r, key);
    CompletedIsNotAwaited(w.tables, c, r, key);
    CompletedConfigures(w.tables, r, key);
    PersistedIsOk(w, RecordCompleted(w.tables, r, key), c);
  }

  lemma CompletedConfigures(t: Tables, r: RunId, key: Key)
    requires HasRun(t, r, Configuring)
    ensures RecordCompleted(t, r, key).configuredKey == Some(key)
  {
  }

  lemma CompletedIsNotAwaited(t: Tables, c: CommandId, r: RunId, key: Key)
    requires WorksFor(t, c, r, ConfigureNode, Configuring)
    ensures var u := RecordCompleted(t, r, key);
      IsRunning(u, c) && NotAwaited(u, c)
  {
  }

  lemma ConfigureKeepsInv(w: World, a: Action)
    requires SetupInv(w) && CanAct(w, a)
    requires a.ChecksIdentity? || a.SettlesWithoutRestore? || a.ReadsRestoredIdentity? || a.ReadsBack?
    ensures SetupInv(Act(w, a))
  {
  }

  lemma OperatorIsSteady(w: World, a: Action)
    requires SetupInv(w)
    requires a.OperatorStarts? || a.OperatorRetriesReading? || a.OperatorConfirmsReset? || a.OperatorSubmits?
      || a.OperatorCancels? || a.PanelExpires? || a.PanelQueuesOther?
    ensures Steady(w.tables, Act(w, a).tables) && Coherent(Act(w, a).tables)
  {
    match a {
      case OperatorStarts(now) => StartIsSteady(w.tables, now); StartKeepsCoherence(w.tables, now);
      case OperatorRetriesReading(r, now) => RetryIsSteady(w.tables, r, now); RetryKeepsCoherence(w.tables, r, now);
      case OperatorConfirmsReset(r, confirmed, now) => ConfirmIsSteady(w.tables, r, confirmed, now);
        ConfirmKeepsCoherence(w.tables, r, confirmed, now);
      case OperatorSubmits(r, restore, now) => SubmitIsSteady(w.tables, r, restore, now);
        SubmitKeepsCoherence(w.tables, r, restore, now);
      case OperatorCancels(r) => CancelIsSteady(w.tables, r); CancelKeepsCoherence(w.tables, r);
      case PanelExpires(ids, now) => ExpireIsSteady(w.tables, ids, now); ExpireKeepsCoherence(w.tables, ids, now);
      case PanelQueuesOther(isShort, now) =>
        OtherCommandIsSteady(w.tables, isShort, now);
        OtherCommandKeepsCoherence(w.tables, isShort, now);
    }
  }

  lemma OperatorKeepsInv(w: World, a: Action)
    requires SetupInv(w)
    requires a.OperatorStarts? || a.OperatorRetriesReading? || a.OperatorConfirmsReset? || a.OperatorSubmits?
      || a.OperatorCancels? || a.PanelExpires? || a.PanelQueuesOther?
    ensures SetupInv(Act(w, a))
  {
    OperatorIsSteady(w, a);
    SteadyKeepsInv(w, Act(w, a).tables);
  }

  lemma WorkerProcessKeepsInv(w: World, a: Action)
    requires SetupInv(w) && CanAct(w, a)
    requires a.WorkerDies? || a.WorkerStarts? || a.WorkerClaims? || a.CommandFails? || a.CommandSucceeds?
    ensures SetupInv(Act(w, a))
  {
    match a
    case WorkerDies =>
    case WorkerStarts(ids, now) => RestartKeepsInv(w, ids, now);
    case WorkerClaims(ids, c, now) => ClaimKeepsInv(w, ids, c, now);
    case CommandFails(now) => FinishKeepsInv(w, w.worker.command, CommandFailed, now);
    case CommandSucceeds(now) => FinishKeepsInv(w, w.worker.command, CommandSucceeded, now);
  }

  lemma RestoreKeepsInv(w: World, a: Action)
    requires SetupInv(w) && CanAct(w, a) && (a.NotesRestore? || a.SendsImportFrame? || a.PersistsConfiguration?)
    ensures SetupInv(Act(w, a))
  {
    match a
    case NotesRestore => NoteRestoreKeepsInv(w);
    case SendsImportFrame(taken) => ImportKeepsInv(w, taken);
    case PersistsConfiguration => PersistKeepsInv(w);
  }

  /** Every action of operator, panel and worker keeps the invariant, crashes included. */
  lemma ActionKeepsInv(w: World, a: Action)
    requires SetupInv(w) && CanAct(w, a)
    ensures SetupInv(Act(w, a))
  {
    if a.WorkerDies? || a.WorkerStarts? || a.WorkerClaims? || a.CommandFails? || a.CommandSucceeds? {
      WorkerProcessKeepsInv(w, a);
    } else if a.ReadsNode? || a.RecordsRead? {
      ReadKeepsInv(w, a);
    } else if a.ChecksBeforeReset? || a.NotesResetFrame? || a.SendsResetFrame? || a.RecordsReset? {
      ResetKeepsInv(w, a);
    } else if a.NotesRestore? || a.SendsImportFrame? || a.PersistsConfiguration? {
      RestoreKeepsInv(w, a);
    } else if a.ChecksIdentity? || a.SettlesWithoutRestore? || a.ReadsRestoredIdentity? || a.ReadsBack? {
      ConfigureKeepsInv(w, a);
    } else {
      OperatorKeepsInv(w, a);
    }
  }

  // ----- every run ------------------------------------------------------------------------------------------------

  const NO_TABLES: Tables := Tables(map[], map[], None, 1, 1)

  /** A relay nobody set up yet, with whatever board attached. */
  function FirstWorld(board: Board): World {
    World(NO_TABLES, board, {board.key}, Dead)
  }

  ghost function NextWorld(): (World, Action) -> World {
    (w: World, a: Action) => Act(w, a)
  }

  ghost function MayAct(): (World, Action) -> bool {
    (w: World, a: Action) => CanAct(w, a)
  }

  ghost predicate IsSetupRun(board: Board, actions: seq<Action>) {
    Allowed(NextWorld(), MayAct(), FirstWorld(board), actions)
  }

  ghost function WorldAfter(board: Board, actions: seq<Action>): World {
    RunFrom(NextWorld(), FirstWorld(board), actions)
  }

  lemma RunKeepsSetupInv(board: Board, actions: seq<Action>)
    requires IsSetupRun(board, actions)
    ensures SetupInv(WorldAfter(board, actions))
  {
    forall w: World, a: Action | SetupInv(w) && CanAct(w, a) ensures SetupInv(NextWorld()(w, a)) {
      ActionKeepsInv(w, a);
    }
    KeptByRun(NextWorld(), MayAct(), (w: World) => SetupInv(w), FirstWorld(board), actions);
  }

  lemma ActiveRunIs(t: Tables, r: RunId)
    requires Coherent(t) && r in t.runs && t.runs[r].isActive
    ensures ActiveRun(t) == Some(t.runs[r])
  {
    CoherentMeans(t, r);
  }

  /** A marked key is not relayed for, whatever key the worker believes is attached. */
  lemma MarkedNeverRelays(t: Tables, key: Key, connected: Option<Key>)
    requires Coherent(t) && t.configuredKey == Some(key) && Marked(t, key)
    ensures !RelayModeFor(t, connected).RelayRunning?
  {
    var r :| r in t.runs && !t.runs[r].state.RunCompleted? && t.runs[r].restoredKey == Some(key)
      && NoneCompletedSince(t, r);
    assert RunOk(t, r);
    if t.runs[r].isActive {
      ActiveRunIs(t, r);
    } else {
      assert RestoredWithoutConfiguration(t, key);
    }
  }

  /**
   Setup safety: after every run of the protocol, whatever crashed, failed, expired, was lost,
   cancelled or retried, a board that holds the configured key but was not configured since is
   never relayed through, whatever key the last handshake reported.
   */
  lemma NeverRelaysUnconfigured(board: Board, actions: seq<Action>, connected: Option<Key>)
    requires IsSetupRun(board, actions)
    ensures var w := WorldAfter(board, actions);
      HoldsKeyUnconfigured(w) ==> !RelayModeFor(w.tables, connected).RelayRunning?
  {
    RunKeepsSetupInv(board, actions);
    var w := WorldAfter(board, actions);
    if HoldsKeyUnconfigured(w) {
      MarkedNeverRelays(w.tables, w.board.key, connected);
    }
  }

  /** Runs and commands agree after every run of the protocol. */
  lemma RunsAndCommandsAgree(board: Board, actions: seq<Action>, r: RunId)
    requires IsSetupRun(board, actions) && r in WorldAfter(board, actions).tables.runs
    ensures var t := WorldAfter(board, actions).tables;
      && (t.runs[r].isActive <==> !IsFinal(t.runs[r].state))
      && (t.runs[r].isActive ==> forall q | q in t.runs && t.runs[q].isActive :: q == r)
      && (t.runs[r].state.Resetting? ==> exists c :: IsLatest(t, r, c) && Works(t, c, r, FactoryReset))
      && (t.runs[r].state.Configuring? ==> exists c :: IsLatest(t, r, c) && Works(t, c, r, ConfigureNode))
      && SingleRunning(t)
  {
    RunKeepsSetupInv(board, actions);
    CoherentMeans(WorldAfter(board, actions).tables, r);
  }

  /** The guard is no stricter than needed: once a configuration is persisted, the board relays at once. */
  lemma ConfiguredBoardRelays(w: World)
    requires SetupInv(w) && CanAct(w, PersistsConfiguration)
    ensures var v := Act(w, PersistsConfiguration);
      RelayModeFor(v.tables, Some(v.board.key)).RelayRunning?
  {
    CompletedRelays(w.tables, w.worker.run, w.worker.expected);
  }

  lemma CompletedRelays(t: Tables, r: RunId, key: Key)
    requires Coherent(t) && HasRun(t, r, Configuring)
    ensures var u := RecordCompleted(t, r, key);
      !AnyActive(u) && RelayModeFor(u, Some(key)).RelayRunning?
  {
    var u := RecordCompleted(t, r, key);
    CoherentMeans(t, r);
    assert RunOk(t, r);
    assert !AnyActive(u);
    forall q | q in u.runs && u.runs[q].state.RunAbandoned? ensures !NoneCompletedSince(u, q) {
      assert u.runs[r].state.RunCompleted?;
    }
    assert !RestoredWithoutConfiguration(u, key);
  }
}
