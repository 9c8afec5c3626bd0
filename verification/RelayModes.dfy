/** Which mode the relay is in, for every table and every node, and what the operator sees while a run owns the node. */
module RelayModes {
  import opened Options
  import opened Times
  import opened SetupTables
  import opened SetupCoherence
  import opened SetupProtocol
  import opened SetupSafety
  import opened TransitionSystems

  /** The run works on whatever node is attached, or on one with this key: the one it reset, or is restoring. */
  predicate OwnsNode(run: SetupRun, key: Key) {
    run.state.Resetting? || run.state.Configuring? || run.newKey == Some(key) || run.restoredKey == Some(key)
  }

  predicate IsOwned(t: Tables, key: Key) {
    exists r | r in t.runs :: t.runs[r].isActive && OwnsNode(t.runs[r], key)
  }

  /** A run was given up after it began to restore the key, and none was completed since. */
  predicate IsHalfRestored(t: Tables, key: Key) {
    exists r | r in t.runs ::
      && t.runs[r].state.RunAbandoned? && t.runs[r].restoredKey == Some(key)
      && forall q | q in t.runs && t.runs[q].state.RunCompleted? :: q < r
  }

  lemma ActiveRunOwns(t: Tables, key: Key)
    requires Coherent(t)
    ensures IsSetupInProgress(key, ActiveRun(t)) <==> IsOwned(t, key)
  {
    if r :| r in t.runs && t.runs[r].isActive && OwnsNode(t.runs[r], key) {
      ActiveRunIs(t, r);
    }
  }

  lemma HalfRestoredIs(t: Tables, key: Key)
    ensures RestoredWithoutConfiguration(t, key) <==> IsHalfRestored(t, key)
  {
    if r :| && r in t.runs && t.runs[r].state.RunAbandoned? && t.runs[r].restoredKey == Some(key)
            && NoneCompletedSince(t, r) {
      assert forall q | q in t.runs && t.runs[q].state.RunCompleted? :: q < r;
    }
    if r :| && r in t.runs && t.runs[r].state.RunAbandoned? && t.runs[r].restoredKey == Some(key)
            && forall q | q in t.runs && t.runs[q].state.RunCompleted? :: q < r {
      assert NoneCompletedSince(t, r);
    }
  }

  /** Each mode in exactly its case. */
  lemma ModeIs(t: Tables, connected: Option<Key>)
    requires Coherent(t)
    ensures var mode := RelayModeFor(t, connected);
      && (mode.Disconnected? <==> connected.None?)
      && (mode.SetupInProgress? <==> connected.Some? && IsOwned(t, connected.value))
      && (mode.NotConfigured? <==>
            connected.Some? && !IsOwned(t, connected.value)
            && (t.configuredKey.None? || (t.configuredKey == connected && IsHalfRestored(t, connected.value))))
      && (mode.RelayRunning? <==>
            connected.Some? && !IsOwned(t, connected.value)
            && t.configuredKey == connected && !IsHalfRestored(t, connected.value))
      && (mode.IdentityMismatch? <==>
            connected.Some? && !IsOwned(t, connected.value) && t.configuredKey.Some? && t.configuredKey != connected)
  {
    if connected.Some? {
      ActiveRunOwns(t, connected.value);
      HalfRestoredIs(t, connected.value);
    }
  }

  // ----- over every run of the protocol -------------------------------------------------------------------------

  /** The run has a node of its own: reset and not yet configured. */
  predicate HasNode(run: SetupRun) {
    run.isActive && (run.state.AwaitingConfiguration? || run.state.Configuring?)
  }

  /** A run that has a node has the attached one, and what the worker read is what is attached. */
  predicate SeesBoard(w: World) {
    && (forall r | r in w.tables.runs && HasNode(w.tables.runs[r]) ::
          w.tables.runs[r].newKey == Some(w.board.key) || w.tables.runs[r].restoredKey == Some(w.board.key))
    && (w.worker.NodeRead? ==> w.worker.key == w.board.key)
    && (w.worker.IdentityChecked? ==> w.worker.attached == w.board.key)
  }

  /** Whatever run has a node afterwards had it before, under the same keys. */
  predicate KeepsNodes(t: Tables, u: Tables) {
    forall r | r in u.runs && HasNode(u.runs[r]) ::
      r in t.runs && HasNode(t.runs[r]) && u.runs[r].newKey == t.runs[r].newKey
        && u.runs[r].restoredKey == t.runs[r].restoredKey
  }

  lemma KeepsNodesTransitive(t: Tables, u: Tables, v: Tables)
    requires KeepsNodes(t, u) && KeepsNodes(u, v)
    ensures KeepsNodes(t, v)
  {
  }

  lemma FallBackKeepsNodes(t: Tables, c: CommandId, now: Time)
    requires c in t.commands && forall r | r in t.runs :: RunOk(t, r)
    ensures KeepsNodes(t, FallBack(t, c, now))
  {
    forall r | r in t.runs ensures t.runs[r].isActive <==> !IsFinal(t.runs[r].state) {
      assert RunOk(t, r);
    }
  }

  lemma EndKeepsNodes(t: Tables, c: CommandId, state: CommandState, now: Time)
    requires Coherent(t) && c in t.commands
    ensures KeepsNodes(t, FallBack(SetCommandState(t, c, state), c, now))
  {
    var t1 := SetCommandState(t, c, state);
    forall r | r in t1.runs ensures RunOk(t1, r) {
      assert RunOk(t, r);
    }
    FallBackKeepsNodes(t1, c, now);
  }

  lemma {:induction false} ExpireKeepsNodes(t: Tables, ids: seq<CommandId>, now: Time)
    requires Coherent(t)
    ensures KeepsNodes(t, ExpireEach(t, ids, now))
    decreases |ids|
  {
    if ids != [] {
      if IsExpired(t, ids[0], now) {
        EndKeepsNodes(t, ids[0], CommandExpired, now);
      }
      ExpireOneKeepsCoherence(t, ids[0], now);
      ExpireKeepsNodes(ExpireOne(t, ids[0], now), ids[1..], now);
      KeepsNodesTransitive(t, ExpireOne(t, ids[0], now), ExpireEach(t, ids, now));
    }
  }

  lemma FinishKeepsNodes(t: Tables, c: CommandId, state: CommandState, now: Time)
    requires Coherent(t)
    ensures KeepsNodes(t, FinishCommand(t, c, state, now))
  {
    if IsRunning(t, c) && IsTerminal(state) && IsUnsuccessful(state) {
      EndKeepsNodes(t, c, state, now);
    }
  }

  lemma {:induction false} InterruptKeepsNodes(t: Tables, ids: seq<CommandId>, now: Time)
    requires Coherent(t)
    ensures KeepsNodes(t, InterruptEach(t, ids, now))
    decreases |ids|
  {
    if ids != [] {
      var t1 := FinishCommand(t, ids[0], CommandInterrupted, now);
      FinishKeepsNodes(t, ids[0], CommandInterrupted, now);
      FinishKeepsCoherence(t, ids[0], CommandInterrupted, now);
      InterruptKeepsNodes(t1, ids[1..], now);
      KeepsNodesTransitive(t, t1, InterruptEach(t, ids, now));
    }
  }

  lemma OperatorKeepsNodes(t: Tables, a: Action)
    requires Coherent(t)
      && (a.OperatorStarts? || a.OperatorRetriesReading? || a.OperatorConfirmsReset? || a.OperatorSubmits?
      || a.OperatorCancels? || a.PanelExpires? || a.PanelQueuesOther?)
    ensures forall w: World | w.tables == t :: KeepsNodes(t, Act(w, a).tables)
  {
    match a
    case PanelExpires(ids, now) => ExpireKeepsNodes(t, ids, now);
    case OperatorSubmits(r, _, _) => if r in t.runs { assert RunOk(t, r); }
    case _ =>
  }

  lemma NodesStay(w: World, u: Tables)
    requires SeesBoard(w) && KeepsNodes(w.tables, u)
    ensures SeesBoard(w.(tables := u))
    ensures SeesBoard(w.(tables := u, worker := Idle)) && SeesBoard(w.(worker := Dead))
  {
  }

  /** While the worker works for a run that is being reset, no run has a node. */
  lemma ResettingHasNoNode(t: Tables, r: RunId)
    requires Coherent(t) && HasRun(t, r, Resetting)
    ensures forall q | q in t.runs :: !HasNode(t.runs[q])
  {
    CoherentMeans(t, r);
  }

  lemma OnlyRunHasNode(t: Tables, r: RunId, q: RunId)
    requires Coherent(t) && HasRun(t, r, Configuring) && q in t.runs && HasNode(t.runs[q])
    ensures q == r
  {
    CoherentMeans(t, r);
  }

  lemma ClaimKeepsSight(w: World, ids: seq<CommandId>, c: CommandId, now: Time)
    requires SetupInv(w) && SeesBoard(w) && CanAct(w, WorkerClaims(ids, c, now))
    ensures SeesBoard(Act(w, WorkerClaims(ids, c, now)))
  {
    ExpireKeepsNodes(w.tables, ids, now);
  }

  lemma ProcessKeepsSight(w: World, a: Action)
    requires SetupInv(w) && SeesBoard(w) && CanAct(w, a)
    requires a.WorkerDies? || a.WorkerStarts? || a.WorkerClaims? || a.CommandFails? || a.CommandSucceeds?
    ensures SeesBoard(Act(w, a))
  {
    match a
    case WorkerDies =>
    case WorkerStarts(ids, now) =>
      InterruptKeepsNodes(w.tables, ids, now);
      NodesStay(w, InterruptEach(w.tables, ids, now));
    case WorkerClaims(ids, c, now) => ClaimKeepsSight(w, ids, c, now);
    case CommandFails(now) =>
      FinishKeepsNodes(w.tables, w.worker.command, CommandFailed, now);
      NodesStay(w, FinishCommand(w.tables, w.worker.command, CommandFailed, now));
    case CommandSucceeds(now) =>
      FinishKeepsNodes(w.tables, w.worker.command, CommandSucceeded, now);
      NodesStay(w, FinishCommand(w.tables, w.worker.command, CommandSucceeded, now));
  }

  lemma RecordedReadKeepsNodes(t: Tables, r: RunId, key: Key, q: RunId)
    requires q in RecordRead(t, r, key).runs && HasNode(RecordRead(t, r, key).runs[q])
    ensures var u := RecordRead(t, r, key);
      || u.runs[q].newKey == Some(key)
      || (q in t.runs && u.runs[q] == t.runs[q])
  {
  }

  lemma ReadKeepsSight(w: World, a: Action)
    requires SetupInv(w) && SeesBoard(w) && CanAct(w, a) && (a.ReadsNode? || a.RecordsRead?)
    ensures SeesBoard(Act(w, a))
  {
    if a.RecordsRead? {
      var u := RecordRead(w.tables, w.worker.run, w.worker.key);
      forall q | q in u.runs && HasNode(u.runs[q])
        ensures u.runs[q].newKey == Some(w.board.key) || u.runs[q].restoredKey == Some(w.board.key)
      {
        RecordedReadKeepsNodes(w.tables, w.worker.run, w.worker.key, q);
      }
    }
  }

  lemma ResetKeepsSight(w: World, a: Action)
    requires SetupInv(w) && SeesBoard(w) && CanAct(w, a)
    requires a.ChecksBeforeReset? || a.NotesResetFrame? || a.SendsResetFrame? || a.RecordsReset?
    ensures SeesBoard(Act(w, a))
  {
    if a.SendsResetFrame? {
      ResettingHasNoNode(w.tables, w.worker.run);
    }
  }

  lemma ConfigureKeepsSight(w: World, a: Action)
    requires SetupInv(w) && SeesBoard(w) && CanAct(w, a)
    requires a.ChecksIdentity? || a.SettlesWithoutRestore? || a.NotesRestore? || a.ReadsRestoredIdentity?
      || a.ReadsBack?
      || a.PersistsConfiguration?
    ensures SeesBoard(Act(w, a))
  {
    if a.NotesRestore? {
      CoherentMeans(w.tables, w.worker.run);
    }
  }

  lemma ImportKeepsSight(w: World, taken: bool)
    requires SetupInv(w) && SeesBoard(w) && CanAct(w, SendsImportFrame(taken))
    ensures SeesBoard(Act(w, SendsImportFrame(taken)))
  {
    forall q | q in w.tables.runs && HasNode(w.tables.runs[q]) ensures q == w.worker.run {
      OnlyRunHasNode(w.tables, w.worker.run, q);
    }
  }

  lemma ActionKeepsSight(w: World, a: Action)
    requires SetupInv(w) && SeesBoard(w) && CanAct(w, a)
    ensures SeesBoard(Act(w, a))
  {
    if a.WorkerDies? || a.WorkerStarts? || a.WorkerClaims? || a.CommandFails? || a.CommandSucceeds? {
      ProcessKeepsSight(w, a);
    } else if a.ReadsNode? || a.RecordsRead? {
      ReadKeepsSight(w, a);
    } else if a.ChecksBeforeReset? || a.NotesResetFrame? || a.SendsResetFrame? || a.RecordsReset? {
      ResetKeepsSight(w, a);
    } else if a.SendsImportFrame? {
      ImportKeepsSight(w, a.taken);
    } else if a.ChecksIdentity? || a.SettlesWithoutRestore? || a.NotesRestore? || a.ReadsRestoredIdentity?
      || a.ReadsBack?
      || a.PersistsConfiguration? {
      ConfigureKeepsSight(w, a);
    } else {
      OperatorKeepsNodes(w.tables, a);
      NodesStay(w, Act(w, a).tables);
    }
  }

  ghost predicate InSight(w: World) {
    SetupInv(w) && SeesBoard(w)
  }

  lemma RunKeepsSight(board: Board, actions: seq<Action>)
    requires IsSetupRun(board, actions)
    ensures InSight(WorldAfter(board, actions))
  {
    forall w: World, a: Action | InSight(w) && CanAct(w, a) ensures InSight(NextWorld()(w, a)) {
      ActionKeepsInv(w, a);
      ActionKeepsSight(w, a);
    }
    KeptByRun(NextWorld(), MayAct(), (w: World) => InSight(w), FirstWorld(board), actions);
  }

  /**
   What the operator sees during setup, after every run of the protocol: from the recorded reset
   until the run is completed or given up, setup is in progress on the attached board; so it is
   while a run resets or configures, whatever is attached, and on a key an active run restores.
   */
  lemma SetupShowsInProgress(board: Board, actions: seq<Action>, r: RunId, key: Key)
    requires IsSetupRun(board, actions) && r in WorldAfter(board, actions).tables.runs
    requires WorldAfter(board, actions).tables.runs[r].isActive
    ensures var w := WorldAfter(board, actions);
      var run := w.tables.runs[r];
      && (run.state.AwaitingConfiguration? || run.state.Configuring? ==>
            RelayModeFor(w.tables, Some(w.board.key)).SetupInProgress?)
      && (run.state.Resetting? || run.state.Configuring? ==> RelayModeFor(w.tables, Some(key)).SetupInProgress?)
      && (run.restoredKey == Some(key) || run.newKey == Some(key) ==>
        RelayModeFor(w.tables, Some(key)).SetupInProgress?)
  {
    RunKeepsSight(board, actions);
    var w := WorldAfter(board, actions);
    ModeIs(w.tables, Some(w.board.key));
    ModeIs(w.tables, Some(key));
    if HasNode(w.tables.runs[r]) {
      assert OwnsNode(w.tables.runs[r], w.board.key);
    }
    if OwnsNode(w.tables.runs[r], key) {
      assert IsOwned(w.tables, key);
    }
  }
}
