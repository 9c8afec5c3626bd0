/** The setup protocol has no dead end: from wherever it got, the operator can get a configured board relaying. */
module SetupRoutes {
  import opened Options
  import opened Times
  import opened TransitionSystems
  import opened SetupTables
  import opened SetupCoherence
  import opened SetupProtocol
  import opened SetupSafety
  import opened RelayModes
  import opened SetupReadings

  /** All that holds after every run of the protocol. */
  ghost predicate Grounded(w: World) {
    SetupSafety.SetupInv(w) && SeesBoard(w) && HasReadBoard(w)
  }

  lemma RunKeepsGrounded(board: Board, actions: seq<Action>)
    requires IsSetupRun(board, actions)
    ensures Grounded(WorldAfter(board, actions))
  {
    forall w: World, a: Action | Grounded(w) && CanAct(w, a) ensures Grounded(NextWorld()(w, a)) {
      ActionKeepsGround(w, a);
    }
    KeptByRun(NextWorld(), MayAct(), (w: World) => Grounded(w), FirstWorld(board), actions);
  }

  lemma ActionKeepsGround(w: World, a: Action)
    requires Grounded(w) && CanAct(w, a)
    ensures Grounded(Act(w, a))
  {
    ActionKeepsInv(w, a);
    ActionKeepsSight(w, a);
    ActionKeepsReadings(w, a);
  }

  /** Some run of the protocol leads from one world to the other. */
  ghost predicate Leads(w: World, v: World) {
    exists actions :: Allowed(NextWorld(), MayAct(), w, actions) && RunFrom(NextWorld(), w, actions) == v
  }

  lemma LeadsNowhere(w: World)
    ensures Leads(w, w)
  {
    var none: seq<Action> := [];
    assert Allowed(NextWorld(), MayAct(), w, none) && RunFrom(NextWorld(), w, none) == w;
  }

  lemma OneStep(w: World, a: Action)
    requires CanAct(w, a)
    ensures Leads(w, Act(w, a))
  {
    var one := [a];
    assert one[1..] == [];
    assert Allowed(NextWorld(), MayAct(), NextWorld()(w, a), one[1..]);
    assert Allowed(NextWorld(), MayAct(), w, one) && RunFrom(NextWorld(), w, one) == Act(w, a);
  }

  lemma LeadsOn(w: World, v: World, x: World)
    requires Leads(w, v) && Leads(v, x)
    ensures Leads(w, x)
  {
    var first :| Allowed(NextWorld(), MayAct(), w, first) && RunFrom(NextWorld(), w, first) == v;
    var second :| Allowed(NextWorld(), MayAct(), v, second) && RunFrom(NextWorld(), v, second) == x;
    RunInHalves(NextWorld(), MayAct(), w, first, second);
  }

  /** One action more on the way. */
  lemma Go(start: World, w: World, a: Action) returns (v: World)
    requires Leads(start, w) && Grounded(w) && CanAct(w, a)
    ensures v == Act(w, a) && Leads(start, v) && Grounded(v)
  {
    v := Act(w, a);
    OneStep(w, a);
    LeadsOn(start, w, v);
    ActionKeepsGround(w, a);
  }

  // ----- clearing the table ---------------------------------------------------------------------------

  ghost predicate NothingRuns(t: Tables) {
    forall c :: !IsRunning(t, c)
  }

  ghost predicate NothingPends(t: Tables) {
    forall c :: !IsPending(t, c)
  }

  ghost predicate NobodyResets(t: Tables) {
    forall r :: !HasRun(t, r, Resetting)
  }

  /** The worker is idle, no command is outstanding and no run is active. */
  ghost predicate IsClear(w: World) {
    Grounded(w) && w.worker.Idle? && NothingPends(w.tables) && !AnyActive(w.tables)
  }

  predicate SameIdentity(w: World, v: World) {
    v.board == w.board && v.used == w.used && v.tables.configuredKey == w.tables.configuredKey
  }

  predicate KeepsActive(w: World, v: World) {
    forall r | r in w.tables.runs && w.tables.runs[r].isActive :: r in v.tables.runs && v.tables.runs[r].isActive
  }

  lemma {:induction false} InterruptKeepsKey(t: Tables, ids: seq<CommandId>, now: Time)
    ensures InterruptEach(t, ids, now).configuredKey == t.configuredKey
    decreases |ids|
  {
    if ids != [] {
      InterruptKeepsKey(FinishCommand(t, ids[0], CommandInterrupted, now), ids[1..], now);
    }
  }

  /** A worker that starts anew finds nothing running. */
  lemma Restart(w: World) returns (v: World)
    requires Grounded(w)
    ensures Leads(w, v) && Grounded(v) && v.worker.Idle? && SameIdentity(w, v) && KeepsActive(w, v)
  {
    LeadsNowhere(w);
    var dead := Go(w, w, WorkerDies);
    var ids := RunningCommands(w.tables);
    v := Go(w, dead, WorkerStarts(ids, 0.0));
    InterruptKeepsKey(w.tables, ids, 0.0);
    forall r | r in w.tables.runs && w.tables.runs[r].isActive ensures r in v.tables.runs && v.tables.runs[r].isActive {
      InterruptKeepsActive(w.tables, ids, 0.0, r);
    }
  }

  ghost function RunningCommands(t: Tables): (ids: seq<CommandId>)
    requires Coherent(t)
    ensures ListsAll(t, ids, CommandRunning)
  {
    if AnyRunning(t) then var c :| c in t.commands && t.commands[c].state.CommandRunning?; [c] else []
  }

  lemma ExpireOnePends(t: Tables, c: CommandId, now: Time, d: CommandId)
    requires t.nextCommand !in t.commands && IsPending(ExpireOne(t, c, now), d)
    ensures var u := ExpireOne(t, c, now);
      && ((IsPending(t, d) && u.commands[d] == t.commands[d]) || u.commands[d].kind.ReadNodeInformation?)
      && (NobodyResets(t) ==> IsPending(t, d) && u.commands[d] == t.commands[d])
  {
    if IsExpired(t, c, now) {
      var t1 := SetCommandState(t, c, CommandExpired);
      assert t1.runs == t.runs && (IsPending(t1, d) ==> IsPending(t, d) && t1.commands[d] == t.commands[d]);
      if NobodyResets(t) && t.commands[c].run.Some? {
        assert !HasRun(t, t.commands[c].run.value, Resetting);
      }
    }
  }

  lemma ExpireOneStaysCalm(t: Tables, c: CommandId, now: Time)
    requires NobodyResets(t)
    ensures NobodyResets(ExpireOne(t, c, now))
  {
    forall r ensures !HasRun(ExpireOne(t, c, now), r, Resetting) {
      assert !HasRun(t, r, Resetting);
    }
  }

  /** What pends after an expiry pended before, or reads the node again after a reset that may have gone out. */
  lemma {:induction false} ExpirePends(t: Tables, ids: seq<CommandId>, now: Time, d: CommandId)
    requires Coherent(t) && IsPending(ExpireEach(t, ids, now), d)
    ensures var u := ExpireEach(t, ids, now);
      && ((IsPending(t, d) && u.commands[d] == t.commands[d]) || u.commands[d].kind.ReadNodeInformation?)
      && (NobodyResets(t) ==> IsPending(t, d) && u.commands[d] == t.commands[d])
    decreases |ids|
  {
    if ids != [] {
      var t1 := ExpireOne(t, ids[0], now);
      NextIsFree(t);
      ExpireOneKeepsCoherence(t, ids[0], now);
      ExpirePends(t1, ids[1..], now, d);
      if IsPending(t1, d) {
        ExpireOnePends(t, ids[0], now, d);
      }
      if NobodyResets(t) {
        ExpireOneStaysCalm(t, ids[0], now);
      }
    }
  }

  function AllIds(t: Tables): seq<CommandId> {
    seq(t.nextCommand, i requires 0 <= i < t.nextCommand => i)
  }

  lemma AllAreListed(t: Tables, c: CommandId)
    requires Coherent(t) && c in t.commands
    ensures c in AllIds(t)
  {
    assert CommandOk(t, c);
    assert AllIds(t)[c] == c;
  }

  ghost predicate IsPast(commands: map<CommandId, NodeCommand>, now: Time) {
    forall c | c in commands :: commands[c].expiresAt <= now
  }

  /** Some time is past the expiry of every command. */
  lemma {:induction false} SomeTimeIsPast(commands: map<CommandId, NodeCommand>) returns (now: Time)
    ensures IsPast(commands, now)
    decreases |commands|
  {
    now := 0.0;
    if commands != map[] {
      var c :| c in commands;
      var rest := commands - {c};
      assert |rest.Keys| < |commands.Keys| by { assert rest.Keys == commands.Keys - {c}; }
      var before := SomeTimeIsPast(rest);
      now := if before < commands[c].expiresAt then commands[c].expiresAt else before;
      forall d | d in commands ensures commands[d].expiresAt <= now {
        assert d != c ==> d in rest;
      }
    }
  }

  /** A command left pending by an expiry past everything is a new one. */
  lemma NothingOldPends(t: Tables, now: Time, d: CommandId)
    requires Coherent(t) && IsPast(t.commands, now) && IsPending(ExpireEach(t, AllIds(t), now), d)
    ensures ExpireEach(t, AllIds(t), now).commands[d].kind.ReadNodeInformation? && !NobodyResets(t)
  {
    var u := ExpireEach(t, AllIds(t), now);
    ExpirePends(t, AllIds(t), now, d);
    ExpireLeavesNone(t, AllIds(t), now, d);
    if IsPending(t, d) && u.commands[d] == t.commands[d] {
      AllAreListed(t, d);
      assert !IsExpired(u, d, now);
    }
  }

  /** A run that waits for the worker has a command outstanding. */
  lemma WaitingHasCommand(t: Tables, r: RunId)
    requires Coherent(t) && NothingRuns(t) && r in t.runs
    requires forall c | IsPending(t, c) :: t.commands[c].kind.ReadNodeInformation?
    ensures !t.runs[r].state.Resetting? && !t.runs[r].state.Configuring?
  {
    CoherentMeans(t, r);
    forall c, kind ensures Works(t, c, r, kind) ==> kind.ReadNodeInformation? {
      assert Works(t, c, r, kind) ==> IsRunning(t, c) || IsPending(t, c);
    }
  }

  lemma {:induction false} ExpireKeepsKey(t: Tables, ids: seq<CommandId>, now: Time)
    ensures ExpireEach(t, ids, now).configuredKey == t.configuredKey
    decreases |ids|
  {
    if ids != [] {
      ExpireKeepsKey(ExpireOne(t, ids[0], now), ids[1..], now);
    }
  }

  /** Once every command is past its time, nobody waits for the worker any more. */
  lemma ExpireWaiting(start: World, w: World) returns (v: World)
    requires Leads(start, w) && Grounded(w) && w.worker.Idle?
    ensures Leads(start, v) && Grounded(v) && v.worker.Idle? && SameIdentity(w, v) && KeepsActive(w, v)
    ensures forall r | r in v.tables.runs :: !v.tables.runs[r].state.Resetting? && !v.tables.runs[r].state.Configuring?
    ensures NobodyResets(w.tables) ==> NothingPends(v.tables)
  {
    var now := SomeTimeIsPast(w.tables.commands);
    v := Go(start, w, PanelExpires(AllIds(w.tables), now));
    ExpireKeepsKey(w.tables, AllIds(w.tables), now);
    forall r | r in w.tables.runs && w.tables.runs[r].isActive ensures r in v.tables.runs && v.tables.runs[r].isActive {
      ExpireKeepsActive(w.tables, AllIds(w.tables), now, r);
    }
    forall d | IsPending(v.tables, d)
      ensures v.tables.commands[d].kind.ReadNodeInformation? && !NobodyResets(w.tables)
    {
      NothingOldPends(w.tables, now, d);
    }
    forall r | r in v.tables.runs
      ensures !v.tables.runs[r].state.Resetting? && !v.tables.runs[r].state.Configuring?
    {
      WaitingHasCommand(v.tables, r);
    }
  }

  lemma CancelEnds(t: Tables, r: RunId)
    requires Coherent(t) && NothingPends(t) && r in t.runs && t.runs[r].isActive && IsCancellable(t.runs[r].state)
    ensures var u := CancelRun(t, r);
      NothingPends(u) && !AnyActive(u) && u.configuredKey == t.configuredKey
  {
    CoherentMeans(t, r);
    forall c ensures !IsPending(CancelRun(t, r), c) {
      assert !IsPending(t, c);
    }
  }

  /** From anywhere to a clear table: restart the worker, let the commands expire and cancel the run. */
  lemma Clear(w: World) returns (v: World)
    requires Grounded(w)
    ensures Leads(w, v) && IsClear(v) && SameIdentity(w, v)
  {
    var idle := Restart(w);
    var calm := ExpireWaiting(w, idle);
    v := ExpireWaiting(w, calm);
    if r :| r in v.tables.runs && v.tables.runs[r].isActive {
      CoherentMeans(v.tables, r);
      CancelEnds(v.tables, r);
      v := Go(w, v, OperatorCancels(r));
    }
  }

  // ----- from a clear table to a board that relays ------------------------------------------------------

  /** The run waits for this command, the only one outstanding, which nobody claimed yet. */
  ghost predicate IsQueuedAlone(w: World, r: RunId, c: CommandId, kind: CommandKind, state: RunState, now: Time) {
    && Grounded(w) && w.worker.Idle? && HasRun(w.tables, r, state) && w.tables.runs[r].isActive
    && BelongsTo(w.tables, c, r) && w.tables.commands[c].kind == kind
    && IsPending(w.tables, c) && now < w.tables.commands[c].expiresAt
    && forall d | IsPending(w.tables, d) :: d == c
  }

  /** The worker has just claimed it. */
  ghost predicate IsClaimedAlone(w: World, r: RunId, c: CommandId, kind: CommandKind, state: RunState) {
    && Grounded(w) && w.worker == Claimed(c) && WorksFor(w.tables, c, r, kind, state) && w.tables.runs[r].isActive
    && NothingPends(w.tables)
  }

  /** It has done what the run waited for. */
  ghost predicate IsDone(w: World, r: RunId, c: CommandId, state: RunState) {
    && Grounded(w) && w.worker == Finishing(c) && HasRun(w.tables, r, state) && w.tables.runs[r].isActive
    && NothingPends(w.tables)
  }

  /** The operator is asked, and nothing is outstanding. */
  ghost predicate AsksOperator(w: World, r: RunId, state: RunState) {
    && Grounded(w) && w.worker.Idle? && HasRun(w.tables, r, state) && w.tables.runs[r].isActive
    && NothingPends(w.tables)
  }

  predicate SameRun(w: World, v: World, r: RunId) {
    SameIdentity(w, v) && r in w.tables.runs && r in v.tables.runs && v.tables.runs[r] == w.tables.runs[r]
  }

  lemma NoneIsRunning(t: Tables)
    requires NothingRuns(t)
    ensures !AnyRunning(t)
  {
    if c :| c in t.commands && t.commands[c].state.CommandRunning? {
      assert IsRunning(t, c);
    }
  }

  lemma Claim(start: World, w: World, r: RunId, c: CommandId, kind: CommandKind, state: RunState, now: Time)
    returns (v: World)
    requires Leads(start, w) && IsQueuedAlone(w, r, c, kind, state, now)
    ensures Leads(start, v) && IsClaimedAlone(v, r, c, kind, state) && SameRun(w, v, r)
  {
    NoneIsRunning(w.tables);
    assert forall d | d in w.tables.commands && w.tables.commands[d].state.CommandPending? :: IsPending(w.tables, d);
    v := Go(start, w, WorkerClaims([], c, now));
    assert forall d :: IsPending(v.tables, d) ==> IsPending(w.tables, d) && d != c;
  }

  lemma Succeed(start: World, w: World, r: RunId, c: CommandId, state: RunState) returns (v: World)
    requires Leads(start, w) && IsDone(w, r, c, state)
    ensures Leads(start, v) && AsksOperator(v, r, state) && SameRun(w, v, r)
  {
    v := Go(start, w, CommandSucceeds(0.0));
    assert forall d :: IsPending(v.tables, d) ==> IsPending(w.tables, d);
  }

  lemma Start(start: World, w: World) returns (v: World, r: RunId, c: CommandId)
    requires Leads(start, w) && IsClear(w)
    ensures Leads(start, v) && IsQueuedAlone(v, r, c, ReadNodeInformation, ReadingNode, 0.0) && SameIdentity(w, v)
    ensures v.tables.runs[r].originalKey.None? && v.tables.runs[r].restoredKey.None?
  {
    v := Go(start, w, OperatorStarts(0.0));
    r, c := w.tables.nextRun, w.tables.nextCommand;
    NextIsFree(w.tables);
    assert forall d :: IsPending(v.tables, d) ==> IsPending(w.tables, d) || d == c;
  }

  /** A board that changed its key since the run first read it was reset already. */
  lemma Read(start: World, w: World, r: RunId, c: CommandId) returns (v: World)
    requires Leads(start, w) && IsClaimedAlone(w, r, c, ReadNodeInformation, ReadingNode)
    ensures Leads(start, v) && SameIdentity(w, v)
    ensures var original := w.tables.runs[r].originalKey;
      IsDone(v, r, c, if original.Some? && original.value != w.board.key then AwaitingConfiguration
                      else AwaitingResetConfirmation)
    ensures v.tables.runs[r].restoredKey == w.tables.runs[r].restoredKey
  {
    var read := Go(start, w, ReadsNode);
    v := Go(start, read, RecordsRead);
    assert forall d :: IsPending(v.tables, d) ==> IsPending(w.tables, d);
  }

  lemma ConfirmReset(start: World, w: World, r: RunId) returns (v: World, c: CommandId)
    requires Leads(start, w) && AsksOperator(w, r, AwaitingResetConfirmation)
    ensures Leads(start, v) && IsQueuedAlone(v, r, c, FactoryReset, Resetting, 0.0) && SameIdentity(w, v)
    ensures v.tables.runs[r].originalKey == Some(v.board.key)
    ensures v.tables.runs[r].restoredKey == w.tables.runs[r].restoredKey
  {
    assert IsBeforeReset(w.tables, r);
    v := Go(start, w, OperatorConfirmsReset(r, true, 0.0));
    c := w.tables.nextCommand;
    NextIsFree(w.tables);
    assert forall d :: IsPending(v.tables, d) ==> IsPending(w.tables, d) || d == c;
  }

  lemma {:induction false} SomeKeyIsFresh(used: set<Key>) returns (key: Key)
    ensures key !in used && forall k | k in used :: k < key
    decreases |used|
  {
    key := 0;
    if used != {} {
      var one :| one in used;
      key := SomeKeyIsFresh(used - {one});
      key := if key <= one then one + 1 else key;
      assert forall k | k in used :: k == one || k in used - {one};
    }
  }

  /** The frame is out and the board came back under a fresh key. */
  lemma SendReset(start: World, w: World, r: RunId, c: CommandId) returns (v: World)
    requires Leads(start, w) && IsClaimedAlone(w, r, c, FactoryReset, Resetting)
    requires w.tables.runs[r].originalKey == Some(w.board.key)
    ensures Leads(start, v) && Grounded(v) && v.worker == ResetSent(c, r) && v.board.key !in w.used
    ensures v.tables == RecordProgress(w.tables, c, ProgressStep(SendResetFrame, StepRunning))
  {
    var key := SomeKeyIsFresh(w.used);
    var checked := Go(start, w, ChecksBeforeReset);
    var noted := Go(start, checked, NotesResetFrame);
    v := Go(start, noted, SendsResetFrame(true, key));
  }

  /** The run notes the key the board has now. */
  lemma NoteReset(start: World, w: World, r: RunId, c: CommandId) returns (v: World)
    requires Leads(start, w) && Grounded(w) && w.worker == ResetSent(c, r) && NothingPends(w.tables)
    requires HasRun(w.tables, r, Resetting) && w.tables.runs[r].originalKey != Some(w.board.key)
    ensures Leads(start, v) && IsDone(v, r, c, AwaitingConfiguration) && SameIdentity(w, v)
    ensures v.tables.runs[r].newKey == Some(v.board.key)
    ensures v.tables.runs[r].restoredKey == w.tables.runs[r].restoredKey
  {
    v := Go(start, w, RecordsReset);
    assert forall d :: IsPending(v.tables, d) ==> IsPending(w.tables, d);
  }

  lemma Reset(start: World, w: World, r: RunId, c: CommandId) returns (v: World)
    requires Leads(start, w) && IsClaimedAlone(w, r, c, FactoryReset, Resetting)
    requires w.tables.runs[r].originalKey == Some(w.board.key)
    ensures Leads(start, v) && IsDone(v, r, c, AwaitingConfiguration)
    ensures v.tables.runs[r].newKey == Some(v.board.key)
    ensures v.tables.configuredKey == w.tables.configuredKey
    ensures v.tables.runs[r].restoredKey == w.tables.runs[r].restoredKey
  {
    var sent := SendReset(start, w, r, c);
    assert forall d :: IsPending(sent.tables, d) ==> IsPending(w.tables, d);
    v := NoteReset(start, sent, r, c);
  }

  lemma Submit(start: World, w: World, r: RunId, restore: bool) returns (v: World, c: CommandId)
    requires Leads(start, w) && AsksOperator(w, r, AwaitingConfiguration)
    ensures Leads(start, v) && IsQueuedAlone(v, r, c, ConfigureNode, Configuring, 0.0) && SameIdentity(w, v)
    ensures v.tables.runs[r].newKey == w.tables.runs[r].newKey && v.tables.runs[r].restoreRequested == restore
    ensures v.tables.runs[r].restoredKey == w.tables.runs[r].restoredKey
  {
    v := Go(start, w, OperatorSubmits(r, restore, 0.0));
    c := w.tables.nextCommand;
    NextIsFree(w.tables);
    assert forall d :: IsPending(v.tables, d) ==> IsPending(w.tables, d) || d == c;
  }

  /** From a clear table to a freshly reset board whose configuration was submitted and claimed. */
  lemma ResetAndSubmit(start: World, w: World, restore: bool) returns (v: World, r: RunId, c: CommandId)
    requires Leads(start, w) && IsClear(w)
    ensures Leads(start, v) && IsClaimedAlone(v, r, c, ConfigureNode, Configuring)
    ensures v.tables.runs[r].newKey == Some(v.board.key) && v.tables.runs[r].restoreRequested == restore
    ensures v.tables.configuredKey == w.tables.configuredKey && v.tables.runs[r].restoredKey.None?
  {
    v, r, c := Start(start, w);
    v := Claim(start, v, r, c, ReadNodeInformation, ReadingNode, 0.0);
    v := Read(start, v, r, c);
    v := Succeed(start, v, r, c, AwaitingResetConfirmation);
    v, c := ConfirmReset(start, v, r);
    v := Claim(start, v, r, c, FactoryReset, Resetting, 0.0);
    v := Reset(start, v, r, c);
    v := Succeed(start, v, r, c, AwaitingConfiguration);
    v, c := Submit(start, v, r, restore);
    v := Claim(start, v, r, c, ConfigureNode, Configuring, 0.0);
  }

  /** Set up, read back and persisted: the relay runs on the attached board. */
  predicate Relays(w: World) {
    w.board.isConfigured && w.tables.configuredKey == Some(w.board.key)
  }

  lemma ReadBack(start: World, w: World, c: CommandId, r: RunId) returns (v: World)
    requires Leads(start, w) && Grounded(w) && w.worker == IdentitySettled(c, r, w.board.key)
    ensures Leads(start, v) && Grounded(v) && v.worker == ReadBackMatched(c, r, w.board.key)
    ensures v.board == Board(w.board.key, true)
  {
    v := Go(start, w, ReadsBack);
  }

  lemma Persist(start: World, w: World, c: CommandId, r: RunId) returns (v: World)
    requires Leads(start, w) && Grounded(w) && w.worker == ReadBackMatched(c, r, w.board.key)
    ensures Leads(start, v) && v == Act(w, PersistsConfiguration)
    ensures v.board == w.board && v.tables.configuredKey == Some(w.board.key) && HasRun(v.tables, r, RunCompleted)
  {
    v := Go(start, w, PersistsConfiguration);
  }

  lemma FinishSetup(start: World, w: World, c: CommandId, r: RunId) returns (v: World)
    requires Leads(start, w) && Grounded(w) && w.worker == IdentitySettled(c, r, w.board.key)
    ensures Leads(start, v) && Relays(v) && v.board.key == w.board.key && HasRun(v.tables, r, RunCompleted)
    ensures RelayModeFor(v.tables, Some(v.board.key)).RelayRunning?
  {
    var matched := ReadBack(start, w, c, r);
    v := Persist(start, matched, c, r);
    ConfiguredBoardRelays(matched);
  }

  lemma SettleFresh(start: World, w: World, r: RunId, c: CommandId) returns (v: World)
    requires Leads(start, w) && IsClaimedAlone(w, r, c, ConfigureNode, Configuring)
    requires !w.tables.runs[r].restoreRequested
    ensures Leads(start, v) && Grounded(v) && v.worker == IdentitySettled(c, r, v.board.key)
  {
    var checked := Go(start, w, ChecksIdentity);
    v := Go(start, checked, SettlesWithoutRestore);
  }

  lemma NoteAndImport(start: World, w: World, r: RunId, c: CommandId, key: Key) returns (v: World)
    requires Leads(start, w) && Grounded(w) && w.worker.IdentityChecked? && w.worker.command == c && w.worker.run == r
    requires HasRun(w.tables, r, Configuring) && w.tables.runs[r].restoredKey.None? && w.tables.runs[r].restoreRequested
    requires w.tables.configuredKey == Some(key)
    ensures Leads(start, v) && Grounded(v) && v.worker == ImportTried(c, r, key) && v.board.key == key
  {
    var noted := Go(start, w, NotesRestore);
    v := Go(start, noted, SendsImportFrame(true));
  }

  lemma SettleRestored(start: World, w: World, r: RunId, c: CommandId, key: Key) returns (v: World)
    requires Leads(start, w) && IsClaimedAlone(w, r, c, ConfigureNode, Configuring)
    requires w.tables.runs[r].newKey == Some(w.board.key) && w.tables.runs[r].restoreRequested
    requires w.tables.runs[r].restoredKey.None? && w.tables.configuredKey == Some(key)
    ensures Leads(start, v) && Grounded(v) && v.worker == IdentitySettled(c, r, v.board.key) && v.board.key == key
  {
    var checked := Go(start, w, ChecksIdentity);
    var tried := NoteAndImport(start, checked, r, c, key);
    v := Go(start, tried, ReadsRestoredIdentity);
  }

  /**
   No dead end: after every run of the protocol, whatever crashed, failed, expired or was cancelled,
   some continuation leaves a configured board attached and the relay running on it.
   */
  lemma RelayIsAlwaysInReach(board: Board, actions: seq<Action>)
    requires IsSetupRun(board, actions)
    ensures exists v ::
      && Leads(WorldAfter(board, actions), v)
      && Relays(v) && RelayModeFor(v.tables, Some(v.board.key)).RelayRunning?
  {
    var w := WorldAfter(board, actions);
    RunKeepsGrounded(board, actions);
    var v := Clear(w);
    var r, c;
    v, r, c := ResetAndSubmit(w, v, false);
    v := SettleFresh(w, v, r, c);
    v := FinishSetup(w, v, c, r);
  }

  /** Nor is an identity ever lost: some continuation leaves the relay running on a board with the configured key. */
  lemma IdentityIsAlwaysRestorable(board: Board, actions: seq<Action>, key: Key)
    requires IsSetupRun(board, actions) && WorldAfter(board, actions).tables.configuredKey == Some(key)
    ensures exists v ::
      && Leads(WorldAfter(board, actions), v)
      && Relays(v) && v.board.key == key && RelayModeFor(v.tables, Some(key)).RelayRunning?
  {
    var w := WorldAfter(board, actions);
    RunKeepsGrounded(board, actions);
    var v := Clear(w);
    var r, c;
    v, r, c := ResetAndSubmit(w, v, true);
    v := SettleRestored(w, v, r, c, key);
    v := FinishSetup(w, v, c, r);
  }

  // ----- every run can be completed ---------------------------------------------------------------------

  lemma FallBackKeepsActive(t: Tables, c: CommandId, now: Time, r: RunId)
    requires c in t.commands && r in t.runs && t.runs[r].isActive
    ensures r in FallBack(t, c, now).runs && FallBack(t, c, now).runs[r].isActive
  {
  }

  lemma {:induction false} ExpireKeepsActive(t: Tables, ids: seq<CommandId>, now: Time, r: RunId)
    requires r in t.runs && t.runs[r].isActive
    ensures var u := ExpireEach(t, ids, now); r in u.runs && u.runs[r].isActive
    decreases |ids|
  {
    if ids != [] {
      if IsExpired(t, ids[0], now) {
        FallBackKeepsActive(SetCommandState(t, ids[0], CommandExpired), ids[0], now, r);
      }
      ExpireKeepsActive(ExpireOne(t, ids[0], now), ids[1..], now, r);
    }
  }

  lemma {:induction false} InterruptKeepsActive(t: Tables, ids: seq<CommandId>, now: Time, r: RunId)
    requires r in t.runs && t.runs[r].isActive
    ensures var u := InterruptEach(t, ids, now); r in u.runs && u.runs[r].isActive
    decreases |ids|
  {
    if ids != [] {
      if IsRunning(t, ids[0]) {
        FallBackKeepsActive(SetCommandState(t, ids[0], CommandInterrupted), ids[0], now, r);
      }
      InterruptKeepsActive(FinishCommand(t, ids[0], CommandInterrupted, now), ids[1..], now, r);
    }
  }

  /** The run is with the operator and nothing is outstanding. */
  lemma Settle(w: World, r: RunId) returns (v: World, state: RunState)
    requires Grounded(w) && r in w.tables.runs && w.tables.runs[r].isActive
    ensures Leads(w, v) && AsksOperator(v, r, state) && IsCancellable(state)
  {
    var idle := Restart(w);
    var calm := ExpireWaiting(w, idle);
    v := ExpireWaiting(w, calm);
    CoherentMeans(v.tables, r);
    state := v.tables.runs[r].state;
  }

  lemma RetryReads(start: World, w: World, r: RunId) returns (v: World, c: CommandId)
    requires Leads(start, w) && AsksOperator(w, r, ReadingNode)
    ensures Leads(start, v) && IsQueuedAlone(v, r, c, ReadNodeInformation, ReadingNode, 0.0)
  {
    NoneIsRunning(w.tables);
    assert !CommandRuns(w.tables, r);
    v := Go(start, w, OperatorRetriesReading(r, 0.0));
    c := w.tables.nextCommand;
    NextIsFree(w.tables);
    assert forall d :: IsPending(v.tables, d) ==> IsPending(w.tables, d) || d == c;
  }

  /** Reading the node again brings the run to the reset or past it. */
  lemma ReadOn(start: World, w: World, r: RunId) returns (v: World, state: RunState)
    requires Leads(start, w) && AsksOperator(w, r, ReadingNode)
    ensures Leads(start, v) && AsksOperator(v, r, state)
    ensures state.AwaitingResetConfirmation? || state.AwaitingConfiguration?
  {
    var c;
    v, c := RetryReads(start, w, r);
    v := Claim(start, v, r, c, ReadNodeInformation, ReadingNode, 0.0);
    v := Read(start, v, r, c);
    state := v.tables.runs[r].state;
    v := Succeed(start, v, r, c, state);
  }

  lemma ResetOn(start: World, w: World, r: RunId) returns (v: World)
    requires Leads(start, w) && AsksOperator(w, r, AwaitingResetConfirmation)
    ensures Leads(start, v) && AsksOperator(v, r, AwaitingConfiguration)
  {
    var c;
    v, c := ConfirmReset(start, w, r);
    v := Claim(start, v, r, c, FactoryReset, Resetting, 0.0);
    v := Reset(start, v, r, c);
    v := Succeed(start, v, r, c, AwaitingConfiguration);
  }

  lemma ConfigureOn(start: World, w: World, r: RunId) returns (v: World)
    requires Leads(start, w) && AsksOperator(w, r, AwaitingConfiguration)
    ensures Leads(start, v) && Relays(v) && HasRun(v.tables, r, RunCompleted)
    ensures RelayModeFor(v.tables, Some(v.board.key)).RelayRunning?
  {
    var c;
    v, c := Submit(start, w, r, false);
    v := Claim(start, v, r, c, ConfigureNode, Configuring, 0.0);
    v := SettleFresh(start, v, r, c);
    v := FinishSetup(start, v, c, r);
  }

  /**
   No run is stuck: after every run of the protocol, an active setup, wherever it stands and
   whatever happened to it, can still be completed, with the relay running on the board it set up.
   */
  lemma EverySetupCanFinish(board: Board, actions: seq<Action>, r: RunId)
    requires IsSetupRun(board, actions) && r in WorldAfter(board, actions).tables.runs
    requires WorldAfter(board, actions).tables.runs[r].isActive
    ensures exists v ::
      && Leads(WorldAfter(board, actions), v) && HasRun(v.tables, r, RunCompleted)
      && Relays(v) && RelayModeFor(v.tables, Some(v.board.key)).RelayRunning?
  {
    var w := WorldAfter(board, actions);
    RunKeepsGrounded(board, actions);
    var v, state := Settle(w, r);
    if state.ReadingNode? {
      v, state := ReadOn(w, v, r);
    }
    if state.AwaitingResetConfirmation? {
      v := ResetOn(w, v, r);
    }
    v := ConfigureOn(w, v, r);
  }
}
