/** A run that asks for the reset, or waits for it, has read the board that is attached. */
module SetupReadings {
  import opened Options
  import opened Times
  import opened SetupTables
  import opened SetupCoherence
  import opened SetupProtocol
  import opened SetupSafety
  import opened RelayModes

  /** A reset command of the run is under way and its frame is not out. */
  ghost predicate ResetIsAhead(t: Tables, r: RunId) {
    exists c :: Works(t, c, r, FactoryReset) && !ResetFrameNoted(t.commands[c])
  }

  /** The run asks the operator for the reset, or waits for one whose frame is not out. */
  ghost predicate IsBeforeReset(t: Tables, r: RunId) {
    || HasRun(t, r, AwaitingResetConfirmation)
    || (HasRun(t, r, Resetting) && ResetIsAhead(t, r))
  }

  /** Such a run has read the attached board, and whoever sent the reset frame noted it before. */
  ghost predicate HasReadBoard(w: World) {
    && (forall r | IsBeforeReset(w.tables, r) :: w.tables.runs[r].originalKey == Some(w.board.key))
    && (w.worker.ResetNoted? || w.worker.ResetSent? ==>
          w.worker.command in w.tables.commands && ResetFrameNoted(w.tables.commands[w.worker.command]))
  }

  /** Whatever run is before its reset afterwards was so before, with the key it had read. */
  ghost predicate KeepsReadings(t: Tables, u: Tables) {
    forall r | IsBeforeReset(u, r) :: IsBeforeReset(t, r) && u.runs[r].originalKey == t.runs[r].originalKey
  }

  lemma KeepsReadingsTransitive(t: Tables, u: Tables, v: Tables)
    requires KeepsReadings(t, u) && KeepsReadings(u, v)
    ensures KeepsReadings(t, v)
  {
    forall r | IsBeforeReset(v, r) ensures IsBeforeReset(t, r) && v.runs[r].originalKey == t.runs[r].originalKey {
      assert IsBeforeReset(u, r);
    }
  }

  /** Commands that work on resets afterwards did so before, and noted frames stay noted. */
  ghost predicate AddsNoReset(t: Tables, u: Tables, r: RunId) {
    forall c | Works(u, c, r, FactoryReset) && !ResetFrameNoted(u.commands[c]) ::
      Works(t, c, r, FactoryReset) && !ResetFrameNoted(t.commands[c])
  }

  lemma ReadingsKept(t: Tables, u: Tables)
    requires forall r | IsBeforeReset(u, r) ::
      && r in t.runs && u.runs[r].originalKey == t.runs[r].originalKey
      && (IsBeforeReset(t, r) || (t.runs[r].state == u.runs[r].state && AddsNoReset(t, u, r)))
    ensures KeepsReadings(t, u)
  {
    forall r | IsBeforeReset(u, r) ensures IsBeforeReset(t, r) {
      assert AddsNoReset(t, u, r) && ResetIsAhead(u, r) ==> ResetIsAhead(t, r);
    }
  }

  lemma FallBackKeepsReadings(t: Tables, c: CommandId, ended: CommandState, now: Time)
    requires Coherent(t) && c in t.commands && IsOutstanding(t.commands[c]) && IsTerminal(ended)
    ensures KeepsReadings(t, FallBack(SetCommandState(t, c, ended), c, now))
  {
    var t1 := SetCommandState(t, c, ended);
    var u := FallBack(t1, c, now);
    NextIsFree(t);
    forall r | IsBeforeReset(u, r)
      ensures r in t.runs && u.runs[r].originalKey == t.runs[r].originalKey
      ensures IsBeforeReset(t, r) || (t.runs[r].state == u.runs[r].state && AddsNoReset(t, u, r))
    {
      FallBackAtRun(t, c, ended, now, r);
      FallBackAddsNoReset(t, c, ended, now, r);
    }
    ReadingsKept(t, u);
  }

  lemma FallBackWorks(t: Tables, c: CommandId, now: Time, r: RunId, d: CommandId)
    requires c in t.commands && t.nextCommand !in t.commands && Works(FallBack(t, c, now), d, r, FactoryReset)
    ensures Works(t, d, r, FactoryReset) && FallBack(t, c, now).commands[d] == t.commands[d]
  {
  }

  lemma FallBackAddsNoReset(t: Tables, c: CommandId, ended: CommandState, now: Time, r: RunId)
    requires c in t.commands && IsTerminal(ended) && t.nextCommand !in t.commands
    ensures AddsNoReset(t, FallBack(SetCommandState(t, c, ended), c, now), r)
  {
    var t1 := SetCommandState(t, c, ended);
    var u := FallBack(t1, c, now);
    forall d | Works(u, d, r, FactoryReset) && !ResetFrameNoted(u.commands[d])
      ensures Works(t, d, r, FactoryReset) && !ResetFrameNoted(t.commands[d])
    {
      FallBackWorks(t1, c, now, r, d);
    }
  }

  lemma FallBackAtRun(t: Tables, c: CommandId, ended: CommandState, now: Time, r: RunId)
    requires c in t.commands && IsOutstanding(t.commands[c]) && t.nextCommand !in t.commands
    requires IsBeforeReset(FallBack(SetCommandState(t, c, ended), c, now), r)
    ensures var u := FallBack(SetCommandState(t, c, ended), c, now);
      && r in t.runs && u.runs[r].originalKey == t.runs[r].originalKey
      && (t.runs[r].state == u.runs[r].state || IsBeforeReset(t, r))
  {
    var u := FallBack(SetCommandState(t, c, ended), c, now);
    if t.runs[r].state != u.runs[r].state {
      assert Works(t, c, r, FactoryReset) && !ResetFrameNoted(t.commands[c]);
    }
  }

  lemma {:induction false} ExpireKeepsReadings(t: Tables, ids: seq<CommandId>, now: Time)
    requires Coherent(t)
    ensures KeepsReadings(t, ExpireEach(t, ids, now))
    decreases |ids|
  {
    if ids != [] {
      if IsExpired(t, ids[0], now) {
        FallBackKeepsReadings(t, ids[0], CommandExpired, now);
      }
      ExpireOneKeepsCoherence(t, ids[0], now);
      ExpireKeepsReadings(ExpireOne(t, ids[0], now), ids[1..], now);
      KeepsReadingsTransitive(t, ExpireOne(t, ids[0], now), ExpireEach(t, ids, now));
    }
  }

  lemma FinishKeepsReadings(t: Tables, c: CommandId, state: CommandState, now: Time)
    requires Coherent(t)
    ensures KeepsReadings(t, FinishCommand(t, c, state, now))
  {
    if IsRunning(t, c) && IsTerminal(state) {
      if IsUnsuccessful(state) {
        FallBackKeepsReadings(t, c, state, now);
      } else {
        ReadingsKept(t, SetCommandState(t, c, state));
      }
    }
  }

  lemma {:induction false} InterruptKeepsReadings(t: Tables, ids: seq<CommandId>, now: Time)
    requires Coherent(t)
    ensures KeepsReadings(t, InterruptEach(t, ids, now))
    decreases |ids|
  {
    if ids != [] {
      var t1 := FinishCommand(t, ids[0], CommandInterrupted, now);
      FinishKeepsReadings(t, ids[0], CommandInterrupted, now);
      FinishKeepsCoherence(t, ids[0], CommandInterrupted, now);
      InterruptKeepsReadings(t1, ids[1..], now);
      KeepsReadingsTransitive(t, t1, InterruptEach(t, ids, now));
    }
  }

  lemma ConfirmKeepsReadings(t: Tables, r: RunId, confirmed: bool, now: Time)
    requires Coherent(t)
    ensures KeepsReadings(t, SetupTables.ConfirmReset(t, r, confirmed, now))
  {
    NextIsFree(t);
    assert HasRun(t, r, AwaitingResetConfirmation) ==> IsBeforeReset(t, r);
    ReadingsKept(t, SetupTables.ConfirmReset(t, r, confirmed, now));
  }

  lemma SubmitKeepsReadings(t: Tables, r: RunId, restore: bool, now: Time)
    requires Coherent(t)
    ensures KeepsReadings(t, SubmitConfiguration(t, r, restore, now))
  {
    NextIsFree(t);
    ReadingsKept(t, SubmitConfiguration(t, r, restore, now));
  }

  lemma RetryKeepsReadings(t: Tables, r: RunId, now: Time)
    requires Coherent(t)
    ensures KeepsReadings(t, RetryReading(t, r, now))
  {
    NextIsFree(t);
    ReadingsKept(t, RetryReading(t, r, now));
  }

  lemma StartKeepsReadings(t: Tables, now: Time)
    requires Coherent(t)
    ensures KeepsReadings(t, StartRun(t, now))
  {
    NextIsFree(t);
    ReadingsKept(t, StartRun(t, now));
  }

  lemma CancelKeepsReadings(t: Tables, r: RunId)
    ensures KeepsReadings(t, CancelRun(t, r))
  {
    ReadingsKept(t, CancelRun(t, r));
  }

  lemma OtherKeepsReadings(t: Tables, isShort: bool, now: Time)
    requires Coherent(t)
    ensures KeepsReadings(t, CreateCommand(t, OtherCommand(isShort), None, now))
  {
    NextIsFree(t);
    ReadingsKept(t, CreateCommand(t, OtherCommand(isShort), None, now));
  }

  lemma OperatorTablesKeepReadings(w: World, a: Action)
    requires Coherent(w.tables)
    requires a.OperatorStarts? || a.OperatorRetriesReading? || a.OperatorConfirmsReset? || a.OperatorSubmits?
      || a.OperatorCancels? || a.PanelExpires? || a.PanelQueuesOther?
    ensures KeepsReadings(w.tables, Act(w, a).tables)
  {
    match a
    case OperatorStarts(now) => StartKeepsReadings(w.tables, now);
    case OperatorRetriesReading(r, now) => RetryKeepsReadings(w.tables, r, now);
    case OperatorConfirmsReset(r, confirmed, now) => ConfirmKeepsReadings(w.tables, r, confirmed, now);
    case OperatorSubmits(r, restore, now) => SubmitKeepsReadings(w.tables, r, restore, now);
    case OperatorCancels(r) => CancelKeepsReadings(w.tables, r);
    case PanelExpires(ids, now) => ExpireKeepsReadings(w.tables, ids, now);
    case PanelQueuesOther(isShort, now) => OtherKeepsReadings(w.tables, isShort, now);
  }

  lemma ReadingsStay(w: World, u: Tables)
    requires WorkerOk(w) && HasReadBoard(w) && KeepsReadings(w.tables, u) && Steady(w.tables, u)
    ensures HasReadBoard(w.(tables := u))
  {
  }

  lemma OperatorKeepsReadings(w: World, a: Action)
    requires SetupInv(w) && HasReadBoard(w)
    requires a.OperatorStarts? || a.OperatorRetriesReading? || a.OperatorConfirmsReset? || a.OperatorSubmits?
      || a.OperatorCancels? || a.PanelExpires? || a.PanelQueuesOther?
    ensures HasReadBoard(Act(w, a))
  {
    OperatorIsSteady(w, a);
    OperatorTablesKeepReadings(w, a);
    ReadingsStay(w, Act(w, a).tables);
  }

  lemma ClaimKeepsReadings(t: Tables, c: CommandId)
    ensures KeepsReadings(t, ClaimOne(t, c))
  {
    ReadingsKept(t, ClaimOne(t, c));
  }

  lemma ProcessKeepsReadings(w: World, a: Action)
    requires SetupInv(w) && HasReadBoard(w) && CanAct(w, a)
    requires a.WorkerDies? || a.WorkerStarts? || a.WorkerClaims? || a.CommandFails? || a.CommandSucceeds?
    ensures HasReadBoard(Act(w, a))
  {
    match a
    case WorkerDies =>
    case WorkerStarts(ids, now) => InterruptKeepsReadings(w.tables, ids, now);
    case WorkerClaims(ids, c, now) =>
      var t := ExpireEach(w.tables, ids, now);
      ExpireKeepsReadings(w.tables, ids, now);
      ClaimKeepsReadings(t, c);
      KeepsReadingsTransitive(w.tables, t, ClaimOne(t, c));
    case CommandFails(now) => FinishKeepsReadings(w.tables, w.worker.command, CommandFailed, now);
    case CommandSucceeds(now) => FinishKeepsReadings(w.tables, w.worker.command, CommandSucceeded, now);
  }

  // ----- the worker's own steps -----------------------------------------------------------------------------

  lemma RecordedReading(t: Tables, r: RunId, key: Key, q: RunId)
    requires IsBeforeReset(RecordRead(t, r, key), q)
    ensures var u := RecordRead(t, r, key);
      || u.runs[q].originalKey == Some(key)
      || (IsBeforeReset(t, q) && u.runs[q].originalKey == t.runs[q].originalKey)
  {
    var u := RecordRead(t, r, key);
    assert u.commands == t.commands;
    if HasRun(u, q, Resetting) {
      var c :| Works(u, c, q, FactoryReset) && !ResetFrameNoted(u.commands[c]);
      assert Works(t, c, q, FactoryReset);
    }
  }

  lemma ReadingIsOfBoard(w: World)
    requires HasReadBoard(w) && SeesBoard(w) && CanAct(w, RecordsRead)
    ensures HasReadBoard(Act(w, RecordsRead))
  {
    var u := RecordRead(w.tables, w.worker.run, w.worker.key);
    forall q | IsBeforeReset(u, q) ensures u.runs[q].originalKey == Some(w.board.key) {
      RecordedReading(w.tables, w.worker.run, w.worker.key, q);
    }
  }

  lemma {:induction false} NotedFrameIsThere(progress: seq<ProgressStep>, step: ProgressStep) returns (i: nat)
    ensures var shown := ReplaceOrAppend(progress, step);
      i < |shown| && shown[i] == step
    decreases |progress|
  {
    if progress == [] || progress[0].step == step.step {
      i := 0;
    } else {
      i := NotedFrameIsThere(progress[1..], step);
      i := i + 1;
    }
  }

  lemma NoteKeepsReadings(w: World)
    requires SetupInv(w) && HasReadBoard(w) && CanAct(w, NotesResetFrame)
    ensures HasReadBoard(Act(w, NotesResetFrame))
  {
    var c := w.worker.command;
    var u := RecordProgress(w.tables, c, ProgressStep(SendResetFrame, StepRunning));
    var i := NotedFrameIsThere(w.tables.commands[c].progress, ProgressStep(SendResetFrame, StepRunning));
    assert u.commands[c].progress[i].step == SendResetFrame;
    assert ResetFrameNoted(u.commands[c]);
    ReadingsKept(w.tables, u);
  }

  /** Once the frame is noted, nobody is before a reset any more. */
  lemma NotedIsNotBefore(t: Tables, c: CommandId, r: RunId, q: RunId)
    requires Coherent(t) && WorksFor(t, c, r, FactoryReset, Resetting) && ResetFrameNoted(t.commands[c])
    ensures !IsBeforeReset(t, q)
  {
    assert QueueOk(t, r) && Works(t, c, r, FactoryReset);
    assert forall d :: Works(t, d, r, FactoryReset) ==> d == c;
    CoherentMeans(t, r);
    if q in t.runs {
      CoherentMeans(t, q);
    }
  }

  lemma ConfiguringIsNotBefore(t: Tables, r: RunId, q: RunId)
    requires Coherent(t) && HasRun(t, r, Configuring)
    ensures !IsBeforeReset(t, q)
  {
    CoherentMeans(t, r);
    if q in t.runs {
      CoherentMeans(t, q);
    }
  }

  lemma SendingKeepsReadings(w: World, a: Action)
    requires SetupInv(w) && HasReadBoard(w) && CanAct(w, a) && (a.SendsResetFrame? || a.SendsImportFrame?)
    ensures HasReadBoard(Act(w, a))
  {
    forall r ensures !IsBeforeReset(w.tables, r) {
      if a.SendsResetFrame? {
        NotedIsNotBefore(w.tables, w.worker.command, w.worker.run, r);
      } else {
        ConfiguringIsNotBefore(w.tables, w.worker.run, r);
      }
    }
  }

  lemma RecordsKeepReadings(t: Tables, r: RunId, key: Key)
    ensures KeepsReadings(t, RecordResetSucceeded(t, r, key))
    ensures KeepsReadings(t, RecordRestoreStarted(t, r, key))
    ensures KeepsReadings(t, RecordCompleted(t, r, key))
  {
    ReadingsKept(t, RecordResetSucceeded(t, r, key));
    ReadingsKept(t, RecordRestoreStarted(t, r, key));
    ReadingsKept(t, RecordCompleted(t, r, key));
  }

  lemma RecordingKeepsReadings(w: World, a: Action)
    requires HasReadBoard(w) && CanAct(w, a) && (a.RecordsReset? || a.NotesRestore? || a.PersistsConfiguration?)
    ensures HasReadBoard(Act(w, a))
  {
    match a
    case RecordsReset => RecordsKeepReadings(w.tables, w.worker.run, w.board.key);
    case NotesRestore => RecordsKeepReadings(w.tables, w.worker.run, w.tables.configuredKey.value);
    case PersistsConfiguration => RecordsKeepReadings(w.tables, w.worker.run, w.worker.expected);
  }

  lemma ActionKeepsReadings(w: World, a: Action)
    requires SetupInv(w) && HasReadBoard(w) && SeesBoard(w) && CanAct(w, a)
    ensures HasReadBoard(Act(w, a))
  {
    if a.WorkerDies? || a.WorkerStarts? || a.WorkerClaims? || a.CommandFails? || a.CommandSucceeds? {
      ProcessKeepsReadings(w, a);
    } else if a.RecordsRead? {
      ReadingIsOfBoard(w);
    } else if a.NotesResetFrame? {
      NoteKeepsReadings(w);
    } else if a.SendsResetFrame? || a.SendsImportFrame? {
      SendingKeepsReadings(w, a);
    } else if a.RecordsReset? || a.NotesRestore? || a.PersistsConfiguration? {
      RecordingKeepsReadings(w, a);
    } else if a.OperatorStarts? || a.OperatorRetriesReading? || a.OperatorConfirmsReset? || a.OperatorSubmits?
      || a.OperatorCancels? || a.PanelExpires? || a.PanelQueuesOther? {
      OperatorKeepsReadings(w, a);
    }
  }
}
