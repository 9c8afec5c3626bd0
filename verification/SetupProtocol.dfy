/**
 The setup protocol between the panel, the worker and one physical board, with crashes, failed and
 expired commands, lost replies, cancellations and retries at every point: a board that took the
 configured key but was not configured since its reset is never relayed through.
 */
module SetupProtocol {
  import opened Options
  import opened Times
  import opened SetupTables

  /** The attached board: its key, and whether its values were read back since the key was last written. */
  datatype Board = Board(key: Key, isConfigured: bool)

  /** Where the worker is in a command; a dead worker holds nothing. */
  datatype Worker =
    | Dead
    | Idle
    | Claimed(command: CommandId)
    | NodeRead(command: CommandId, run: RunId, key: Key)
    | ResetChecked(command: CommandId, run: RunId)
    | ResetNoted(command: CommandId, run: RunId)
    | ResetSent(command: CommandId, run: RunId)
    | IdentityChecked(command: CommandId, run: RunId, attached: Key)
    | RestoreNoted(command: CommandId, run: RunId, key: Key)
    | ImportTried(command: CommandId, run: RunId, key: Key)
    | IdentitySettled(command: CommandId, run: RunId, expected: Key)
    | ReadBackMatched(command: CommandId, run: RunId, expected: Key)
    | Finishing(command: CommandId)

  /** `used` holds every key the board ever had: a reset makes a key nobody has seen. */
  datatype World = World(tables: Tables, board: Board, used: set<Key>, worker: Worker)

  datatype Action =
    // the operator and the panel, at any time
    | OperatorStarts(now: Time)
    | OperatorRetriesReading(run: RunId, now: Time)
    | OperatorConfirmsReset(run: RunId, confirmed: bool, now: Time)
    | OperatorSubmits(run: RunId, restore: bool, now: Time)
    | OperatorCancels(run: RunId)
    | PanelExpires(ids: seq<CommandId>, now: Time)
    | PanelQueuesOther(isShort: bool, now: Time)
    // the worker process
    | WorkerDies
    | WorkerStarts(ids: seq<CommandId>, now: Time)
    | WorkerClaims(ids: seq<CommandId>, command: CommandId, now: Time)
    | CommandFails(now: Time)
    | CommandSucceeds(now: Time)
    // read_node_information
    | ReadsNode
    | RecordsRead
    // factory_reset
    | ChecksBeforeReset
    | NotesResetFrame
    | SendsResetFrame(taken: bool, freshKey: Key)
    | RecordsReset
    // configure_node
    | ChecksIdentity
    | SettlesWithoutRestore
    | NotesRestore
    | SendsImportFrame(taken: bool)
    | ReadsRestoredIdentity
    | ReadsBack
    | PersistsConfiguration

  predicate IsExecuting(w: Worker) {
    !w.Dead? && !w.Idle?
  }

  /** The command is the active run's, in the state that created it. */
  predicate MayHandle(t: Tables, c: CommandId, r: RunId, kind: CommandKind, state: RunState) {
    && BelongsTo(t, c, r)
    && t.commands[c].kind == kind
    && HasRun(t, r, state)
    && t.runs[r].isActive
  }

  /** The list of an expiry or recovery query. */
  predicate ListsAll(t: Tables, ids: seq<CommandId>, state: CommandState) {
    forall c | c in t.commands && t.commands[c].state == state :: c in ids
  }

  predicate IsOldestPending(t: Tables, c: CommandId) {
    IsPending(t, c) && forall d | d in t.commands && t.commands[d].state.CommandPending? :: c <= d
  }

  ghost predicate CanAct(w: World, a: Action) {
    match a
    case WorkerDies => true
    case WorkerStarts(ids, _) => w.worker.Dead? && ListsAll(w.tables, ids, CommandRunning)
    case WorkerClaims(ids, c, now) => w.worker.Idle? && IsOldestPending(ExpireEach(w.tables, ids, now), c)
    case CommandFails(_) => IsExecuting(w.worker)
    case CommandSucceeds(_) =>
      w.worker.Finishing?
        || (w.worker.Claimed? && w.worker.command in w.tables.commands
          && w.tables.commands[w.worker.command].kind.OtherCommand?)
    case ReadsNode =>
      && w.worker.Claimed? && w.worker.command in w.tables.commands
      && w.tables.commands[w.worker.command].kind.ReadNodeInformation? && w.tables.commands[w.worker.command].run.Some?
    case RecordsRead => w.worker.NodeRead?
    case ChecksBeforeReset =>
      && w.worker.Claimed? && w.worker.command in w.tables.commands && w.tables.commands[w.worker.command].run.Some?
      && var r := w.tables.commands[w.worker.command].run.value;
      MayHandle(w.tables, w.worker.command, r, FactoryReset, Resetting)
        && w.tables.runs[r].originalKey == Some(w.board.key)
    case NotesResetFrame => w.worker.ResetChecked?
    case SendsResetFrame(_, freshKey) => w.worker.ResetNoted? && freshKey !in w.used
    case RecordsReset =>
      w.worker.ResetSent? && w.worker.run in w.tables.runs
        && w.tables.runs[w.worker.run].originalKey != Some(w.board.key)
    case ChecksIdentity =>
      && w.worker.Claimed? && w.worker.command in w.tables.commands && w.tables.commands[w.worker.command].run.Some?
      && var r := w.tables.commands[w.worker.command].run.value;
      && MayHandle(w.tables, w.worker.command, r, ConfigureNode, Configuring)
      && (w.tables.runs[r].newKey == Some(w.board.key) || w.tables.runs[r].restoredKey == Some(w.board.key))
    case SettlesWithoutRestore =>
      && w.worker.IdentityChecked? && w.worker.run in w.tables.runs
      && (w.tables.runs[w.worker.run].restoredKey == Some(w.worker.attached)
        || !w.tables.runs[w.worker.run].restoreRequested)
    case NotesRestore =>
      && w.worker.IdentityChecked? && w.worker.run in w.tables.runs
      && w.tables.runs[w.worker.run].restoredKey != Some(w.worker.attached)
        && w.tables.runs[w.worker.run].restoreRequested
      && w.tables.configuredKey.Some?
    case SendsImportFrame(_) => w.worker.RestoreNoted?
    case ReadsRestoredIdentity => w.worker.ImportTried? && w.board.key == w.worker.key
    case ReadsBack => w.worker.IdentitySettled? && w.board.key == w.worker.expected
    case PersistsConfiguration => w.worker.ReadBackMatched?
    case _ => true
  }

  /** The key every later step of configure_node expects when nothing is restored now. */
  function SettledKey(t: Tables, r: RunId, attached: Key): Key
    requires r in t.runs
  {
    if t.runs[r].restoredKey == Some(attached) then attached
    else if t.runs[r].newKey.Some? then t.runs[r].newKey.value else attached
  }

  ghost function Act(w: World, a: Action): World {
    match a
    case OperatorStarts(now) => w.(tables := StartRun(w.tables, now))
    case OperatorRetriesReading(r, now) => w.(tables := RetryReading(w.tables, r, now))
    case OperatorConfirmsReset(r, confirmed, now) => w.(tables := ConfirmReset(w.tables, r, confirmed, now))
    case OperatorSubmits(r, restore, now) => w.(tables := SubmitConfiguration(w.tables, r, restore, now))
    case OperatorCancels(r) => w.(tables := CancelRun(w.tables, r))
    case PanelExpires(ids, now) => w.(tables := ExpireEach(w.tables, ids, now))
    case PanelQueuesOther(isShort, now) => w.(tables := CreateCommand(w.tables, OtherCommand(isShort), None, now))
    case WorkerDies => w.(worker := Dead)
    case WorkerStarts(ids, now) => w.(tables := InterruptEach(w.tables, ids, now), worker := Idle)
    case WorkerClaims(ids, c, now) =>
      var t := ExpireEach(w.tables, ids, now);
      if AnyRunning(t) then w.(tables := t) else w.(tables := ClaimOne(t, c), worker := Claimed(c))
    case CommandFails(now) =>
      if IsExecuting(w.worker)
        then w.(tables := FinishCommand(w.tables, w.worker.command, CommandFailed, now), worker := Idle) else w
    case CommandSucceeds(now) =>
      if IsExecuting(w.worker)
        then w.(tables := FinishCommand(w.tables, w.worker.command, CommandSucceeded, now), worker := Idle) else w
    case ReadsNode =>
      if w.worker.Claimed? && w.worker.command in w.tables.commands && w.tables.commands[w.worker.command].run.Some?
      then w.(worker := NodeRead(w.worker.command, w.tables.commands[w.worker.command].run.value, w.board.key)) else w
    case RecordsRead =>
      if w.worker.NodeRead?
        then w.(tables := RecordRead(w.tables, w.worker.run, w.worker.key), worker := Finishing(w.worker.command))
          else w
    case ChecksBeforeReset =>
      if w.worker.Claimed? && w.worker.command in w.tables.commands && w.tables.commands[w.worker.command].run.Some?
      then w.(worker := ResetChecked(w.worker.command, w.tables.commands[w.worker.command].run.value)) else w
    case NotesResetFrame =>
      if w.worker.ResetChecked?
      then w.(tables := RecordProgress(w.tables, w.worker.command, ProgressStep(SendResetFrame, StepRunning)),
        worker := ResetNoted(w.worker.command, w.worker.run)) else w
    case SendsResetFrame(taken, freshKey) =>
      if w.worker.ResetNoted?
      then w.(board := if taken then Board(freshKey, false) else w.board, used := if taken then w.used + {freshKey}
        else w.used,
              worker := ResetSent(w.worker.command, w.worker.run)) else w
    case RecordsReset =>
      if w.worker.ResetSent?
        then w.(tables := RecordResetSucceeded(w.tables, w.worker.run, w.board.key),
          worker := Finishing(w.worker.command)) else w
    case ChecksIdentity =>
      if w.worker.Claimed? && w.worker.command in w.tables.commands && w.tables.commands[w.worker.command].run.Some?
      then w.(worker :=
        IdentityChecked(w.worker.command, w.tables.commands[w.worker.command].run.value, w.board.key)) else w
    case SettlesWithoutRestore =>
      if w.worker.IdentityChecked? && w.worker.run in w.tables.runs
      then w.(worker :=
        IdentitySettled(w.worker.command, w.worker.run, SettledKey(w.tables, w.worker.run, w.worker.attached))) else w
    case NotesRestore =>
      if w.worker.IdentityChecked? && w.tables.configuredKey.Some?
      then w.(tables := RecordRestoreStarted(w.tables, w.worker.run, w.tables.configuredKey.value),
              worker := RestoreNoted(w.worker.command, w.worker.run, w.tables.configuredKey.value)) else w
    case SendsImportFrame(taken) =>
      if w.worker.RestoreNoted?
      then w.(board := if taken then Board(w.worker.key, false)
        else w.board, worker := ImportTried(w.worker.command, w.worker.run, w.worker.key)) else w
    case ReadsRestoredIdentity =>
      if w.worker.ImportTried? then w.(worker := IdentitySettled(w.worker.command, w.worker.run, w.worker.key)) else w
    case ReadsBack =>
      if w.worker.IdentitySettled?
      then w.(board := w.board.(isConfigured := true),
        worker := ReadBackMatched(w.worker.command, w.worker.run, w.worker.expected)) else w
    case PersistsConfiguration =>
      if w.worker.ReadBackMatched?
      then w.(tables := RecordCompleted(w.tables, w.worker.run, w.worker.expected),
        worker := Finishing(w.worker.command)) else w
  }
}
