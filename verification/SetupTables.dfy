/**
 The setup wizard's runs and the node command queue: every transaction as a function of the two
 tables and the configured key. A transaction the wizard refuses leaves the tables alone.
 */
module SetupTables {
  import opened Options
  import opened Times

  type Key = nat
  type RunId = nat
  type CommandId = nat

  datatype RunState =
    | ReadingNode
    | AwaitingResetConfirmation
    | Resetting
    | AwaitingConfiguration
    | Configuring
    | RunCompleted
    | RunAbandoned

  /** One pass of the wizard. The keys are those of the node before the reset, after it, and the one being restored. */
  datatype SetupRun = SetupRun(
    state: RunState,
    isActive: bool,
    originalKey: Option<Key>,
    newKey: Option<Key>,
    restoredKey: Option<Key>,
    restoreRequested: bool,
    lastError: Option<CommandId>)

  /** The wizard's commands, and those that concern no run, short-lived or not. */
  datatype CommandKind = ReadNodeInformation | FactoryReset | ConfigureNode | OtherCommand(isShort: bool)

  datatype CommandState =
    | CommandPending
    | CommandRunning
    | CommandSucceeded
    | CommandFailed
    | CommandInterrupted
    | CommandExpired
    | CommandCancelled

  datatype StepName = SendResetFrame | OtherStep(name: nat)
  datatype StepState = StepRunning | StepDone | StepFailed | StepSkipped
  datatype ProgressStep = ProgressStep(step: StepName, state: StepState)

  datatype NodeCommand = NodeCommand(
    kind: CommandKind,
    state: CommandState,
    run: Option<RunId>,
    expiresAt: Time,
    progress: seq<ProgressStep>)

  datatype Tables = Tables(
    runs: map<RunId, SetupRun>,
    commands: map<CommandId, NodeCommand>,
    configuredKey: Option<Key>,
    nextRun: RunId,
    nextCommand: CommandId)

  predicate IsFinal(s: RunState) {
    s.RunCompleted? || s.RunAbandoned?
  }

  /** The states in which the operator may give up. */
  predicate IsCancellable(s: RunState) {
    s.ReadingNode? || s.AwaitingResetConfirmation? || s.AwaitingConfiguration?
  }

  // ----- building blocks -----------------------------------------------------------------------------

  function Lifetime(kind: CommandKind): real {
    match kind
    case FactoryReset => 60.0
    case ConfigureNode => 60.0
    case OtherCommand(isShort) => if isShort then 60.0 else 300.0
    case ReadNodeInformation => 300.0
  }

  function CreateCommand(t: Tables, kind: CommandKind, run: Option<RunId>, now: Time): Tables {
    t.(commands := t.commands[t.nextCommand := NodeCommand(kind, CommandPending, run, now + Lifetime(kind), [])],
       nextCommand := t.nextCommand + 1)
  }

  function UpdateRun(t: Tables, r: RunId, run: SetupRun): Tables {
    t.(runs := t.runs[r := run])
  }

  /** A run's state and its activity change together. */
  function Moved(run: SetupRun, state: RunState): SetupRun {
    run.(state := state, isActive := !IsFinal(state))
  }

  function SetCommandState(t: Tables, c: CommandId, state: CommandState): Tables
    requires c in t.commands
  {
    t.(commands := t.commands[c := t.commands[c].(state := state)])
  }

  predicate HasRun(t: Tables, r: RunId, state: RunState) {
    r in t.runs && t.runs[r].state == state
  }

  predicate BelongsTo(t: Tables, c: CommandId, r: RunId) {
    c in t.commands && t.commands[c].run == Some(r)
  }

  predicate CommandRuns(t: Tables, r: RunId) {
    exists c | c in t.commands :: BelongsTo(t, c, r) && t.commands[c].state.CommandRunning?
  }

  // ----- the operator --------------------------------------------------------------------------------

  predicate AnyActive(t: Tables) {
    exists r | r in t.runs :: t.runs[r].isActive
  }

  /** A new run, reading the node; only one run is active at a time. */
  function StartRun(t: Tables, now: Time): Tables {
    if AnyActive(t) then t
    else
      var t1 := t.(runs := t.runs[t.nextRun := SetupRun(ReadingNode, true, None, None, None, false, None)],
        nextRun := t.nextRun + 1);
      CreateCommand(t1, ReadNodeInformation, Some(t.nextRun), now)
  }

  /** The pending commands of a run are cancelled. */
  function CancelPending(t: Tables, r: RunId): Tables {
    t.(commands := map c | c in t.commands ::
         if t.commands[c].run == Some(r)
           && t.commands[c].state.CommandPending? then t.commands[c].(state := CommandCancelled) else t.commands[c])
  }

  function RetryReading(t: Tables, r: RunId, now: Time): Tables {
    if !HasRun(t, r, ReadingNode) || CommandRuns(t, r) then t
    else
      var t1 := CancelPending(t, r);
      CreateCommand(UpdateRun(t1, r, t1.runs[r].(lastError := None)), ReadNodeInformation, Some(r), now)
  }

  /** `confirmed`: the operator typed the node's name. */
  function ConfirmReset(t: Tables, r: RunId, confirmed: bool, now: Time): Tables {
    if !HasRun(t, r, AwaitingResetConfirmation) || !confirmed then t
    else CreateCommand(UpdateRun(t, r, Moved(t.runs[r], Resetting).(lastError := None)), FactoryReset, Some(r), now)
  }

  function SubmitConfiguration(t: Tables, r: RunId, restore: bool, now: Time): Tables {
    if !HasRun(t, r, AwaitingConfiguration) then t
    else CreateCommand(UpdateRun(t, r,
      Moved(t.runs[r], Configuring).(restoreRequested := restore, lastError := None)), ConfigureNode, Some(r), now)
  }

  /** An abandoned run keeps the key it began to restore. */
  function CancelRun(t: Tables, r: RunId): Tables {
    if r !in t.runs || !IsCancellable(t.runs[r].state) then t
    else
      var t1 := CancelPending(t, r);
      UpdateRun(t1, r, Moved(t1.runs[r], RunAbandoned))
  }

  // ----- what the worker records ---------------------------------------------------------------------

  function CompleteReset(run: SetupRun, newKey: Key): SetupRun {
    Moved(run.(newKey := Some(newKey)), AwaitingConfiguration).(lastError := None)
  }

  /** A read: a key that changed since the run's first read means the node was reset. */
  function RecordRead(t: Tables, r: RunId, key: Key): Tables {
    if !HasRun(t, r, ReadingNode) then t
    else if t.runs[r].originalKey.Some?
      && t.runs[r].originalKey.value != key then UpdateRun(t, r, CompleteReset(t.runs[r], key))
    else UpdateRun(t, r, Moved(t.runs[r].(originalKey := Some(key)), AwaitingResetConfirmation).(lastError := None))
  }

  function RecordResetSucceeded(t: Tables, r: RunId, newKey: Key): Tables {
    if !HasRun(t, r, Resetting) || t.runs[r].originalKey == Some(newKey) then t
    else UpdateRun(t, r, CompleteReset(t.runs[r], newKey))
  }

  /** The note that precedes an import. */
  function RecordRestoreStarted(t: Tables, r: RunId, key: Key): Tables {
    if !HasRun(t, r, Configuring) then t
    else UpdateRun(t, r, t.runs[r].(restoredKey := Some(key)))
  }

  /** The configuration replaces the old one and the run completes, in one transaction. */
  function RecordCompleted(t: Tables, r: RunId, key: Key): Tables {
    if !HasRun(t, r, Configuring) then t
    else UpdateRun(t, r, Moved(t.runs[r], RunCompleted).(lastError := None)).(configuredKey := Some(key))
  }

  predicate ResetFrameNoted(c: NodeCommand) {
    exists i | 0 <= i < |c.progress| :: c.progress[i].step == SendResetFrame
  }

  predicate HasNewerCommand(t: Tables, r: RunId, c: CommandId) {
    exists d | d in t.commands :: BelongsTo(t, d, r) && d > c
  }

  /** When its latest command ends without success, a waiting run returns to the operator. */
  function FallBack(t: Tables, c: CommandId, now: Time): Tables
    requires c in t.commands
  {
    var command := t.commands[c];
    if command.run.None? || command.run.value !in t.runs || HasNewerCommand(t, command.run.value, c) then t
    else
      var r := command.run.value;
      var run := t.runs[r];
      match (command.kind, run.state)
      case (ReadNodeInformation, ReadingNode) => UpdateRun(t, r, run.(lastError := Some(c)))
      case (FactoryReset, Resetting) =>
        if !ResetFrameNoted(command) then UpdateRun(t, r, Moved(run, AwaitingResetConfirmation).(lastError := Some(c)))
        else CreateCommand(UpdateRun(t, r, Moved(run, ReadingNode).(lastError := Some(c))), ReadNodeInformation,
          Some(r), now)
      case (ConfigureNode, Configuring) => UpdateRun(t, r, Moved(run, AwaitingConfiguration).(lastError := Some(c)))
      case _ => t
  }

  // ----- the command queue ---------------------------------------------------------------------------

  predicate IsExpired(t: Tables, c: CommandId, now: Time) {
    IsPending(t, c) && t.commands[c].expiresAt <= now
  }

  function ExpireOne(t: Tables, c: CommandId, now: Time): Tables {
    if IsExpired(t, c, now)
    then FallBack(SetCommandState(t, c, CommandExpired), c, now)
    else t
  }

  function ExpireEach(t: Tables, ids: seq<CommandId>, now: Time): Tables
    decreases |ids|
  {
    if ids == [] then t else ExpireEach(ExpireOne(t, ids[0], now), ids[1..], now)
  }

  predicate AnyRunning(t: Tables) {
    exists c | c in t.commands :: t.commands[c].state.CommandRunning?
  }

  predicate IsPending(t: Tables, c: CommandId) {
    c in t.commands && t.commands[c].state.CommandPending?
  }

  /** The command runs now, unless another one does. */
  function ClaimOne(t: Tables, c: CommandId): Tables {
    if IsPending(t, c) && !AnyRunning(t) then SetCommandState(t, c, CommandRunning) else t
  }

  function ReplaceOrAppend(progress: seq<ProgressStep>, step: ProgressStep): seq<ProgressStep> {
    if progress == [] then [step]
    else if progress[0].step == step.step then [step] + ReplaceAll(progress[1..], step)
    else [progress[0]] + ReplaceOrAppend(progress[1..], step)
  }

  function ReplaceAll(progress: seq<ProgressStep>, step: ProgressStep): (r: seq<ProgressStep>)
    ensures |r| == |progress|
    ensures forall i | 0 <= i < |progress| :: r[i] == (if progress[i].step == step.step then step else progress[i])
  {
    seq(|progress|, i requires 0 <= i < |progress| => if progress[i].step == step.step then step else progress[i])
  }

  function RecordProgress(t: Tables, c: CommandId, step: ProgressStep): Tables {
    if c !in t.commands then t
    else t.(commands := t.commands[c := t.commands[c].(progress := ReplaceOrAppend(t.commands[c].progress, step))])
  }

  predicate IsUnsuccessful(s: CommandState) {
    s.CommandFailed? || s.CommandInterrupted? || s.CommandExpired?
  }

  predicate IsTerminal(s: CommandState) {
    !s.CommandPending? && !s.CommandRunning?
  }

  predicate IsRunning(t: Tables, c: CommandId) {
    c in t.commands && t.commands[c].state.CommandRunning?
  }

  /** Only a running command ends; without success, its run falls back along with it. */
  function FinishCommand(t: Tables, c: CommandId, state: CommandState, now: Time): Tables {
    if !IsRunning(t, c) || !IsTerminal(state) then t
    else
      var t1 := SetCommandState(t, c, state);
      if IsUnsuccessful(state) then FallBack(t1, c, now) else t1
  }

  /** Whatever ran when the worker died is interrupted. */
  function InterruptEach(t: Tables, ids: seq<CommandId>, now: Time): Tables
    decreases |ids|
  {
    if ids == [] then t else InterruptEach(FinishCommand(t, ids[0], CommandInterrupted, now), ids[1..], now)
  }

  // ----- the relay mode ------------------------------------------------------------------------------

  datatype RelayMode = Disconnected | SetupInProgress | NotConfigured | RelayRunning | IdentityMismatch

  /** The node settings as the relay mode sees them; a broken table is configured without a key. */
  datatype ConfiguredNode = ConfiguredNode(isConfigured: bool, publicKey: Option<Key>,
    restoredWithoutConfiguration: bool)

  predicate IsSetupInProgress(connected: Key, active: Option<SetupRun>) {
    && active.Some?
    && (|| active.value.state.Resetting? || active.value.state.Configuring?
        || active.value.newKey == Some(connected)
        || active.value.restoredKey == Some(connected))
  }

  /** First match wins; there is no connected key before a handshake has finished. */
  function DecideRelayMode(connected: Option<Key>, configured: ConfiguredNode, active: Option<SetupRun>): RelayMode {
    if connected.None? then Disconnected
    else if IsSetupInProgress(connected.value, active) then SetupInProgress
    else if !configured.isConfigured then NotConfigured
    else if configured.publicKey.Some? && connected == configured.publicKey then
      if configured.restoredWithoutConfiguration then NotConfigured else RelayRunning
    else IdentityMismatch
  }

  /** No run with this id or a later one completed. */
  predicate NoneCompletedSince(t: Tables, r: RunId) {
    forall q | q in t.runs && t.runs[q].state.RunCompleted? :: q < r
  }

  /** A run was abandoned after it began to restore this key, and no run completed since. */
  predicate RestoredWithoutConfiguration(t: Tables, key: Key) {
    exists r | r in t.runs ::
      t.runs[r].state.RunAbandoned? && t.runs[r].restoredKey == Some(key) && NoneCompletedSince(t, r)
  }

  function LoadConfiguredNode(t: Tables): ConfiguredNode {
    match t.configuredKey
    case None => ConfiguredNode(false, None, false)
    case Some(key) => ConfiguredNode(true, Some(key), RestoredWithoutConfiguration(t, key))
  }

  ghost function ActiveRun(t: Tables): (r: Option<SetupRun>)
    ensures r.Some? ==> exists id | id in t.runs :: t.runs[id].isActive && t.runs[id] == r.value
    ensures r.None? ==> forall id | id in t.runs :: !t.runs[id].isActive
  {
    if AnyActive(t) then var id :| id in t.runs && t.runs[id].isActive; Some(t.runs[id]) else None
  }

  ghost function RelayModeFor(t: Tables, connected: Option<Key>): RelayMode {
    DecideRelayMode(connected, LoadConfiguredNode(t), ActiveRun(t))
  }
}
