/** What K, R and C must do, and what only they can do, said about the request and the tables alone. */
module ReportAnswers {
  import opened Options
  import opened Times
  import opened RetrySchedule
  import opened Tables
  import opened DeliveryRows
  import opened ReceiptRows
  import opened Transitions
  import opened Invariants
  import opened StepProofs
  import opened RowEffects
  import opened MessageEffects

  /** The device is that of the user the accepted message is for. */
  predicate IsForDevice(s: State, device: DeviceId, key: MessageKey) {
    && key in s.messages && s.messages[key].acceptedAt.Some?
    && device in s.devices && s.devices[device].user == Some(s.messages[key].recipient)
  }

  // ----- K --------------------------------------------------------------------------------------------

  /** A status of the right length about a message that may still be delivered to the device. */
  predicate StatusCounts(s: State, device: DeviceId, key: MessageKey, received: seq<bool>) {
    && IsForDevice(s, device, key)
    && |received| == |s.messages[key].partTexts|
    && RowKey(key, device) in s.deliveries
    && var state := s.deliveries[RowKey(key, device)].state;
    state.Pending? || state.Queued? || state.Failed?
  }

  predicate AllReported(received: seq<bool>) {
    forall i | 0 <= i < |received| :: received[i]
  }

  /** The row holds what was reported: delivered with all ones, otherwise in the state it had. */
  ghost predicate TakesReport(s: State, t: State, k: RowKey, received: seq<bool>) {
    && k in s.deliveries && k in t.deliveries
    && (forall i: nat :: i in t.deliveries[k].receivedParts <==> 1 <= i <= |received| && received[i - 1])
    && t.deliveries[k].state == (if AllReported(received) then Delivered else s.deliveries[k].state)
    && (AllReported(received) ==> k.message in t.messages && t.messages[k.message].deliveredAt.Some?)
  }

  lemma ReportedAll(received: seq<bool>)
    ensures Reported(received) == AllParts(|received|) <==> AllReported(received)
  {
    if Reported(received) == AllParts(|received|) {
      AllOnes(received);
    }
  }

  lemma FullStatusTaken(s: State, k: RowKey, received: seq<bool>, cfg: Settings, clock: Time, now: Time)
    requires Inv(s, clock) && k in s.deliveries && s.deliveries[k].Live() && k.message in s.messages
    requires AllReported(received) && |received| == |s.messages[k.message].partTexts|
    ensures k.message in Deliver(s, k, Some(Reported(received)), cfg, now).messages
    ensures TakesReport(s,
      ConfirmMessage(Deliver(s, k, Some(Reported(received)), cfg, now), k.message, false, cfg, now),
      k, received)
  {
    DeliverAtItsRow(s, k, Some(Reported(received)), cfg, now);
    DeliverTouchesRowsAndSessions(s, k, Some(Reported(received)), cfg, now);
    ConfirmTouchesNoDelivery(Deliver(s, k, Some(Reported(received)), cfg, now), k.message, false, cfg, now);
  }

  lemma PartialStatusTaken(s: State, k: RowKey, received: seq<bool>, cfg: Settings, now: Time)
    requires k in s.deliveries && s.deliveries[k].Live() && !AllReported(received)
    ensures TakesReport(s, UpdateDelivery(s, k,
      IncompleteStatus(s.deliveries[k], Reported(received), RoundSuggestion(s, k, s.deliveries[k]), cfg, now)), k,
        received)
  {
    IncompleteAtItsRow(s.deliveries[k], Reported(received), RoundSuggestion(s, k, s.deliveries[k]), cfg, now);
  }

  lemma StatusCountsIs(s: State, device: DeviceId, sender: Option<UserId>, clientId: nat, received: seq<bool>)
    ensures StatusApplies(s, device, sender, clientId, received) <==>
      sender.Some? && StatusCounts(s, device, MessageKey(sender.value, clientId), received)
  {
  }

  lemma CountingStatusTaken(s: State, device: DeviceId, sender: UserId, clientId: nat, received: seq<bool>,
                            cfg: Settings, clock: Time, now: Time)
    requires Inv(s, clock) && StatusCounts(s, device, MessageKey(sender, clientId), received)
    ensures TakesReport(s, RecordStatus(s, device, Some(sender), clientId, received, cfg, now),
      RowKey(MessageKey(sender, clientId), device), received)
  {
    var k := RowKey(MessageKey(sender, clientId), device);
    StatusCountsIs(s, device, Some(sender), clientId, received);
    ReportedAll(received);
    if AllReported(received) {
      FullStatusTaken(s, k, received, cfg, clock, now);
    } else {
      PartialStatusTaken(s, k, received, cfg, now);
    }
  }

  /** A status that counts becomes the row's received set and, with all ones, delivers it; any other changes nothing. */
  lemma StatusTakesEffect(s: State, device: DeviceId, sender: Option<UserId>, clientId: nat, received: seq<bool>,
                          cfg: Settings, clock: Time, now: Time)
    requires Inv(s, clock)
    ensures var t := RecordStatus(s, device, sender, clientId, received, cfg, now);
      if sender.Some? && StatusCounts(s, device, MessageKey(sender.value, clientId), received)
      then TakesReport(s, t, RowKey(MessageKey(sender.value, clientId), device), received)
      else t == s
  {
    StatusCountsIs(s, device, sender, clientId, received);
    if StatusApplies(s, device, sender, clientId, received) {
      CountingStatusTaken(s, device, sender.value, clientId, received, cfg, clock, now);
    }
  }

  /**
   When a round that a report has emptied is over: pause and wait count from its last send, or from
   now without one.
   */
  function RoundOver(d: Delivery, suggestion: Option<nat>, cfg: Settings, now: Time): Time {
    var sentInRound := d.lastSentAt.Some? && d.roundStartedAt.Some? && d.roundStartedAt.value <= d.lastSentAt.value;
    var from := if sentInRound then d.lastSentAt.value else now;
    if RetryPause(d.attemptCount, cfg) <= AcknowledgementWait(suggestion, cfg)
    then from + AcknowledgementWait(suggestion, cfg)
    else from + RetryPause(d.attemptCount, cfg)
  }

  /**
   When a pending row is due after an incomplete report. The report may empty the round; without
   any part left to send, the row is due soon if it has an attempt left, and otherwise when the
   round is over.
   */
  predicate IsDueAfterReport(d: Delivery, e: Delivery, parts: set<nat>, suggestion: Option<nat>, cfg: Settings,
                             now: Time) {
    var due := if d.roundParts != {} && d.roundParts <= parts then Some(RoundOver(d, suggestion, cfg, now))
               else d.nextAttemptAt;
    var soon := now + cfg.missingPartsDelay;
    if d.roundParts <= parts && d.attemptCount < d.maximumAttempts
    then e.nextAttemptAt == (if due.Some? && due.value <= soon then due else Some(soon))
    else e.nextAttemptAt == due
  }

  lemma DueAfterIncomplete(d: Delivery, parts: set<nat>, suggestion: Option<nat>, cfg: Settings, now: Time)
    requires d.state.Pending?
    ensures var e := IncompleteStatus(d, parts, suggestion, cfg, now);
      && IsDueAfterReport(d, e, parts, suggestion, cfg, now)
      && e == d.(receivedParts := parts, roundParts := d.roundParts - parts, nextAttemptAt := e.nextAttemptAt)
  {
    if d.roundParts - parts == {} {
      assert forall i | i in d.roundParts :: i in parts || i in d.roundParts - parts;
    }
  }

  /**
   An incomplete report changes its row alone: what it holds and, if it is pending, what is left
   and when it is due.
   */
  lemma IncompleteStatusChanges(s: State, device: DeviceId, key: MessageKey, received: seq<bool>, cfg: Settings,
                                now: Time)
    requires StatusCounts(s, device, key, received) && !AllReported(received)
    ensures var k := RowKey(key, device);
      var d := s.deliveries[k];
      var t := RecordStatus(s, device, Some(key.sender), key.clientId, received, cfg, now);
      && k in t.deliveries && t == s.(deliveries := s.deliveries[k := t.deliveries[k]])
      && (if d.state.Pending?
          then IsDueAfterReport(d, t.deliveries[k], Reported(received), RoundSuggestion(s, k, d), cfg, now)
               && t.deliveries[k]
                 == d.(receivedParts := Reported(received), roundParts := d.roundParts - Reported(received),
                                        nextAttemptAt := t.deliveries[k].nextAttemptAt)
          else t.deliveries[k] == d.(receivedParts := Reported(received)))
  {
    var k := RowKey(key, device);
    StatusCountsIs(s, device, Some(key.sender), key.clientId, received);
    ReportedAll(received);
    if s.deliveries[k].state.Pending? {
      DueAfterIncomplete(s.deliveries[k], Reported(received), RoundSuggestion(s, k, s.deliveries[k]), cfg, now);
    }
  }

  // ----- R --------------------------------------------------------------------------------------------

  /** The message was read, so it was delivered; its first times stay, and nothing of it is live on the device. */
  predicate TakesRead(s: State, t: State, key: MessageKey, device: DeviceId, now: Time) {
    && key in s.messages && key in t.messages
    && t.messages[key].readAt == (if s.messages[key].readAt.Some? then s.messages[key].readAt else Some(now))
    && t.messages[key].deliveredAt ==
         (if s.messages[key].deliveredAt.Some? then s.messages[key].deliveredAt else Some(now))
    && (RowKey(key, device) in t.deliveries ==> !t.deliveries[RowKey(key, device)].Live())
  }

  lemma ConfirmMarksRead(s: State, key: MessageKey, cfg: Settings, now: Time, device: DeviceId)
    requires key in s.messages && (s.messages[key].readAt.Some? ==> s.messages[key].deliveredAt.Some?)
    requires RowKey(key, device) in s.deliveries ==> !s.deliveries[RowKey(key, device)].Live()
    ensures TakesRead(s, ConfirmMessage(s, key, true, cfg, now), key, device, now)
  {
    ConfirmTouchesNoDelivery(s, key, true, cfg, now);
  }

  lemma LiveReadTaken(s: State, k: RowKey, cfg: Settings, now: Time)
    requires k in s.deliveries && s.deliveries[k].Live() && k.message in s.messages
    requires s.messages[k.message].readAt.Some? ==> s.messages[k.message].deliveredAt.Some?
    ensures k.message in Deliver(s, k, None, cfg, now).messages
    ensures TakesRead(s, ConfirmMessage(Deliver(s, k, None, cfg, now), k.message, true, cfg, now), k.message,
      k.device, now)
  {
    DeliverAtItsRow(s, k, None, cfg, now);
    DeliverTouchesRowsAndSessions(s, k, None, cfg, now);
    ConfirmMarksRead(Deliver(s, k, None, cfg, now), k.message, cfg, now, k.device);
  }

  lemma ReadImpliesDelivered(s: State, key: MessageKey, clock: Time)
    requires Inv(s, clock) && key in s.messages
    ensures s.messages[key].readAt.Some? ==> s.messages[key].deliveredAt.Some?
  {
    assert MessageOk(key.sender, s.messages[key], s.nextMessageId, clock);
  }

  lemma ReadIsConfirmed(s: State, device: DeviceId, key: MessageKey, cfg: Settings, now: Time)
    requires IsForDevice(s, device, key)
    ensures var k := RowKey(key, device);
      if k in s.deliveries && s.deliveries[k].Live()
      then key in Deliver(s, k, None, cfg, now).messages
           && RecordRead(s, device, Some(key.sender), key.clientId, cfg, now)
              == ConfirmMessage(Deliver(s, k, None, cfg, now), key, true, cfg, now)
      else RecordRead(s, device, Some(key.sender), key.clientId, cfg, now) == ConfirmMessage(s, key, true, cfg, now)
  {
    if RowKey(key, device) in s.deliveries {
      DeliverTouchesRowsAndSessions(s, RowKey(key, device), None, cfg, now);
    }
  }

  lemma CountingReadTaken(s: State, device: DeviceId, sender: UserId, clientId: nat, cfg: Settings, clock: Time,
                          now: Time)
    requires Inv(s, clock) && IsForDevice(s, device, MessageKey(sender, clientId))
    ensures TakesRead(s, RecordRead(s, device, Some(sender), clientId, cfg, now), MessageKey(sender, clientId),
      device, now)
  {
    var key := MessageKey(sender, clientId);
    ReadImpliesDelivered(s, key, clock);
    ReadIsConfirmed(s, device, key, cfg, now);
    if RowKey(key, device) in s.deliveries && s.deliveries[RowKey(key, device)].Live() {
      LiveReadTaken(s, RowKey(key, device), cfg, now);
    } else {
      ConfirmMarksRead(s, key, cfg, now, device);
    }
  }

  /** A read of a message for the device's user marks it read; any other changes nothing. */
  lemma ReadTakesEffect(s: State, device: DeviceId, sender: Option<UserId>, clientId: nat, cfg: Settings, clock: Time,
                        now: Time)
    requires Inv(s, clock)
    ensures var t := RecordRead(s, device, sender, clientId, cfg, now);
      if sender.Some? && IsForDevice(s, device, MessageKey(sender.value, clientId))
      then TakesRead(s, t, MessageKey(sender.value, clientId), device, now)
      else t == s
  {
    if sender.Some? && IsForDevice(s, device, MessageKey(sender.value, clientId)) {
      CountingReadTaken(s, device, sender.value, clientId, cfg, clock, now);
    }
  }

  // ----- C --------------------------------------------------------------------------------------------

  /** The device's user sent the accepted message to that recipient, and this device has a receipt of it still open. */
  predicate ConfirmationCounts(s: State, device: DeviceId, recipient: Option<UserId>, key: MessageKey) {
    && device in s.devices && s.devices[device].user == Some(key.sender)
    && key in s.messages && s.messages[key].acceptedAt.Some? && recipient == Some(s.messages[key].recipient)
    && RowKey(key, device) in s.receipts
    && var state := s.receipts[RowKey(key, device)].state;
    state.ReceiptPending? || state.ReceiptFailed?
  }

  function Higher(a: nat, b: nat): nat { if a < b then b else a }
  function Lower(a: nat, b: nat): nat { if a < b then a else b }

  /** The receipt after a C: confirmed as far as reported and wanted, never less than before. */
  predicate ConfirmedBy(r: Receipt, q: Receipt, level: nat) {
    && q.confirmedLevel == Higher(r.confirmedLevel, Lower(level, r.targetLevel))
    && (q.state.Confirmed? <==> q.confirmedLevel == r.targetLevel)
    && (!q.state.Confirmed? ==> q.state == r.state)
    && q == r.(confirmedLevel := q.confirmedLevel, state := q.state)
  }

  lemma OpenReceiptConfirmed(r: Receipt, level: nat)
    requires (r.state.ReceiptPending? || r.state.ReceiptFailed?) && r.confirmedLevel < r.targetLevel
    ensures ConfirmedBy(r, Confirm(r, level), level)
  {
  }

  /**
   A confirmation that counts confirms its own receipt that far and changes nothing else; any other
   changes nothing.
   */
  lemma ConfirmationTakesEffect(s: State, device: DeviceId, recipient: Option<UserId>, clientId: nat, level: nat)
    requires ReceiptsOk(s)
    ensures var t := RecordReceiptConfirmation(s, device, recipient, clientId, level);
      if SignedInUser(s, device).Some?
        && ConfirmationCounts(s, device, recipient, MessageKey(SignedInUser(s, device).value, clientId))
      then
        var k := RowKey(MessageKey(SignedInUser(s, device).value, clientId), device);
        && k in t.receipts && ConfirmedBy(s.receipts[k], t.receipts[k], level)
        && t == s.(receipts := s.receipts[k := t.receipts[k]])
      else t == s
  {
    var user := SignedInUser(s, device);
    if user.Some? && RowKey(MessageKey(user.value, clientId), device) in s.receipts {
      var k := RowKey(MessageKey(user.value, clientId), device);
      assert ReceiptOk(s.receipts[k], s.messages[k.message].Level());
      if ConfirmationCounts(s, device, recipient, k.message) {
        OpenReceiptConfirmed(s.receipts[k], level);
      } else {
        assert s.receipts[k := s.receipts[k]] == s.receipts;
      }
    }
  }

  // ----- who raises a level -----------------------------------------------------------------------------

  /** A report about the message from a device signed in as the one it is for. */
  predicate ReportsOn(s: State, step: Step, key: MessageKey) {
    match step
    case StatusArrives(device, sender, clientId, received) =>
      && sender == Some(key.sender) && clientId == key.clientId
      && StatusCounts(s, device, key, received) && AllReported(received)
    case ReadArrives(device, sender, clientId) =>
      sender == Some(key.sender) && clientId == key.clientId && IsForDevice(s, device, key)
    case _ => false
  }

  lemma ConfirmRaisesOwnLevel(s: State, confirmed: MessageKey, isRead: bool, cfg: Settings, now: Time, key: MessageKey)
    requires confirmed in s.messages
    ensures var t := ConfirmMessage(s, confirmed, isRead, cfg, now);
      && (key != confirmed ==> LevelOf(t, key) == LevelOf(s, key))
      && (!isRead && LevelOf(t, key) == READ_LEVEL ==> LevelOf(s, key) == READ_LEVEL)
  {
  }

  lemma StatusRaisesOwnLevel(s: State, step: Step, cfg: Settings, now: Time, key: MessageKey)
    requires step.StatusArrives? && LevelOf(Apply(s, step, cfg, now), key) > LevelOf(s, key)
    ensures ReportsOn(s, step, key) && LevelOf(Apply(s, step, cfg, now), key) < READ_LEVEL
  {
    if StatusApplies(s, step.device, step.sender, step.clientId, step.received) {
      var k := RowKey(MessageKey(step.sender.value, step.clientId), step.device);
      ReportedAll(step.received);
      if AllReported(step.received) {
        DeliverTouchesRowsAndSessions(s, k, Some(Reported(step.received)), cfg, now);
        ConfirmRaisesOwnLevel(Deliver(s, k, Some(Reported(step.received)), cfg, now), k.message, false, cfg, now, key);
      }
    }
  }

  lemma ReadRaisesOwnLevel(s: State, step: Step, cfg: Settings, now: Time, key: MessageKey)
    requires step.ReadArrives? && LevelOf(Apply(s, step, cfg, now), key) > LevelOf(s, key)
    ensures ReportsOn(s, step, key)
  {
    if step.sender.Some? && IsIncoming(s, step.device, MessageKey(step.sender.value, step.clientId)) {
      var k := RowKey(MessageKey(step.sender.value, step.clientId), step.device);
      var s1 := if k in s.deliveries && s.deliveries[k].Live() then Deliver(s, k, None, cfg, now) else s;
      if k in s.deliveries {
        DeliverTouchesRowsAndSessions(s, k, None, cfg, now);
      }
      ConfirmRaisesOwnLevel(s1, k.message, true, cfg, now, key);
    }
  }

  /** A message rises only by a full status or a read from a device of its recipient, and to "read" only by a read. */
  lemma LevelRisesByReport(s: State, step: Step, cfg: Settings, now: Time, key: MessageKey)
    requires LevelOf(Apply(s, step, cfg, now), key) > LevelOf(s, key)
    ensures ReportsOn(s, step, key)
    ensures LevelOf(Apply(s, step, cfg, now), key) == READ_LEVEL ==> step.ReadArrives?
  {
    if step.StatusArrives? {
      StatusRaisesOwnLevel(s, step, cfg, now, key);
    } else if step.ReadArrives? {
      ReadRaisesOwnLevel(s, step, cfg, now, key);
    } else {
      OtherStepsKeepLevels(s, step, cfg, now, key);
    }
  }
}
