/** What happens to packets, and to the rows they were prepared for, said field by field. */
module PacketLife {
  import opened Options
  import opened Times
  import opened RetrySchedule
  import opened Tables
  import opened DeliveryRows
  import opened ReceiptRows
  import opened Transitions
  import opened Invariants
  import opened RowEffects

  // ----- the outcome of a send --------------------------------------------------------------------------

  /** Anything but a contact the node does not know or a full packet pool may have gone out. */
  predicate MayHaveGoneOut(outcome: SendOutcome) {
    outcome != Rejected(2) && outcome != Rejected(3)
  }

  /** What the node suggested to wait for, if it took the packet. */
  function SuggestedBy(outcome: SendOutcome): Option<nat> {
    match outcome
    case SentToNode(_, timeout) => Some(timeout)
    case _ => None
  }

  /** The outcome is the first of a packet that pushed this receipt in the attempt it is in. */
  predicate EndsPush(s: State, id: PacketId, outcome: SendOutcome, k: RowKey) {
    && id in s.packets && k in s.receipts
    && var p, r := s.packets[id], s.receipts[k];
    && p.state.Prepared? && p.row == k && p.purpose.ReceiptPush?
    && r.state.ReceiptPending? && r.roundPending
    && p.armGeneration == r.armGeneration && p.attemptNumber == r.attemptCount
    && MayHaveGoneOut(outcome)
  }

  /** The outcome is the first of a packet that carried a part of this delivery in the round it is in. */
  predicate EndsPart(s: State, id: PacketId, outcome: SendOutcome, k: RowKey) {
    && id in s.packets && k in s.deliveries
    && var p, d := s.packets[id], s.deliveries[k];
    && p.state.Prepared? && p.row == k && p.purpose.DeliveryPart?
    && d.state.Pending?
    && p.armGeneration == d.armGeneration && p.attemptNumber == d.attemptCount
    && MayHaveGoneOut(outcome)
  }

  /** Due when both the retry pause and the wait for the acknowledgement are over. */
  function DueAfterSend(attempt: nat, outcome: SendOutcome, cfg: Settings, now: Time): Time {
    var pause, wait := RetryPause(attempt, cfg), AcknowledgementWait(SuggestedBy(outcome), cfg);
    now + (if pause < wait then wait else pause)
  }

  function PushEnded(r: Receipt, outcome: SendOutcome, cfg: Settings, now: Time): Receipt {
    r.(roundPending := false, lastSentAt := Some(now),
       nextAttemptAt := Some(DueAfterSend(r.attemptCount, outcome, cfg, now)))
  }

  lemma SentPushEnds(r: Receipt, outcome: SendOutcome, cfg: Settings, now: Time)
    requires r.state.ReceiptPending?
    ensures ReceiptSent(r, Suggestion(outcome), cfg, now) == PushEnded(r, outcome, cfg, now)
  {
  }

  lemma CountedPushEnds(s: State, p: Packet, outcome: SendOutcome, cfg: Settings, now: Time, k: RowKey)
    requires k in s.receipts
    ensures var t := CountAsSent(s, p, Suggestion(outcome), cfg, now);
      && k in t.receipts
      && t.receipts[k] == (if p.row == k && MatchesReceipt(s, p) then PushEnded(s.receipts[k], outcome, cfg, now)
                           else s.receipts[k])
  {
    if p.row == k && MatchesReceipt(s, p) {
      SentPushEnds(s.receipts[k], outcome, cfg, now);
    }
  }

  /** An outcome ends the attempt of exactly the receipt its packet pushed, and sets its next due time. */
  lemma OutcomeAtEveryReceipt(s: State, id: PacketId, outcome: SendOutcome, cfg: Settings, now: Time, k: RowKey)
    requires k in s.receipts
    ensures var t := RecordOutcome(s, id, outcome, cfg, now);
      && k in t.receipts
      && t.receipts[k] == (if EndsPush(s, id, outcome, k) then PushEnded(s.receipts[k], outcome, cfg, now)
                           else s.receipts[k])
  {
    if id in s.packets && s.packets[id].state.Prepared? {
      var p := s.packets[id];
      var s1 := if outcome == Rejected(ERR_CODE_NOT_FOUND) then MarkMissingOnNode(s, p.row.device) else s;
      assert MatchesReceipt(s1, p) <==> MatchesReceipt(s, p);
      CountedPushEnds(s1, p, outcome, cfg, now, k);
    }
  }

  /** The row after a part of its round went out; the last one sets the next due time. */
  predicate PartEnded(d: Delivery, e: Delivery, part: nat, outcome: SendOutcome, cfg: Settings, now: Time) {
    && e == d.(roundParts := d.roundParts - {part}, lastSentAt := Some(now), nextAttemptAt := e.nextAttemptAt)
    && (if d.roundParts == {part} then e.nextAttemptAt == Some(DueAfterSend(d.attemptCount, outcome, cfg, now))
        else e.nextAttemptAt == d.nextAttemptAt)
  }

  /** An outcome takes the packet's part out of exactly the row it was prepared for. */
  lemma OutcomeAtEveryDelivery(s: State, id: PacketId, outcome: SendOutcome, cfg: Settings, now: Time, k: RowKey)
    requires k in s.deliveries
    ensures var t := RecordOutcome(s, id, outcome, cfg, now);
      && k in t.deliveries
      && (if EndsPart(s, id, outcome, k)
          then PartEnded(s.deliveries[k], t.deliveries[k], s.packets[id].purpose.part, outcome, cfg, now)
          else t.deliveries[k] == s.deliveries[k])
  {
    OutcomeAt(s, id, outcome, cfg, now, k);
    if EndsPart(s, id, outcome, k) {
      PartEnds(s.deliveries[k], s.packets[id].purpose.part, outcome, cfg, now);
    }
  }

  lemma PartEnds(d: Delivery, part: nat, outcome: SendOutcome, cfg: Settings, now: Time)
    requires d.state.Pending?
    ensures PartEnded(d, PartSent(d, part, Suggestion(outcome), cfg, now), part, outcome, cfg, now)
  {
    assert d.roundParts == {part} <==> d.roundParts != {} && d.roundParts - {part} == {};
  }

  /** What becomes of the packet itself. */
  predicate Settled(p: Packet, q: Packet, outcome: SendOutcome, now: Time) {
    match outcome
    case SentToNode(code, timeout) =>
      q == p.(state := QueuedOnNode, acknowledgementCode := Some(code), suggestedTimeout := Some(timeout),
        queuedAt := Some(now))
    case Rejected(_) => q == p.(state := RejectedByNode)
    case Unknown => q == p.(state := OutcomeUnknown)
  }

  /** The first outcome settles its packet and no other, and a contact unknown to the node is noted as such. */
  lemma OutcomeAtPacketsAndDevices(s: State, id: PacketId, outcome: SendOutcome, cfg: Settings, now: Time,
                                   other: PacketId,
                                   device: DeviceId)
    ensures var t := RecordOutcome(s, id, outcome, cfg, now);
      && (other in t.packets <==> other in s.packets)
      && (other in s.packets ==>
            if other == id && s.packets[id].state.Prepared? then Settled(s.packets[id], t.packets[id], outcome, now)
            else t.packets[other] == s.packets[other])
      && (device in t.devices <==> device in s.devices)
      && (device in s.devices ==>
            var missing := id in s.packets && s.packets[id].state.Prepared? && s.packets[id].row.device == device
              && outcome == Rejected(2);
            t.devices[device] == if missing then s.devices[device].(onNode := false) else s.devices[device])
  {
    if id in s.packets && s.packets[id].state.Prepared? {
      var p := s.packets[id];
      CountingTouchesRowsOnly(s, p, Suggestion(outcome), cfg, now);
      CountingTouchesRowsOnly(MarkMissingOnNode(s, p.row.device), p, Suggestion(outcome), cfg, now);
    }
  }

  lemma CountingTouchesRowsOnly(s: State, p: Packet, suggestion: Option<nat>, cfg: Settings, now: Time)
    ensures var t := CountAsSent(s, p, suggestion, cfg, now);
      t.packets == s.packets && t.devices == s.devices && t.messages == s.messages && t.sessions == s.sessions
  {
  }

  // ----- acknowledgements and lost links ------------------------------------------------------------------

  /**
   A firmware acknowledgement with its code concerns a packet still awaited, or given up on within
   the last ten minutes.
   */
  predicate IsAcknowledgedBy(p: Packet, code: nat, now: Time) {
    && (p.state.QueuedOnNode? || p.state.AcknowledgementTimedOut?)
    && p.acknowledgementCode == Some(code)
    && p.queuedAt.Some? && now - p.queuedAt.value <= 600.0
  }

  /** A firmware acknowledgement marks exactly the packets it concerns, and nothing else changes. */
  lemma AcknowledgementMarks(s: State, code: nat, now: Time, id: PacketId)
    ensures var t := RecordNodeAcknowledgement(s, code, now);
      && t == s.(packets := t.packets) && (id in t.packets <==> id in s.packets)
      && (id in s.packets ==>
            t.packets[id] == if IsAcknowledgedBy(s.packets[id], code, now)
              then s.packets[id].(state := NodeAcknowledged)
                             else s.packets[id])
  {
  }

  /** A deadline gives up on its packet if it is still awaited; a lost link on every such packet. */
  lemma WaitingEnds(s: State, id: PacketId, other: PacketId)
    requires other in s.packets
    ensures var awaited := s.packets[other].state.QueuedOnNode?;
      var ended := s.packets[other].(state := AcknowledgementTimedOut);
      && other in RecordDeadline(s, id).packets && other in DropAwaiting(s).packets
      && RecordDeadline(s, id).packets[other] == (if awaited && other == id then ended else s.packets[other])
      && DropAwaiting(s).packets[other] == (if awaited then ended else s.packets[other])
  {
  }

  /**
   After a restart no packet is prepared or awaited: what may have gone out is unknown, what was
   awaited timed out.
   */
  lemma RestartLeavesNothingOpen(s: State, id: PacketId)
    requires id in s.packets
    ensures var t := RecoverAtStartup(s);
      && id in t.packets && !t.packets[id].state.Prepared? && !t.packets[id].state.QueuedOnNode?
      && t.packets[id] == match s.packets[id].state {
        case Prepared => s.packets[id].(state := OutcomeUnknown)
        case QueuedOnNode => s.packets[id].(state := AcknowledgementTimedOut)
        case _ => s.packets[id]
      }
  {
  }

  // ----- the suggestion a completed round goes by -----------------------------------------------------------

  /** A packet of the row's round whose outcome is known. */
  predicate IsSettledOfRound(s: State, k: RowKey, arm: nat, attempt: nat, id: PacketId) {
    && id in s.packets && !s.packets[id].state.Prepared?
    && s.packets[id].row == k && s.packets[id].purpose.DeliveryPart?
    && s.packets[id].armGeneration == arm && s.packets[id].attemptNumber == attempt
  }

  /** The round goes by what was suggested for the latest of its packets whose outcome is known, if there is one. */
  lemma {:induction false} SuggestionIsLatest(s: State, k: RowKey, arm: nat, attempt: nat, below: PacketId,
                                        id: PacketId)
    requires id < below && IsSettledOfRound(s, k, arm, attempt, id)
    requires forall later: PacketId | id < later < below :: !IsSettledOfRound(s, k, arm, attempt, later)
    ensures LastRoundSuggestion(s, k, arm, attempt, below) == s.packets[id].suggestedTimeout
    decreases below
  {
    if id < below - 1 {
      assert !IsSettledOfRound(s, k, arm, attempt, below - 1);
      SuggestionIsLatest(s, k, arm, attempt, below - 1, id);
    }
  }

  lemma {:induction false} NoSuggestionWithoutPacket(s: State, k: RowKey, arm: nat, attempt: nat, below: PacketId)
    requires forall id: PacketId | id < below :: !IsSettledOfRound(s, k, arm, attempt, id)
    ensures LastRoundSuggestion(s, k, arm, attempt, below).None?
    decreases below
  {
    if below > 0 {
      assert !IsSettledOfRound(s, k, arm, attempt, below - 1);
      NoSuggestionWithoutPacket(s, k, arm, attempt, below - 1);
    }
  }

  /** In the tables of a run, whose packet ids are all below the next one. */
  lemma RoundGoesByLatestPacket(s: State, k: RowKey, d: Delivery, id: PacketId)
    requires PacketsOk(s)
    requires IsSettledOfRound(s, k, d.armGeneration, d.attemptCount, id)
    requires forall later: PacketId | IsSettledOfRound(s, k, d.armGeneration, d.attemptCount, later) :: later <= id
    ensures RoundSuggestion(s, k, d) == s.packets[id].suggestedTimeout
  {
    SuggestionIsLatest(s, k, d.armGeneration, d.attemptCount, s.nextPacketId, id);
  }
}
