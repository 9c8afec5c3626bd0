/** A confirmed receipt is pushed no more, until it is re-armed. */
module SettledReceipts {
  import opened Options
  import opened Times
  import opened RetrySchedule
  import opened Tables
  import opened Transitions
  import opened Invariants
  import opened ReceiptProofs
  import opened StepProofs
  import opened RowEffects
  import opened PacketLife
  import opened TransitionSystems
  import opened Runs
  import opened SilentDelivery
  import opened SilentReceipts
  import opened ReportAnswers
  import opened RefreshScope

  /** Confirmed, or cancelled with its device: nobody sends it. */
  predicate IsSettled(r: Receipt) {
    r.state.Confirmed? || r.state.ReceiptCancelled?
  }

  /** What is settled stays so or is re-armed. */
  predicate StaysSettled(r: Receipt, q: Receipt) {
    IsSettled(r) ==> IsSettled(q) || r.armGeneration < q.armGeneration
  }

  predicate SettledAt(s: State, t: State, k: RowKey) {
    k in s.receipts ==> k in t.receipts && StaysSettled(s.receipts[k], t.receipts[k])
  }

  lemma ConfirmSettles(s: State, key: MessageKey, isRead: bool, cfg: Settings, now: Time, k: RowKey)
    requires key in s.messages
    ensures SettledAt(s, ConfirmMessage(s, key, isRead, cfg, now), k)
  {
    var m1 := ConfirmedMessage(s.messages[key], isRead, now);
    RaisedReceiptAt(s.(messages := s.messages[key := m1]), key, m1.Level(), cfg, now, k);
  }

  lemma ReportSettles(s: State, step: Step, cfg: Settings, now: Time, k: RowKey)
    requires step.StatusArrives? || step.ReadArrives?
    ensures SettledAt(s, Apply(s, step, cfg, now), k)
  {
    var f := ReportedRow(step);
    if step.StatusArrives? && StatusApplies(s, step.device, step.sender, step.clientId, step.received) {
      DeliverTouchesRowsAndSessions(s, f.value, Some(Reported(step.received)), cfg, now);
      ConfirmSettles(Deliver(s, f.value, Some(Reported(step.received)), cfg, now), f.value.message, false, cfg, now, k);
    } else if step.ReadArrives? && step.sender.Some? && IsIncoming(s, step.device, f.value.message) {
      if f.value in s.deliveries && s.deliveries[f.value].Live() {
        DeliverTouchesRowsAndSessions(s, f.value, None, cfg, now);
        ConfirmSettles(Deliver(s, f.value, None, cfg, now), f.value.message, true, cfg, now, k);
      } else {
        ConfirmSettles(s, f.value.message, true, cfg, now, k);
      }
    }
  }

  lemma RearmSettles(s: State, device: DeviceId, user: UserId, peer: UserId, cfg: Settings, now: Time, k: RowKey)
    ensures SettledAt(s, RearmReceipts(s, device, user, peer, cfg, now), k)
  {
  }

  lemma RefreshOneSettles(s: State, device: DeviceId, user: UserId, peer: UserId, cfg: Settings, now: Time, k: RowKey)
    ensures SettledAt(s, RefreshPeer(RearmReceipts(s, device, user, peer, cfg, now), device, user, peer, cfg, now).0, k)
  {
    RearmSettles(s, device, user, peer, cfg, now, k);
    RefreshPeerKeepsReceipts(RearmReceipts(s, device, user, peer, cfg, now), device, user, peer, cfg, now);
  }

  lemma RefreshSettles(s: State, device: DeviceId, target: RefreshTarget, peers: seq<UserId>, cfg: Settings,
                       now: Time, k: RowKey)
    ensures SettledAt(s, StartRefresh(s, device, target, peers, cfg, now).0, k)
  {
    var user := SignedInUser(s, device);
    if user.Some? && target.AllPeers? {
      RefreshPeersKeepsReceipts(s, device, user.value, peers, cfg, now);
    } else if user.Some? && target.peer.Some? && target.peer != user {
      RefreshOneSettles(s, device, user.value, target.peer.value, cfg, now, k);
    }
  }

  lemma PartSettles(s: State, req: PartRequest, cfg: Settings, now: Time)
    ensures AcceptPart(s, req, cfg, now).0.receipts == s.receipts
  {
    var user := SignedInUser(s, req.device);
    if user.Some? && req.recipient.Some? {
      var key := MessageKey(user.value, req.clientId);
      PlacingKeepsReceipts(FindOrCreateMessage(s, key, req.recipient.value, req), key, req.recipient.value, req, cfg,
        now);
    }
  }

  lemma PlacingKeepsReceipts(s: State, key: MessageKey, recipient: UserId, req: PartRequest, cfg: Settings, now: Time)
    requires key in s.messages
    ensures PlacePart(s, key, recipient, req, cfg, now).0.receipts == s.receipts
  {
  }

  lemma WalkSettles(s: State, cands: seq<Candidate>, cfg: Settings, now: Time, k: RowKey)
    ensures SettledAt(s, PrepareNext(s, cands, cfg, now).0, k)
  {
    if k in s.receipts && IsSettled(s.receipts[k]) {
      WalkLeavesReceipt(s, cands, cfg, now, k);
    } else if k in s.receipts {
      WalkKeepsReceipt(s, cands, cfg, now, k);
    }
  }

  lemma {:induction false} WalkKeepsReceipt(s: State, cands: seq<Candidate>, cfg: Settings, now: Time, k: RowKey)
    requires k in s.receipts
    ensures k in PrepareNext(s, cands, cfg, now).0.receipts
    decreases |cands|
  {
    if cands != [] {
      if cands[0].DeliveryCandidate? {
        PrepareDeliveryTouches(s, cands[0].key, cfg, now);
      }
      WalkKeepsReceipt(PrepareCandidate(s, cands[0], cfg, now).0, cands[1..], cfg, now, k);
    }
  }

  lemma OutcomeSettlesReceipts(s: State, id: PacketId, outcome: SendOutcome, cfg: Settings, now: Time, k: RowKey)
    ensures SettledAt(s, RecordOutcome(s, id, outcome, cfg, now), k)
  {
    if k in s.receipts {
      OutcomeAtEveryReceipt(s, id, outcome, cfg, now, k);
    }
  }

  lemma LinkSettles(s: State, device: DeviceId, user: UserId, k: RowKey)
    ensures SettledAt(s, LinkDevice(s, device, user), k)
  {
  }

  lemma RequestSettles(s: State, step: Step, cfg: Settings, now: Time, k: RowKey)
    requires step.PartArrives? || step.RefreshArrives? || step.DeviceLinked?
    ensures SettledAt(s, Apply(s, step, cfg, now), k)
  {
    match step
    case PartArrives(req) => PartSettles(s, req, cfg, now);
    case RefreshArrives(device, target, peers) => RefreshSettles(s, device, target, peers, cfg, now, k);
    case DeviceLinked(device, user) => LinkSettles(s, device, user, k);
  }

  lemma LoopSettles(s: State, step: Step, cfg: Settings, now: Time, k: RowKey)
    requires step.PacketPrepared? || step.OutcomeRecorded?
    ensures SettledAt(s, Apply(s, step, cfg, now), k)
  {
    match step
    case PacketPrepared(cands) => WalkSettles(s, cands, cfg, now, k);
    case OutcomeRecorded(id, outcome) => OutcomeSettlesReceipts(s, id, outcome, cfg, now, k);
  }

  lemma StepSettles(s: State, step: Step, cfg: Settings, now: Time, k: RowKey)
    ensures SettledAt(s, Apply(s, step, cfg, now), k)
  {
    if step.StatusArrives? || step.ReadArrives? {
      ReportSettles(s, step, cfg, now, k);
    } else if step.PartArrives? || step.RefreshArrives? || step.DeviceLinked? {
      RequestSettles(s, step, cfg, now, k);
    } else if step.PacketPrepared? || step.OutcomeRecorded? {
      LoopSettles(s, step, cfg, now, k);
    }
  }

  // ----- no packet of a settled arm -----------------------------------------------------------------------------

  /** A packet that pushed the receipt in this arm. */
  predicate IsPushOf(s: State, k: RowKey, arm: nat, id: PacketId) {
    && id in s.packets && s.packets[id].row == k && s.packets[id].purpose.ReceiptPush?
    && s.packets[id].armGeneration == arm
  }

  lemma {:induction false} PushIsOfItsArm(s: State, cands: seq<Candidate>, cfg: Settings, now: Time, k: RowKey)
    requires k in s.receipts && PushFor(PrepareNext(s, cands, cfg, now), k)
    ensures var r := PrepareNext(s, cands, cfg, now);
      r.0.packets[r.1.value].armGeneration == s.receipts[k].armGeneration
    decreases |cands|
  {
    var first := PrepareCandidate(s, cands[0], cfg, now);
    if cands[0] != ReceiptCandidate(k) {
      OtherLeavesReceipt(s, cands[0], cfg, now, k);
    }
    if first.1.None? {
      OwnFailureKeepsArm(s, cands[0], cfg, now, k);
      PushIsOfItsArm(first.0, cands[1..], cfg, now, k);
    }
  }

  lemma OwnFailureKeepsArm(s: State, c: Candidate, cfg: Settings, now: Time, k: RowKey)
    requires k in s.receipts
    ensures var t := PrepareCandidate(s, c, cfg, now).0;
      k in t.receipts && t.receipts[k].armGeneration == s.receipts[k].armGeneration
  {
    if c != ReceiptCandidate(k) {
      OtherLeavesReceipt(s, c, cfg, now, k);
    }
  }

  /** A step adds no packet of an arm in which the receipt is settled, or that it has left. */
  lemma StepAddsNoPush(s: State, step: Step, cfg: Settings, clock: Time, now: Time, k: RowKey, arm: nat, id: PacketId)
    requires Inv(s, clock) && clock <= now && cfg.Valid() && Enabled(s, step, cfg, now)
    requires k in s.receipts && (s.receipts[k].armGeneration == arm ==> IsSettled(s.receipts[k]))
    requires IsPushOf(Apply(s, step, cfg, now), k, arm, id)
    ensures IsPushOf(s, k, arm, id)
  {
    if step.PacketPrepared? {
      WalkAddsNoPush(s, step.candidates, cfg, now, k, arm, id);
    } else {
      OtherStepsKeepPacketTable(s, step, cfg, clock, now);
    }
  }

  lemma WalkAddsNoPush(s: State, cands: seq<Candidate>, cfg: Settings, now: Time, k: RowKey, arm: nat, id: PacketId)
    requires k in s.receipts && (s.receipts[k].armGeneration == arm ==> IsSettled(s.receipts[k]))
    requires IsPushOf(PrepareNext(s, cands, cfg, now).0, k, arm, id)
    ensures IsPushOf(s, k, arm, id)
  {
    var r := PrepareNext(s, cands, cfg, now);
    PrepareInserts(s, cands, cfg, now);
    if PushFor(r, k) {
      PushIsOfItsArm(s, cands, cfg, now, k);
    }
    if s.receipts[k].armGeneration == arm {
      WalkLeavesReceipt(s, cands, cfg, now, k);
    }
  }

  /** The receipt is past the arm or settled in it, and the arm has no packets but these. */
  ghost predicate ArmIsOver(w: Snapshot, k: RowKey, arm: nat, known: set<PacketId>) {
    && Runs.InOrder(w) && k in w.tables.receipts
    && arm <= w.tables.receipts[k].armGeneration
    && (w.tables.receipts[k].armGeneration == arm ==> IsSettled(w.tables.receipts[k]))
    && forall id | IsPushOf(w.tables, k, arm, id) :: id in known
  }

  lemma EventKeepsArmOver(w: Snapshot, e: Event, k: RowKey, arm: nat, known: set<PacketId>)
    requires ArmIsOver(w, k, arm, known) && CanHappen(w, e)
    ensures ArmIsOver(Next()(w, e), k, arm, known)
  {
    EventKeepsInv(w, e);
    ReceiptEvolved(w.tables, Next()(w, e).tables, k);
    StepSettles(w.tables, e.step, e.cfg, e.now, k);
    forall id | IsPushOf(Next()(w, e).tables, k, arm, id) ensures id in known {
      StepAddsNoPush(w.tables, e.step, e.cfg, w.clock, e.now, k, arm, id);
    }
  }

  lemma RunKeepsArmOver(w: Snapshot, events: seq<Event>, k: RowKey, arm: nat, known: set<PacketId>)
    requires ArmIsOver(w, k, arm, known) && IsRun(w, events)
    ensures ArmIsOver(Runs.Final(w, events), k, arm, known)
  {
    var inv := (x: Snapshot) => ArmIsOver(x, k, arm, known);
    forall x: Snapshot, e: Event | inv(x) && May()(x, e) ensures inv(Next()(x, e)) {
      EventKeepsArmOver(x, e, k, arm, known);
    }
    KeptByRun(Next(), May(), inv, w, events);
  }

  /** A settled receipt gets no further packet in its arm, over every run. */
  lemma SettledReceiptIsQuiet(w: Snapshot, events: seq<Event>, k: RowKey, id: PacketId)
    requires Runs.InOrder(w) && IsRun(w, events) && k in w.tables.receipts && IsSettled(w.tables.receipts[k])
    requires IsPushOf(Runs.Final(w, events).tables, k, w.tables.receipts[k].armGeneration, id)
    ensures id in w.tables.packets
  {
    RunKeepsArmOver(w, events, k, w.tables.receipts[k].armGeneration, w.tables.packets.Keys);
  }

  lemma FullConfirmationSettles(s: State, recipient: Option<UserId>, level: nat, k: RowKey)
    requires ReceiptsOk(s) && ConfirmationCounts(s, k.device, recipient, k.message)
      && s.receipts[k].targetLevel <= level
    ensures var t := RecordReceiptConfirmation(s, k.device, recipient, k.message.clientId, level);
      && t.packets == s.packets && k in t.receipts
      && t.receipts[k].state.Confirmed? && t.receipts[k].armGeneration == s.receipts[k].armGeneration
  {
    assert RowKey(k.message, k.device) == k && MessageKey(k.message.sender, k.message.clientId) == k.message;
    assert ReceiptOk(s.receipts[k], s.messages[k.message].Level());
    ConfirmationTakesEffect(s, k.device, recipient, k.message.clientId, level);
  }

  /** The C as an event of the run. */
  function ConfirmationEvent(k: RowKey, recipient: Option<UserId>, level: nat, cfg: Settings, now: Time): Event {
    Event(ConfirmationArrives(k.device, recipient, k.message.clientId, level), cfg, now)
  }

  lemma ConfirmationApplies(s: State, e: Event, k: RowKey)
    requires ReceiptsOk(s) && e.step.ConfirmationArrives? && e.step.device == k.device
      && e.step.clientId == k.message.clientId
    requires ConfirmationCounts(s, k.device, e.step.recipient, k.message) && s.receipts[k].targetLevel <= e.step.level
    ensures var t := Apply(s, e.step, e.cfg, e.now);
      && t.packets == s.packets && k in t.receipts
      && IsSettled(t.receipts[k]) && t.receipts[k].armGeneration == s.receipts[k].armGeneration
  {
    FullConfirmationSettles(s, e.step.recipient, e.step.level, k);
  }

  lemma ConfirmationLeavesSettled(w: Snapshot, recipient: Option<UserId>, level: nat, cfg: Settings, now: Time,
                                  k: RowKey)
    requires Runs.InOrder(w) && w.clock <= now && cfg.Valid()
    requires ConfirmationCounts(w.tables, k.device, recipient, k.message) && w.tables.receipts[k].targetLevel <= level
    ensures var v := Next()(w, ConfirmationEvent(k, recipient, level, cfg, now));
      && Runs.InOrder(v) && v.tables.packets == w.tables.packets && k in v.tables.receipts
      && IsSettled(v.tables.receipts[k]) && v.tables.receipts[k].armGeneration == w.tables.receipts[k].armGeneration
  {
    EventKeepsInv(w, ConfirmationEvent(k, recipient, level, cfg, now));
    ConfirmationApplies(w.tables, ConfirmationEvent(k, recipient, level, cfg, now), k);
  }

  /**
   After a C that reports the level a receipt targets, no packet of it is prepared any more, over
   every run, unless it is re-armed: whatever is prepared later belongs to a later arm.
   */
  lemma ConfirmationSilences(w: Snapshot, recipient: Option<UserId>, level: nat, cfg: Settings, now: Time,
                             events: seq<Event>, k: RowKey, id: PacketId)
    requires Runs.InOrder(w) && w.clock <= now && cfg.Valid()
    requires ConfirmationCounts(w.tables, k.device, recipient, k.message) && w.tables.receipts[k].targetLevel <= level
    requires var v := Next()(w, ConfirmationEvent(k, recipient, level, cfg, now));
      && IsRun(v, events)
      && IsPushOf(Runs.Final(v, events).tables, k, w.tables.receipts[k].armGeneration, id)
    ensures id in w.tables.packets
  {
    ConfirmationLeavesSettled(w, recipient, level, cfg, now, k);
    SettledReceiptIsQuiet(Next()(w, ConfirmationEvent(k, recipient, level, cfg, now)), events, k, id);
  }
}
