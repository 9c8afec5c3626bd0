/**
 What a step does to a row beyond its counters: who delivers it, what changes its received set,
 and which rows occupy the places a device has.
 */
module RowEffects {
  import opened Options
  import opened Texts
  import opened Times
  import opened RetrySchedule
  import opened Tables
  import opened DeliveryRows
  import opened ReceiptRows
  import opened Transitions
  import opened Invariants
  import opened SessionProofs
  import opened StepProofs

  predicate InProgressRow(d: Delivery) {
    d.state.Pending? && d.roundStartedAt.Some?
  }

  /**
   Nothing was delivered, no attempt was counted, no place was taken; the received set is kept, or
   emptied when a cancelled row is revived.
   */
  predicate Quiet(b: Delivery, a: Delivery) {
    && (a.state.Delivered? ==> b.state.Delivered?)
    && (InProgressRow(a) ==> InProgressRow(b))
    && a.attemptCount <= b.attemptCount
    && (a.receivedParts == b.receivedParts || (b.state.Cancelled? && a.receivedParts == {}))
    && (b.state.Cancelled? && !a.state.Cancelled? ==> a.receivedParts == {})
    && (a.state.Cancelled? ==> b == a)
  }

  /** A row that did not exist before. */
  predicate QuietNew(a: Delivery) {
    !a.state.Delivered? && !InProgressRow(a) && a.attemptCount == 0 && a.receivedParts == {}
  }

  predicate QuietAt(s: State, t: State, k: RowKey) {
    && (k in s.deliveries ==> k in t.deliveries && Quiet(s.deliveries[k], t.deliveries[k]))
    && (k !in s.deliveries && k in t.deliveries ==> QuietNew(t.deliveries[k]))
  }

  ghost predicate QuietRows(s: State, t: State) {
    forall k :: QuietAt(s, t, k)
  }

  lemma QuietTransitive(s: State, t: State, u: State)
    requires QuietRows(s, t) && QuietRows(t, u)
    ensures QuietRows(s, u)
  {
    forall k ensures QuietAt(s, u, k) {
      assert QuietAt(s, t, k) && QuietAt(t, u, k);
    }
  }

  lemma QuietSame(s: State, t: State)
    requires t.deliveries == s.deliveries
    ensures QuietRows(s, t)
  {
  }

  lemma QuietUpdate(s: State, k: RowKey, d: Delivery)
    requires k in s.deliveries && Quiet(s.deliveries[k], d)
    ensures QuietRows(s, UpdateDelivery(s, k, d))
  {
  }

  /** Arming takes no place: a queued row carries no round start. */
  lemma AdvanceIsQuiet(s: State, sid: SessionId, cfg: Settings, now: Time)
    requires RowsOk(s)
    ensures QuietRows(s, AdvanceSession(s, sid, cfg, now))
  {
    var n := NextHead(s, sid);
    if n.Some? {
      assert IsQueued(s, sid, n.value);
      assert RowCountersOk(s.deliveries[n.value], s.messages[n.value.message].Parts());
      QuietUpdate(s, n.value, Arm(s.deliveries[n.value], cfg, now));
    } else {
      QuietSame(s, AdvanceSession(s, sid, cfg, now));
    }
  }

  lemma OpenIsQuiet(s: State, device: DeviceId, user: UserId, peer: UserId, taken: set<RowKey>, missed: set<RowKey>,
                    cfg: Settings)
    requires IsScope(s, device, user, peer, taken, missed)
    ensures QuietRows(s, OpenScope(s, device, peer, taken, missed, cfg))
  {
    var t := OpenScope(s, device, peer, taken, missed, cfg);
    forall k ensures QuietAt(s, t, k) {
      OpenRowAt(s, device, user, peer, taken, missed, cfg, k);
    }
  }

  lemma FanOutIsQuiet(s: State, key: MessageKey, recipient: UserId, cfg: Settings, now: Time)
    requires forall k | k in s.deliveries :: k.message != key
    ensures QuietRows(s, FanOut(s, key, recipient, cfg, now))
  {
    var t := FanOut(s, key, recipient, cfg, now);
    forall k ensures QuietAt(s, t, k) {
      FanOutRowAt(s, key, recipient, cfg, now, k);
    }
  }

  lemma AcceptanceIsQuiet(s: State, key: MessageKey, m: Message, recipient: UserId, cfg: Settings, now: Time)
    requires forall k | k in s.deliveries :: k.message != key
    ensures QuietRows(s, FanOut(s.(messages := s.messages[key := m]), key, recipient, cfg, now))
  {
    var s1 := s.(messages := s.messages[key := m]);
    FanOutIsQuiet(s1, key, recipient, cfg, now);
    QuietSame(s, s1);
    QuietTransitive(s, s1, FanOut(s1, key, recipient, cfg, now));
  }

  lemma PlacePartIsQuiet(s: State, key: MessageKey, recipient: UserId, req: PartRequest, cfg: Settings, now: Time)
    requires key in s.messages && RowsOk(s)
    ensures QuietRows(s, PlacePart(s, key, recipient, req, cfg, now).0)
  {
    var m := s.messages[key];
    var stored := StorePart(m, req);
    var s1 := s.(messages := s.messages[key := stored]);
    if !Conflicts(m, recipient, req) && stored.acceptedAt.None? && AllHeld(stored) {
      NoRowsBeforeAcceptance(s, key);
      AcceptanceIsQuiet(s1, key, stored.(text := Some(Join(HeldTexts(stored.partTexts))), acceptedAt := Some(now)),
        stored.recipient, cfg, now);
      QuietSame(s, s1);
      QuietTransitive(s, s1, AcceptMessage(s1, key, cfg, now));
    } else {
      QuietSame(s, PlacePart(s, key, recipient, req, cfg, now).0);
    }
  }

  lemma PartIsQuiet(s: State, req: PartRequest, cfg: Settings, clock: Time, now: Time)
    requires Inv(s, clock)
    ensures QuietRows(s, AcceptPart(s, req, cfg, now).0)
  {
    var user := SignedInUser(s, req.device);
    if user.Some? && req.recipient.Some? && req.recipient != user
       && ValidPartNumbering(req.partNumber, req.partCount) && IsValidPartText(req.text)
    {
      var key := MessageKey(user.value, req.clientId);
      var s1 := FindOrCreateMessage(s, key, req.recipient.value, req);
      CreateKeepsInv(s, key, req.recipient.value, req, clock);
      QuietSame(s, s1);
      PlacePartIsQuiet(s1, key, req.recipient.value, req, cfg, now);
      QuietTransitive(s, s1, AcceptPart(s, req, cfg, now).0);
    } else {
      QuietSame(s, s);
    }
  }

  lemma RefreshPeerIsQuiet(s: State, device: DeviceId, user: UserId, peer: UserId, cfg: Settings, now: Time)
    requires Inv(s, now) && cfg.Valid() && SignedInUser(s, device) == Some(user)
    ensures QuietRows(s, RefreshPeer(s, device, user, peer, cfg, now).0)
  {
    var a := ActiveSession(s, device, peer);
    if a.Some? {
      RestartIsQuiet(s, a.value, cfg, now);
    } else if |TakenKeys(s, device, user, peer)| + |MissedKeys(s, device, user, peer)| == 0 {
      QuietSame(s, s);
    } else {
      OpenAndAdvanceIsQuiet(s, device, user, peer, cfg, now);
    }
  }

  lemma RestartIsQuiet(s: State, sid: SessionId, cfg: Settings, now: Time)
    ensures QuietRows(s, RestartSession(s, sid, cfg, now))
  {
    var h := Head(s, sid);
    if h.Some? {
      assert IsHead(s, sid, h.value);
      QuietUpdate(s, h.value, RestartHead(s.deliveries[h.value], cfg, now));
    } else {
      QuietSame(s, s);
    }
  }

  lemma OpenAndAdvanceIsQuiet(s: State, device: DeviceId, user: UserId, peer: UserId, cfg: Settings, now: Time)
    requires Inv(s, now) && cfg.Valid() && SignedInUser(s, device) == Some(user)
    ensures QuietRows(s, AdvanceSession(OpenSession(s, device, user, peer, cfg), s.nextSessionId, cfg, now))
  {
    var taken, missed := TakenKeys(s, device, user, peer), MissedKeys(s, device, user, peer);
    QueriesGiveScope(s, device, user, peer);
    var s1 := OpenScope(s, device, peer, taken, missed, cfg);
    OpenIsQuiet(s, device, user, peer, taken, missed, cfg);
    OpenScopeKeepsRows(s, device, user, peer, taken, missed, cfg, now);
    AdvanceIsQuiet(s1, s.nextSessionId, cfg, now);
    QuietTransitive(s, s1, AdvanceSession(s1, s.nextSessionId, cfg, now));
  }

  lemma {:induction false} RefreshPeersIsQuiet(s: State, device: DeviceId, user: UserId, peers: seq<UserId>,
                                        cfg: Settings, now: Time)
    requires Inv(s, now) && cfg.Valid() && SignedInUser(s, device) == Some(user) && user !in peers
    ensures QuietRows(s, RefreshPeers(s, device, user, peers, cfg, now).0)
    decreases |peers|
  {
    if peers == [] {
      QuietSame(s, s);
    } else {
      var s1 := RefreshPeer(s, device, user, peers[0], cfg, now).0;
      RefreshPeerIsQuiet(s, device, user, peers[0], cfg, now);
      RefreshPeerKeepsInv(s, device, user, peers[0], cfg, now);
      RefreshPeerKeepsDevices(s, device, user, peers[0], cfg, now);
      RefreshPeersIsQuiet(s1, device, user, peers[1..], cfg, now);
      QuietTransitive(s, s1, RefreshPeers(s, device, user, peers, cfg, now).0);
    }
  }

  lemma RefreshOneIsQuiet(s: State, device: DeviceId, user: UserId, peer: UserId, cfg: Settings, now: Time)
    requires Inv(s, now) && cfg.Valid() && SignedInUser(s, device) == Some(user)
    ensures QuietRows(s, RefreshPeer(RearmReceipts(s, device, user, peer, cfg, now), device, user, peer, cfg, now).0)
  {
    var s1 := RearmReceipts(s, device, user, peer, cfg, now);
    RearmKeepsInv(s, device, user, peer, cfg, now);
    RefreshPeerIsQuiet(s1, device, user, peer, cfg, now);
    QuietSame(s, s1);
    QuietTransitive(s, s1, RefreshPeer(s1, device, user, peer, cfg, now).0);
  }

  lemma RefreshIsQuiet(s: State, device: DeviceId, target: RefreshTarget, peers: seq<UserId>, cfg: Settings,
                       clock: Time, now: Time)
    requires Inv(s, clock) && clock <= now && cfg.Valid() && Enabled(s, RefreshArrives(device, target, peers), cfg, now)
    ensures QuietRows(s, StartRefresh(s, device, target, peers, cfg, now).0)
  {
    ClockKeepsInv(s, clock, now);
    OwnUserNotRefreshed(s, device, target, peers, cfg, now);
    var user := SignedInUser(s, device);
    QuietSame(s, s);
    if user.Some? {
      match target
      case AllPeers => RefreshPeersIsQuiet(s, device, user.value, peers, cfg, now);
      case OnePeer(peer) =>
        if peer.Some? && peer != user {
          RefreshOneIsQuiet(s, device, user.value, peer.value, cfg, now);
        }
    }
  }

  /** A relink cancels rows: it delivers nothing, takes no place and leaves received sets alone. */
  lemma LinkOnlyCancels(s: State, device: DeviceId, user: UserId, k: RowKey)
    requires k in s.deliveries
    ensures var t := LinkDevice(s, device, user);
      && t.deliveries.Keys == s.deliveries.Keys
      && (t.deliveries[k] == s.deliveries[k] || t.deliveries[k] == s.deliveries[k].(state := Cancelled))
      && (s.deliveries[k].state.Delivered? ==> t.deliveries[k] == s.deliveries[k])
  {
  }

  lemma PartSentIsQuiet(d: Delivery, part: nat, suggestion: Option<nat>, cfg: Settings, now: Time)
    ensures Quiet(d, PartSent(d, part, suggestion, cfg, now))
  {
  }

  lemma CountAsSentIsQuiet(s: State, p: Packet, suggestion: Option<nat>, cfg: Settings, now: Time)
    ensures QuietRows(s, CountAsSent(s, p, suggestion, cfg, now))
  {
    if MatchesDelivery(s, p) {
      PartSentIsQuiet(s.deliveries[p.row], p.purpose.part, suggestion, cfg, now);
      QuietUpdate(s, p.row, PartSent(s.deliveries[p.row], p.purpose.part, suggestion, cfg, now));
    } else {
      QuietSame(s, CountAsSent(s, p, suggestion, cfg, now));
    }
  }

  lemma OutcomeIsQuiet(s: State, id: PacketId, outcome: SendOutcome, cfg: Settings, now: Time)
    ensures QuietRows(s, RecordOutcome(s, id, outcome, cfg, now))
  {
    var t := RecordOutcome(s, id, outcome, cfg, now);
    if id in s.packets && s.packets[id].state.Prepared? {
      var p := s.packets[id];
      var s1 := if outcome == Rejected(ERR_CODE_NOT_FOUND) then MarkMissingOnNode(s, p.row.device) else s;
      QuietSame(s, s1);
      if CountsAsSent(outcome) {
        var s2 := CountAsSent(s1, p, Suggestion(outcome), cfg, now);
        CountAsSentIsQuiet(s1, p, Suggestion(outcome), cfg, now);
        QuietSame(s2, t);
        QuietTransitive(s, s1, s2);
        QuietTransitive(s, s2, t);
      } else {
        QuietSame(s, t);
      }
    } else {
      QuietSame(s, t);
    }
  }

  /** Counting a part as sent takes it out of the round, may set the next due time, and keeps all else. */
  lemma PartSentKeeps(d: Delivery, part: nat, suggestion: Option<nat>, cfg: Settings, now: Time)
    ensures var e := PartSent(d, part, suggestion, cfg, now);
      && d.(roundParts := e.roundParts, lastSentAt := e.lastSentAt, nextAttemptAt := e.nextAttemptAt) == e
      && (d.state.Pending? ==> e.roundParts == d.roundParts - {part} && e.lastSentAt == Some(now))
      && (e.nextAttemptAt != d.nextAttemptAt ==> d.roundParts != {} && e.roundParts == {})
  {
  }

  lemma CountAsSentAt(s: State, p: Packet, suggestion: Option<nat>, cfg: Settings, now: Time, k: RowKey)
    requires k in s.deliveries
    ensures var t := CountAsSent(s, p, suggestion, cfg, now);
      && k in t.deliveries && t.packets == s.packets
      && t.deliveries[k] ==
           if k == p.row && MatchesDelivery(s, p)
             then PartSent(s.deliveries[k], p.purpose.part, suggestion, cfg, now) else s.deliveries[k]
  {
  }

  /** The outcome of a packet counts in this row. */
  predicate CountsIn(s: State, id: PacketId, outcome: SendOutcome, k: RowKey) {
    && id in s.packets && s.packets[id].state.Prepared? && CountsAsSent(outcome)
    && s.packets[id].row == k && MatchesDelivery(s, s.packets[id])
  }

  /** What the outcome of a packet does to a row. */
  lemma OutcomeAt(s: State, id: PacketId, outcome: SendOutcome, cfg: Settings, now: Time, k: RowKey)
    requires k in s.deliveries
    ensures var t := RecordOutcome(s, id, outcome, cfg, now);
      && k in t.deliveries
      && t.deliveries[k] ==
           if CountsIn(s, id, outcome, k)
             then PartSent(s.deliveries[k], s.packets[id].purpose.part, Suggestion(outcome), cfg, now)
           else s.deliveries[k]
  {
    if id in s.packets && s.packets[id].state.Prepared? {
      var p := s.packets[id];
      var s1 := if outcome == Rejected(ERR_CODE_NOT_FOUND) then MarkMissingOnNode(s, p.row.device) else s;
      assert MatchesDelivery(s1, p) <==> MatchesDelivery(s, p);
      CountAsSentAt(s1, p, Suggestion(outcome), cfg, now, k);
    }
  }

  lemma FailIsQuiet(s: State, k: RowKey)
    requires k in s.deliveries
    ensures QuietRows(s, FailExhaustedDelivery(s, k))
  {
    var t := FailExhaustedDelivery(s, k);
    forall q ensures QuietAt(s, t, q) {
    }
  }

  // ----- delivering one row -------------------------------------------------------------------

  /** Delivering a row is quiet for every other row. */
  lemma DeliverIsQuietElsewhere(s: State, k: RowKey, received: Option<set<nat>>, cfg: Settings, now: Time, q: RowKey)
    requires RowsOk(s) && k in s.deliveries && s.deliveries[k].Live() && q != k
    ensures QuietAt(s, Deliver(s, k, received, cfg, now), q)
  {
    var d := s.deliveries[k];
    var s1 := UpdateDelivery(s, k, MarkDelivered(d, received));
    var head := if d.state.Pending? then HeadSession(s, d) else None;
    if head.Some? {
      if q in s.deliveries {
        assert RowCountersOk(s.deliveries[q], s.messages[q.message].Parts());
        assert s1.deliveries[q] == s.deliveries[q];
      }
      AdvanceIsQuietAt(s1, head.value, cfg, now, q);
    }
  }

  lemma AdvanceIsQuietAt(s: State, sid: SessionId, cfg: Settings, now: Time, q: RowKey)
    requires q in s.deliveries && s.deliveries[q].state.Queued? ==> s.deliveries[q].roundStartedAt.None?
    ensures QuietAt(s, AdvanceSession(s, sid, cfg, now), q)
  {
    var n := NextHead(s, sid);
    assert n.Some? ==> IsQueued(s, sid, n.value);
  }

  /** The row a report concerns. */
  function ReportedRow(step: Step): Option<RowKey> {
    match step
    case StatusArrives(device, sender, clientId, _) =>
      if sender.Some? then Some(RowKey(MessageKey(sender.value, clientId), device)) else None
    case ReadArrives(device, sender, clientId) =>
      if sender.Some? then Some(RowKey(MessageKey(sender.value, clientId), device)) else None
    case _ => None
  }

  lemma ConfirmTouchesNoDelivery(s: State, key: MessageKey, isRead: bool, cfg: Settings, now: Time)
    requires key in s.messages
    ensures ConfirmMessage(s, key, isRead, cfg, now).deliveries == s.deliveries
  {
  }

  lemma DeliverAndConfirmIsQuietElsewhere(s: State, k: RowKey, received: Option<set<nat>>, isRead: bool, cfg: Settings,
                                          now: Time, q: RowKey)
    requires RowsOk(s) && k in s.deliveries && s.deliveries[k].Live() && q != k && k.message in s.messages
    ensures k.message in Deliver(s, k, received, cfg, now).messages
    ensures QuietAt(s, ConfirmMessage(Deliver(s, k, received, cfg, now), k.message, isRead, cfg, now), q)
  {
    DeliverIsQuietElsewhere(s, k, received, cfg, now, q);
    DeliverTouchesRowsAndSessions(s, k, received, cfg, now);
    ConfirmTouchesNoDelivery(Deliver(s, k, received, cfg, now), k.message, isRead, cfg, now);
  }

  lemma StatusIsQuietElsewhere(s: State, device: DeviceId, sender: Option<UserId>, clientId: nat, received: seq<bool>,
                               cfg: Settings, now: Time, q: RowKey)
    requires RowsOk(s) && (sender.Some? ==> q != RowKey(MessageKey(sender.value, clientId), device))
    ensures QuietAt(s, RecordStatus(s, device, sender, clientId, received, cfg, now), q)
  {
    if StatusApplies(s, device, sender, clientId, received) {
      var k := RowKey(MessageKey(sender.value, clientId), device);
      if Reported(received) == s.messages[k.message].Parts() {
        DeliverAndConfirmIsQuietElsewhere(s, k, Some(Reported(received)), false, cfg, now, q);
      }
    }
  }

  lemma ReadIsQuietElsewhere(s: State, device: DeviceId, sender: Option<UserId>, clientId: nat, cfg: Settings,
                             now: Time, q: RowKey)
    requires RowsOk(s) && (sender.Some? ==> q != RowKey(MessageKey(sender.value, clientId), device))
    ensures QuietAt(s, RecordRead(s, device, sender, clientId, cfg, now), q)
  {
    if sender.Some? && IsIncoming(s, device, MessageKey(sender.value, clientId)) {
      var k := RowKey(MessageKey(sender.value, clientId), device);
      if k in s.deliveries && s.deliveries[k].Live() {
        DeliverAndConfirmIsQuietElsewhere(s, k, None, true, cfg, now, q);
      } else {
        ConfirmTouchesNoDelivery(s, k.message, true, cfg, now);
      }
    }
  }

  lemma ReportIsQuietElsewhere(s: State, step: Step, cfg: Settings, now: Time, q: RowKey)
    requires RowsOk(s) && (step.StatusArrives? || step.ReadArrives?) && ReportedRow(step) != Some(q)
    ensures QuietAt(s, Apply(s, step, cfg, now), q)
  {
    if step.StatusArrives? {
      StatusIsQuietElsewhere(s, step.device, step.sender, step.clientId, step.received, cfg, now, q);
    } else {
      ReadIsQuietElsewhere(s, step.device, step.sender, step.clientId, cfg, now, q);
    }
  }

  /** A status reports to its own row: all ones deliver it, anything else becomes its received set. */
  lemma StatusAtItsRow(s: State, device: DeviceId, sender: UserId, clientId: nat, received: seq<bool>, cfg: Settings,
                       now: Time)
    requires RowsOk(s)
    requires StatusApplies(s, device, Some(sender), clientId, received)
    ensures var k := RowKey(MessageKey(sender, clientId), device);
      var t := RecordStatus(s, device, Some(sender), clientId, received, cfg, now);
      && k in t.deliveries
      && (t.deliveries[k].state.Delivered? <==> Reported(received) == s.messages[k.message].Parts())
      && t.deliveries[k].receivedParts == Reported(received)
      && (InProgressRow(t.deliveries[k]) ==> InProgressRow(s.deliveries[k]))
      && t.deliveries[k].attemptCount == s.deliveries[k].attemptCount
      && (!t.deliveries[k].state.Cancelled?)
  {
    var k := RowKey(MessageKey(sender, clientId), device);
    var d := s.deliveries[k];
    if Reported(received) == s.messages[k.message].Parts() {
      DeliverAtItsRow(s, k, Some(Reported(received)), cfg, now);
      DeliverTouchesRowsAndSessions(s, k, Some(Reported(received)), cfg, now);
      ConfirmTouchesNoDelivery(Deliver(s, k, Some(Reported(received)), cfg, now), k.message, false, cfg, now);
    } else {
      IncompleteAtItsRow(d, Reported(received), RoundSuggestion(s, k, d), cfg, now);
    }
  }

  lemma IncompleteAtItsRow(d: Delivery, received: set<nat>, suggestion: Option<nat>, cfg: Settings, now: Time)
    requires d.Live()
    ensures var e := IncompleteStatus(d, received, suggestion, cfg, now);
      && e.state == d.state && e.session == d.session && e.receivedParts == received && e.attemptCount == d.attemptCount
      && e.roundStartedAt == d.roundStartedAt
  {
  }

  lemma DeliverAtItsRow(s: State, k: RowKey, received: Option<set<nat>>, cfg: Settings, now: Time)
    requires k in s.deliveries && s.deliveries[k].Live()
    ensures var t := Deliver(s, k, received, cfg, now);
      k in t.deliveries && t.deliveries[k] == MarkDelivered(s.deliveries[k], received)
  {
    var d := s.deliveries[k];
    var s1 := UpdateDelivery(s, k, MarkDelivered(d, received));
    var head := if d.state.Pending? then HeadSession(s, d) else None;
    if head.Some? {
      var n := NextHead(s1, head.value);
      assert n.Some? ==> IsQueued(s1, head.value, n.value);
    }
  }

  // ----- preparing packets ----------------------------------------------------------------------

  /** The sender loop changes counters, never what was received, delivered or cancelled. */
  predicate SenderAt(s: State, t: State, k: RowKey) {
    && (k in s.deliveries <==> k in t.deliveries)
    && (k in s.deliveries ==>
          && t.deliveries[k].receivedParts == s.deliveries[k].receivedParts
          && (t.deliveries[k].state.Delivered? <==> s.deliveries[k].state.Delivered?)
          && (t.deliveries[k].state.Cancelled? <==> s.deliveries[k].state.Cancelled?))
  }

  lemma FailReports(s: State, f: RowKey, k: RowKey)
    requires f in s.deliveries
    ensures SenderAt(s, FailExhaustedDelivery(s, f), k)
  {
  }

  /** One packet joins the table under the next id, or none does. */
  predicate Inserts(s: State, r: (State, Option<PacketId>)) {
    if r.1.None? then r.0.packets == s.packets && r.0.nextPacketId == s.nextPacketId
    else r.1.value == s.nextPacketId && s.nextPacketId in r.0.packets
         && r.0.packets == s.packets[s.nextPacketId := r.0.packets[s.nextPacketId]]
  }

  /** The sender loop leaves messages and devices alone. */
  predicate SenderTouches(s: State, r: (State, Option<PacketId>)) {
    r.0.messages == s.messages && r.0.devices == s.devices && Inserts(s, r)
  }

  lemma LowestPartTouches(s: State, k: RowKey)
    requires k in s.deliveries && k.message in s.messages
    ensures var r := PrepareLowestPart(s, k);
      SenderTouches(s, r) && r.0.deliveries == s.deliveries && r.0.receipts == s.receipts
  {
  }

  lemma FailTouches(s: State, k: RowKey)
    requires k in s.deliveries
    ensures var t := FailExhaustedDelivery(s, k);
      SenderTouches(s, (t, None)) && t.receipts == s.receipts
  {
  }

  lemma StartTouches(s: State, k: RowKey, now: Time)
    requires k in s.deliveries && k.message in s.messages
    ensures var d := StartRound(s.deliveries[k], s.messages[k.message].Parts(), now);
      var r := PrepareLowestPart(UpdateDelivery(s, k, d), k);
      SenderTouches(s, r) && r.0.deliveries == s.deliveries[k := d] && r.0.receipts == s.receipts
  {
    LowestPartTouches(UpdateDelivery(s, k, StartRound(s.deliveries[k], s.messages[k.message].Parts(), now)), k);
  }

  lemma PrepareDeliveryTouches(s: State, k: RowKey, cfg: Settings, now: Time)
    ensures SenderTouches(s, PrepareDelivery(s, k, cfg, now))
      && PrepareDelivery(s, k, cfg, now).0.receipts == s.receipts
  {
    if k in s.deliveries && k.message in s.messages && s.deliveries[k].state.Pending? {
      if PartsLeft(s.deliveries[k]) != {} {
        LowestPartTouches(s, k);
      } else if s.deliveries[k].roundParts == {} {
        if s.deliveries[k].attemptCount >= s.deliveries[k].maximumAttempts {
          FailTouches(s, k);
        } else {
          StartTouches(s, k, now);
        }
      }
    }
  }

  lemma InsertTouches(s: State, p: Packet)
    ensures var r := InsertPacket(s, p);
      SenderTouches(s, r) && r.0.deliveries == s.deliveries && r.0.receipts == s.receipts
  {
  }

  lemma PrepareReceiptTouches(s: State, k: RowKey, now: Time)
    ensures SenderTouches(s, PrepareReceipt(s, k, now)) && PrepareReceipt(s, k, now).0.deliveries == s.deliveries
  {
    if k in s.receipts && s.receipts[k].state.ReceiptPending? {
      var r := s.receipts[k];
      if r.roundPending {
        InsertTouches(s, ReceiptPacket(k, r));
      } else if r.attemptCount < r.maximumAttempts {
        InsertTouches(s.(receipts := s.receipts[k := StartAttempt(r, now)]), ReceiptPacket(k, StartAttempt(r, now)));
      }
    }
  }

  lemma CandidateTouches(s: State, c: Candidate, cfg: Settings, now: Time)
    ensures SenderTouches(s, PrepareCandidate(s, c, cfg, now))
  {
    match c
    case DeliveryCandidate(k) => PrepareDeliveryTouches(s, k, cfg, now);
    case ReceiptCandidate(k) => PrepareReceiptTouches(s, k, now);
  }

  lemma PrepareDeliveryReports(s: State, f: RowKey, cfg: Settings, now: Time, k: RowKey)
    ensures SenderAt(s, PrepareDelivery(s, f, cfg, now).0, k)
  {
    if f in s.deliveries && f.message in s.messages && s.deliveries[f].state.Pending? {
      if PartsLeft(s.deliveries[f]) != {} {
        LowestPartTouches(s, f);
      } else if s.deliveries[f].roundParts == {} {
        if s.deliveries[f].attemptCount >= s.deliveries[f].maximumAttempts {
          FailReports(s, f, k);
        } else {
          StartTouches(s, f, now);
        }
      }
    }
  }

  lemma PrepareCandidateReports(s: State, c: Candidate, cfg: Settings, now: Time, k: RowKey)
    ensures SenderAt(s, PrepareCandidate(s, c, cfg, now).0, k)
  {
    match c
    case DeliveryCandidate(f) => PrepareDeliveryReports(s, f, cfg, now, k);
    case ReceiptCandidate(f) => PrepareReceiptTouches(s, f, now);
  }

  lemma {:induction false} PrepareReports(s: State, cands: seq<Candidate>, cfg: Settings, now: Time, k: RowKey)
    ensures SenderAt(s, PrepareNext(s, cands, cfg, now).0, k)
    decreases |cands|
  {
    if cands != [] {
      PrepareCandidateReports(s, cands[0], cfg, now, k);
      PrepareReports(PrepareCandidate(s, cands[0], cfg, now).0, cands[1..], cfg, now, k);
    }
  }

  // ----- any step -------------------------------------------------------------------------------

  lemma RequestStepIsQuiet(s: State, step: Step, cfg: Settings, clock: Time, now: Time)
    requires Inv(s, clock) && clock <= now && cfg.Valid() && Enabled(s, step, cfg, now)
    requires step.PartArrives? || step.RefreshArrives?
    ensures QuietRows(s, Apply(s, step, cfg, now))
  {
    match step
    case PartArrives(req) => PartIsQuiet(s, req, cfg, clock, now);
    case RefreshArrives(device, target, peers) => RefreshIsQuiet(s, device, target, peers, cfg, clock, now);
  }

  lemma OutcomeStepIsQuiet(s: State, step: Step, cfg: Settings, now: Time)
    requires step.OutcomeRecorded?
    ensures QuietRows(s, Apply(s, step, cfg, now))
  {
    OutcomeIsQuiet(s, step.packet, step.outcome, cfg, now);
  }

  lemma QuietStep(s: State, step: Step, cfg: Settings, clock: Time, now: Time, k: RowKey)
    requires Inv(s, clock) && clock <= now && cfg.Valid() && Enabled(s, step, cfg, now)
    requires !step.StatusArrives? && !step.ReadArrives? && !step.PacketPrepared? && !step.DeviceLinked?
    ensures QuietAt(s, Apply(s, step, cfg, now), k)
  {
    if step.PartArrives? || step.RefreshArrives? {
      RequestStepIsQuiet(s, step, cfg, clock, now);
    } else if step.OutcomeRecorded? {
      OutcomeStepIsQuiet(s, step, cfg, now);
    } else {
      StepsThatTouchNoDelivery(s, step, cfg, now);
    }
    assert QuietRows(s, Apply(s, step, cfg, now));
  }

  lemma StepsThatTouchNoDelivery(s: State, step: Step, cfg: Settings, now: Time)
    requires !step.StatusArrives? && !step.ReadArrives? && !step.PacketPrepared? && !step.DeviceLinked?
    requires !step.PartArrives? && !step.RefreshArrives? && !step.OutcomeRecorded?
    ensures Apply(s, step, cfg, now).deliveries == s.deliveries
    ensures QuietRows(s, Apply(s, step, cfg, now))
  {
    QuietSame(s, Apply(s, step, cfg, now));
  }

  /** What a row may look like after a step that is no report: quiet, or cancelled with its received set kept. */
  predicate Unreported(s: State, t: State, k: RowKey) {
    && (k in s.deliveries ==>
          && k in t.deliveries
          && (t.deliveries[k].state.Delivered? ==> s.deliveries[k].state.Delivered?)
          && t.deliveries[k].receivedParts ==
             (if s.deliveries[k].state.Cancelled? && !t.deliveries[k].state.Cancelled?
              then {} else s.deliveries[k].receivedParts))
    && (k !in s.deliveries && k in t.deliveries ==>
      !t.deliveries[k].state.Delivered? && t.deliveries[k].receivedParts == {})
  }

  lemma QuietReportsNothing(s: State, t: State, k: RowKey)
    requires QuietAt(s, t, k)
    ensures Unreported(s, t, k)
  {
  }

  lemma SenderReportsNothing(s: State, t: State, k: RowKey)
    requires SenderAt(s, t, k)
    ensures Unreported(s, t, k)
  {
  }

  lemma SenderStepReportsNothing(s: State, step: Step, cfg: Settings, now: Time, k: RowKey)
    requires step.PacketPrepared?
    ensures Unreported(s, Apply(s, step, cfg, now), k)
  {
    PrepareReports(s, step.candidates, cfg, now, k);
    SenderReportsNothing(s, Apply(s, step, cfg, now), k);
  }

  lemma ReportElsewhereReportsNothing(s: State, step: Step, cfg: Settings, now: Time, k: RowKey)
    requires RowsOk(s) && (step.StatusArrives? || step.ReadArrives?) && ReportedRow(step) != Some(k)
    ensures Unreported(s, Apply(s, step, cfg, now), k)
  {
    ReportIsQuietElsewhere(s, step, cfg, now, k);
    QuietReportsNothing(s, Apply(s, step, cfg, now), k);
  }

  lemma QuietStepReportsNothing(s: State, step: Step, cfg: Settings, clock: Time, now: Time, k: RowKey)
    requires Inv(s, clock) && clock <= now && cfg.Valid() && Enabled(s, step, cfg, now)
    requires !step.StatusArrives? && !step.ReadArrives? && !step.PacketPrepared? && !step.DeviceLinked?
    ensures Unreported(s, Apply(s, step, cfg, now), k)
  {
    QuietStep(s, step, cfg, clock, now, k);
    QuietReportsNothing(s, Apply(s, step, cfg, now), k);
  }

  lemma OtherStepsReportNothing(s: State, step: Step, cfg: Settings, clock: Time, now: Time, k: RowKey)
    requires Inv(s, clock) && clock <= now && cfg.Valid() && Enabled(s, step, cfg, now)
    requires ReportedRow(step) != Some(k)
    ensures Unreported(s, Apply(s, step, cfg, now), k)
  {
    if step.PacketPrepared? {
      SenderStepReportsNothing(s, step, cfg, now, k);
    } else if step.DeviceLinked? {
      LinkReportsNothing(s, step, cfg, now, k);
    } else if step.StatusArrives? || step.ReadArrives? {
      ReportElsewhereReportsNothing(s, step, cfg, now, k);
    } else {
      QuietStepReportsNothing(s, step, cfg, clock, now, k);
    }
  }

  lemma LinkReportsNothing(s: State, step: Step, cfg: Settings, now: Time, k: RowKey)
    requires step.DeviceLinked?
    ensures Unreported(s, Apply(s, step, cfg, now), k)
  {
    if k in s.deliveries {
      LinkOnlyCancels(s, step.device, step.user, k);
    }
  }

  /** A status or a read from that very device about that very message. */
  predicate ConfirmsRow(s: State, step: Step, k: RowKey) {
    && ReportedRow(step) == Some(k)
    && k.message in s.messages
    && (step.StatusArrives? ==>
      |step.received| == |s.messages[k.message].partTexts| && forall i | 0 <= i < |step.received| :: step.received[i])
  }

  lemma AllOnes(received: seq<bool>)
    requires Reported(received) == AllParts(|received|)
    ensures forall i | 0 <= i < |received| :: received[i]
  {
    forall i | 0 <= i < |received| ensures received[i] {
      assert i + 1 in AllParts(|received|);
    }
  }

  /**
   A row becomes delivered only by one single status of all ones from that device, or by a read
   from that device; firmware acknowledgements, time-outs, refreshes and relinks never deliver.
   */
  lemma DeliveredOnlyByReport(s: State, step: Step, cfg: Settings, clock: Time, now: Time, k: RowKey)
    requires Inv(s, clock) && clock <= now && cfg.Valid() && Enabled(s, step, cfg, now)
    requires var t := Apply(s, step, cfg, now); k in t.deliveries && t.deliveries[k].state.Delivered?
    ensures k in s.deliveries && (s.deliveries[k].state.Delivered? || ConfirmsRow(s, step, k))
  {
    if ReportedRow(step) != Some(k) {
      OtherStepsReportNothing(s, step, cfg, clock, now, k);
    } else if step.StatusArrives? && StatusApplies(s, step.device, step.sender, step.clientId, step.received) {
      StatusAtItsRow(s, step.device, step.sender.value, step.clientId, step.received, cfg, now);
      assert RowLinksOk(s, k);
      if Reported(step.received) == s.messages[k.message].Parts() {
        AllOnes(step.received);
      }
    } else {
      ReadRow(s, step, cfg, now, k);
      if k in s.deliveries {
        assert RowLinksOk(s, k);
      }
    }
  }

  /** A status that does not apply changes nothing; a read delivers its live row and creates none. */
  lemma ReadRow(s: State, step: Step, cfg: Settings, now: Time, k: RowKey)
    requires ReportedRow(step) == Some(k)
    requires step.StatusArrives? ==> !StatusApplies(s, step.device, step.sender, step.clientId, step.received)
    ensures var t := Apply(s, step, cfg, now);
      && (k in t.deliveries <==> k in s.deliveries)
      && (k in s.deliveries ==>
            && (t.deliveries[k] == s.deliveries[k] || (step.ReadArrives? && t.deliveries[k].state.Delivered?))
            && t.deliveries[k].attemptCount == s.deliveries[k].attemptCount)
  {
    if step.ReadArrives? && k in s.deliveries && s.deliveries[k].Live() {
      DeliverAtItsRow(s, k, None, cfg, now);
    }
  }

  /** The received set a row carries after a step, given the one it carried before. */
  ghost function ReportAfter(s: State, step: Step, cfg: Settings, now: Time, k: RowKey, previous: set<nat>): set<nat> {
    var t := Apply(s, step, cfg, now);
    if k !in s.deliveries || k !in t.deliveries then {}
    else if step.StatusArrives? && ReportedRow(step) == Some(k)
      && StatusApplies(s, step.device, step.sender, step.clientId, step.received)
    then Reported(step.received)
    else if s.deliveries[k].state.Cancelled? && !t.deliveries[k].state.Cancelled? then {}
    else previous
  }

  lemma OwnReportIsLatest(s: State, step: Step, cfg: Settings, now: Time, k: RowKey)
    requires RowsOk(s) && ReportedRow(step) == Some(k)
    requires var t := Apply(s, step, cfg, now); k in t.deliveries && !t.deliveries[k].state.Delivered?
    ensures var previous := if k in s.deliveries then s.deliveries[k].receivedParts else {};
      Apply(s, step, cfg, now).deliveries[k].receivedParts == ReportAfter(s, step, cfg, now, k, previous)
  {
    if step.StatusArrives? && StatusApplies(s, step.device, step.sender, step.clientId, step.received) {
      StatusAtItsRow(s, step.device, step.sender.value, step.clientId, step.received, cfg, now);
    } else {
      ReadRow(s, step, cfg, now, k);
    }
  }

  lemma UnreportedIsLatest(s: State, step: Step, cfg: Settings, now: Time, k: RowKey)
    requires Unreported(s, Apply(s, step, cfg, now), k) && ReportedRow(step) != Some(k)
    requires k in Apply(s, step, cfg, now).deliveries
    ensures var previous := if k in s.deliveries then s.deliveries[k].receivedParts else {};
      Apply(s, step, cfg, now).deliveries[k].receivedParts == ReportAfter(s, step, cfg, now, k, previous)
  {
  }

  /**
   An undelivered row's received set is exactly the latest accepted status, or empty after a
   revival; never a union.
   */
  lemma ReceivedSetIsLatestReport(s: State, step: Step, cfg: Settings, clock: Time, now: Time, k: RowKey)
    requires Inv(s, clock) && clock <= now && cfg.Valid() && Enabled(s, step, cfg, now)
    requires var t := Apply(s, step, cfg, now); k in t.deliveries && !t.deliveries[k].state.Delivered?
    ensures var previous := if k in s.deliveries then s.deliveries[k].receivedParts else {};
      Apply(s, step, cfg, now).deliveries[k].receivedParts == ReportAfter(s, step, cfg, now, k, previous)
  {
    if ReportedRow(step) != Some(k) {
      OtherStepsReportNothing(s, step, cfg, clock, now, k);
      UnreportedIsLatest(s, step, cfg, now, k);
    } else {
      OwnReportIsLatest(s, step, cfg, now, k);
    }
  }
}
