/** Every service transaction keeps the invariant and only lets rows evolve. */
module StepProofs {
  import opened Options
  import opened Texts
  import opened Times
  import opened RetrySchedule
  import opened Tables
  import opened DeliveryRows
  import opened ReceiptRows
  import opened Transitions
  import opened Invariants
  import opened SessionProofs
  import opened RowProofs
  import opened ReceiptProofs
  import opened MessageProofs
  import opened PacketProofs

  /** The tables that share nothing with packets evolve from s to t. */
  ghost predicate RowsEvolve(s: State, t: State) {
    && MessagesEvolve(s, t) && DeliveriesEvolve(s, t) && ReceiptsEvolve(s, t) && SessionsEvolve(s, t)
    && s.devices.Keys <= t.devices.Keys
  }

  /** A step that leaves the packet table alone. */
  lemma PacketsUntouched(s: State, t: State)
    requires PacketsOk(s) && RowsEvolve(s, t) && t.packets == s.packets && t.nextPacketId == s.nextPacketId
    ensures PacketsOk(t) && Evolves(s, t)
  {
    PacketsFrame(s, t);
  }

  // ----- M ------------------------------------------------------------------------------------

  /** Nothing was delivered of a message that is not accepted yet. */
  lemma NoRowsBeforeAcceptance(s: State, key: MessageKey)
    requires RowsOk(s) && (key in s.messages ==> s.messages[key].acceptedAt.None?)
    ensures forall k | k in s.deliveries :: k.message != key
  {
    forall k | k in s.deliveries ensures k.message != key {
      assert RowLinksOk(s, k);
    }
  }

  lemma AcceptedBefore(s: State, clock: Time, k: RowKey)
    requires MessagesOk(s, clock) && RowsOk(s) && k in s.deliveries
    ensures AcceptedAt(s, k) <= clock
  {
    assert RowLinksOk(s, k);
    assert MessageOk(k.message.sender, s.messages[k.message], s.nextMessageId, clock);
  }

  lemma MessageUpdateEvolves(s: State, key: MessageKey, m: Message, nextId: nat)
    requires key in s.messages ==> MessageEvolves(s.messages[key], m)
    ensures RowsEvolve(s, s.(messages := s.messages[key := m], nextMessageId := nextId))
  {
  }

  lemma MessageUpdateKeepsDelivered(s: State, key: MessageKey, m: Message, nextId: nat)
    requires DeliveredOk(s) && (key in s.messages ==> MessageEvolves(s.messages[key], m))
    ensures DeliveredOk(s.(messages := s.messages[key := m], nextMessageId := nextId))
  {
  }

  lemma MessageUpdateKeepsReceipts(s: State, key: MessageKey, m: Message, nextId: nat)
    requires ReceiptsOk(s) && (key in s.messages ==> MessageEvolves(s.messages[key], m))
    ensures ReceiptsOk(s.(messages := s.messages[key := m], nextMessageId := nextId))
  {
    ReceiptsFrame(s, s.(messages := s.messages[key := m], nextMessageId := nextId));
  }

  lemma MessageUpdateKeepsRows(s: State, key: MessageKey, m: Message, nextId: nat)
    requires RowsOk(s) && (key in s.messages ==> MessageEvolves(s.messages[key], m))
    ensures RowsOk(s.(messages := s.messages[key := m], nextMessageId := nextId))
  {
    MessageChangeKeepsRows(s, s.(messages := s.messages[key := m], nextMessageId := nextId));
  }

  /** Replacing a message by the one a part made of it, or adding a new one. */
  lemma PlaceKeepsTables(s: State, key: MessageKey, m: Message, nextId: nat)
    requires RowsOk(s) && DeliveredOk(s) && SessionsOk(s) && ReceiptsOk(s)
    requires key in s.messages ==> MessageEvolves(s.messages[key], m)
    ensures var t := s.(messages := s.messages[key := m], nextMessageId := nextId);
      && RowsOk(t) && DeliveredOk(t) && SessionsOk(t) && ReceiptsOk(t) && RowsEvolve(s, t)
  {
    MessageUpdateKeepsRows(s, key, m, nextId);
    MessageUpdateKeepsDelivered(s, key, m, nextId);
    MessageUpdateKeepsReceipts(s, key, m, nextId);
    MessageUpdateEvolves(s, key, m, nextId);
    IncompleteMessageKeepsSessions(s, key, m, nextId);
  }

  lemma FanOutEvolves(s: State, key: MessageKey, recipient: UserId, cfg: Settings, now: Time)
    requires forall k | k in s.deliveries :: k.message != key
    ensures RowsEvolve(s, FanOut(s, key, recipient, cfg, now))
    ensures DeliveredOk(s) ==> DeliveredOk(FanOut(s, key, recipient, cfg, now))
  {
    var t := FanOut(s, key, recipient, cfg, now);
    forall k | k in s.deliveries ensures k in t.deliveries && t.deliveries[k] == s.deliveries[k] {
      FanOutRowAt(s, key, recipient, cfg, now, k);
    }
    forall k | k in t.deliveries && t.deliveries[k].state.Delivered? ensures k in s.deliveries {
      FanOutRowAt(s, key, recipient, cfg, now, k);
    }
  }

  /** Accepting a message: the message row, then one delivery per device of the recipient. */
  lemma AcceptanceKeepsInv(s: State, key: MessageKey, m: Message, cfg: Settings, clock: Time, now: Time)
    requires Inv(s, clock) && clock <= now && cfg.Valid() && key in s.messages && s.messages[key].acceptedAt.None?
    requires MessageOk(key.sender, m, s.nextMessageId, now) && MessageEvolves(s.messages[key], m)
    requires m.acceptedAt == Some(now) && m.deliveredAt.None? && m.readAt.None?
    ensures var t := FanOut(s.(messages := s.messages[key := m]), key, m.recipient, cfg, now);
      Inv(t, now) && Evolves(s, t)
  {
    assert MessageOk(key.sender, s.messages[key], s.nextMessageId, clock);
    var s1 := s.(messages := s.messages[key := m]);
    MessageUpdateKeepsMessages(s, key, m, clock, now);
    PlaceKeepsTables(s, key, m, s.nextMessageId);
    NoRowsBeforeAcceptance(s, key);
    forall k | k in s1.deliveries ensures k.message != key && AcceptedAt(s1, k) <= now {
      AcceptedBefore(s, clock, k);
    }
    FanOutKeepsSessions(s1, key, m.recipient, cfg, now);
    FanOutKeepsRows(s1, key, m.recipient, cfg, now);
    FanOutEvolves(s1, key, m.recipient, cfg, now);
    var t := FanOut(s1, key, m.recipient, cfg, now);
    ReceiptsFrame(s1, t);
    RowsEvolveTransitive(s, s1, t);
    PacketsUntouched(s, t);
  }

  lemma RowsEvolveTransitive(s: State, t: State, u: State)
    requires RowsEvolve(s, t) && RowsEvolve(t, u)
    ensures RowsEvolve(s, u)
  {
    var s1, t1, u1 := s.(packets := map[]), t.(packets := map[]), u.(packets := map[]);
    EvolvesTransitive(s1, t1, u1);
  }

  lemma StoreKeepsInv(s: State, key: MessageKey, m: Message, clock: Time, now: Time)
    requires Inv(s, clock) && clock <= now && key in s.messages
    requires MessageOk(key.sender, m, s.nextMessageId, now) && MessageEvolves(s.messages[key], m)
    ensures var t := s.(messages := s.messages[key := m]);
      Inv(t, now) && Evolves(s, t)
  {
    var t := s.(messages := s.messages[key := m]);
    MessageUpdateKeepsMessages(s, key, m, clock, now);
    PlaceKeepsTables(s, key, m, s.nextMessageId);
    PacketsUntouched(s, t);
  }

  lemma ClockKeepsInv(s: State, clock: Time, now: Time)
    requires Inv(s, clock) && clock <= now
    ensures Inv(s, now) && Evolves(s, s)
  {
    ClockKeepsMessages(s, clock, now);
    EvolvesReflexive(s);
  }

  /** What placing a part without conflict leaves: the message, and at acceptance its deliveries. */
  lemma PlacedTables(s: State, key: MessageKey, recipient: UserId, req: PartRequest, cfg: Settings, now: Time)
    requires key in s.messages && !Conflicts(s.messages[key], recipient, req)
    ensures var stored := StorePart(s.messages[key], req);
      var s1 := s.(messages := s.messages[key := Placed(s.messages[key], req, now)]);
      PlacePart(s, key, recipient, req, cfg, now).0 ==
        if stored.acceptedAt.None? && AllHeld(stored) then FanOut(s1, key, stored.recipient, cfg, now) else s1
  {
    var stored := StorePart(s.messages[key], req);
    var placed := Placed(s.messages[key], req, now);
    assert s.messages[key := stored][key := placed] == s.messages[key := placed];
  }

  lemma PlacePartKeepsInv(s: State, key: MessageKey, recipient: UserId, req: PartRequest, cfg: Settings, clock: Time,
                          now: Time)
    requires Inv(s, clock) && clock <= now && cfg.Valid() && key in s.messages && IsValidPartText(req.text)
    ensures var t := PlacePart(s, key, recipient, req, cfg, now).0;
      Inv(t, now) && Evolves(s, t)
  {
    var m := s.messages[key];
    assert MessageOk(key.sender, m, s.nextMessageId, clock);
    if Conflicts(m, recipient, req) {
      ClockKeepsInv(s, clock, now);
    } else {
      PlacedMessageOk(key.sender, m, req, s.nextMessageId, clock, now);
      PlacedTables(s, key, recipient, req, cfg, now);
      var stored := StorePart(m, req);
      if stored.acceptedAt.None? && AllHeld(stored) {
        AcceptanceKeepsInv(s, key, Placed(m, req, now), cfg, clock, now);
      } else {
        StoreKeepsInv(s, key, Placed(m, req, now), clock, now);
      }
    }
  }

  lemma AddKeepsInv(s: State, key: MessageKey, recipient: UserId, req: PartRequest, clock: Time)
    requires Inv(s, clock) && key !in s.messages && MessagesOk(FindOrCreateMessage(s, key, recipient, req), clock)
    ensures var t := FindOrCreateMessage(s, key, recipient, req);
      Inv(t, clock) && Evolves(s, t)
  {
    PlaceKeepsTables(s, key, NewMessage(s, recipient, req), s.nextMessageId + 1);
    PacketsUntouched(s, FindOrCreateMessage(s, key, recipient, req));
  }

  lemma CreateKeepsInv(s: State, key: MessageKey, recipient: UserId, req: PartRequest, clock: Time)
    requires Inv(s, clock) && recipient != key.sender && ValidPartNumbering(req.partNumber, req.partCount)
    ensures var t := FindOrCreateMessage(s, key, recipient, req);
      Inv(t, clock) && Evolves(s, t)
  {
    if key in s.messages {
      EvolvesReflexive(s);
    } else {
      CreateKeepsMessages(s, key, recipient, req, clock);
      AddKeepsInv(s, key, recipient, req, clock);
    }
  }

  lemma PartKeepsInv(s: State, req: PartRequest, cfg: Settings, clock: Time, now: Time)
    requires Inv(s, clock) && clock <= now && cfg.Valid()
    ensures var t := AcceptPart(s, req, cfg, now).0;
      Inv(t, now) && Evolves(s, t)
  {
    var user := SignedInUser(s, req.device);
    if user.Some? && req.recipient.Some? && req.recipient != user
       && ValidPartNumbering(req.partNumber, req.partCount) && IsValidPartText(req.text)
    {
      var key := MessageKey(user.value, req.clientId);
      var s1 := FindOrCreateMessage(s, key, req.recipient.value, req);
      CreateKeepsInv(s, key, req.recipient.value, req, clock);
      PlacePartKeepsInv(s1, key, req.recipient.value, req, cfg, clock, now);
      EvolvesTransitive(s, s1, AcceptPart(s, req, cfg, now).0);
    } else {
      ClockKeepsInv(s, clock, now);
    }
  }

  // ----- K and R ------------------------------------------------------------------------------

  /** A single row changes, its state and owner stay. */
  lemma RowUpdateKeepsInv(s: State, k: RowKey, d: Delivery, clock: Time, now: Time)
    requires Inv(s, clock) && clock <= now && k in s.deliveries
    requires d.state == s.deliveries[k].state && d.session == s.deliveries[k].session && !d.state.Delivered?
    requires RowCountersOk(d, s.messages[k.message].Parts()) && DeliveryEvolves(s.deliveries[k], d)
    ensures var t := UpdateDelivery(s, k, d);
      Inv(t, now) && Evolves(s, t)
  {
    var t := UpdateDelivery(s, k, d);
    ClockKeepsMessages(s, clock, now);
    SameStateKeepsRows(s, k, d);
    RowUpdateKeepsSessions(s, k, d);
    ReceiptsSame(s, t);
    RowUpdateKeepsDelivered(s, k, d);
    RowUpdateEvolves(s, k, d);
    PacketsUntouched(s, t);
  }

  lemma RowUpdateKeepsDelivered(s: State, k: RowKey, d: Delivery)
    requires DeliveredOk(s) && k in s.deliveries && !d.state.Delivered?
    ensures DeliveredOk(UpdateDelivery(s, k, d))
  {
  }

  lemma RowUpdateEvolves(s: State, k: RowKey, d: Delivery)
    requires k in s.deliveries && DeliveryEvolves(s.deliveries[k], d)
    ensures RowsEvolve(s, UpdateDelivery(s, k, d))
  {
  }

  /** What delivering a row and handing over its session leave for the message and the receipts. */
  lemma DeliverKeepsTables(s: State, k: RowKey, received: Option<set<nat>>, cfg: Settings, now: Time)
    requires RowsOk(s) && SessionsOk(s) && ReceiptsOk(s) && cfg.Valid()
    requires k in s.deliveries && s.deliveries[k].Live()
    ensures var t := Deliver(s, k, received, cfg, now);
      && RowsOk(t) && SessionsOk(t) && ReceiptsOk(t) && RowsEvolve(s, t)
      && t.messages == s.messages && t.receipts == s.receipts && t.packets == s.packets && t.devices == s.devices
      && t.nextMessageId == s.nextMessageId && t.nextPacketId == s.nextPacketId
  {
    DeliverKeepsRows(s, k, received, cfg, now);
    DeliverKeepsSessions(s, k, received, cfg, now);
    DeliverEvolves(s, k, received, cfg, now);
    DeliverTouchesRowsAndSessions(s, k, received, cfg, now);
    ReceiptsSame(s, Deliver(s, k, received, cfg, now));
  }

  lemma DeliverTouchesRowsAndSessions(s: State, k: RowKey, received: Option<set<nat>>, cfg: Settings, now: Time)
    requires k in s.deliveries
    ensures var t := Deliver(s, k, received, cfg, now);
      && t.messages == s.messages && t.receipts == s.receipts && t.packets == s.packets && t.devices == s.devices
      && t.nextMessageId == s.nextMessageId && t.nextPacketId == s.nextPacketId
  {
    var d := s.deliveries[k];
    var head := if d.state.Pending? then HeadSession(s, d) else None;
    if head.Some? {
      AdvanceTouches(UpdateDelivery(s, k, MarkDelivered(d, received)), head.value, cfg, now);
    }
  }

  lemma AdvanceEvolves(s: State, sid: SessionId, cfg: Settings, now: Time)
    requires sid in s.sessions && s.sessions[sid].state.Active?
    ensures RowsEvolve(s, AdvanceSession(s, sid, cfg, now))
  {
    var n := NextHead(s, sid);
    if n.Some? {
      assert IsQueued(s, sid, n.value);
      RowUpdateEvolves(s, n.value, Arm(s.deliveries[n.value], cfg, now));
    }
  }

  lemma DeliverEvolves(s: State, k: RowKey, received: Option<set<nat>>, cfg: Settings, now: Time)
    requires k in s.deliveries && s.deliveries[k].Live()
    ensures RowsEvolve(s, Deliver(s, k, received, cfg, now))
  {
    var d := s.deliveries[k];
    var s1 := UpdateDelivery(s, k, MarkDelivered(d, received));
    RowUpdateEvolves(s, k, MarkDelivered(d, received));
    var head := if d.state.Pending? then HeadSession(s, d) else None;
    if head.Some? {
      AdvanceEvolves(s1, head.value, cfg, now);
      RowsEvolveTransitive(s, s1, AdvanceSession(s1, head.value, cfg, now));
    }
  }

  /** The only row a delivery turns delivered is its own. */
  lemma DeliverDeliversOne(s: State, k: RowKey, received: Option<set<nat>>, cfg: Settings, now: Time, q: RowKey)
    requires k in s.deliveries && s.deliveries[k].Live()
    ensures var t := Deliver(s, k, received, cfg, now);
      && (q in t.deliveries <==> q in s.deliveries)
      && (q in s.deliveries ==> (t.deliveries[q].state.Delivered? <==> s.deliveries[q].state.Delivered? || q == k))
  {
    var d := s.deliveries[k];
    var head := if d.state.Pending? then HeadSession(s, d) else None;
    if head.Some? {
      AdvanceDeliversNothing(UpdateDelivery(s, k, MarkDelivered(d, received)), head.value, cfg, now, q);
    }
  }

  lemma AdvanceDeliversNothing(s: State, sid: SessionId, cfg: Settings, now: Time, q: RowKey)
    ensures var t := AdvanceSession(s, sid, cfg, now);
      && (q in t.deliveries <==> q in s.deliveries)
      && (q in s.deliveries ==> (t.deliveries[q].state.Delivered? <==> s.deliveries[q].state.Delivered?))
  {
    var n := NextHead(s, sid);
    assert n.Some? ==> IsQueued(s, sid, n.value);
  }

  /** Confirming the message closes what delivering its row opened. */
  lemma ConfirmKeepsTables(s: State, key: MessageKey, isRead: bool, cfg: Settings, clock: Time, now: Time)
    requires MessagesOk(s, clock) && RowsOk(s) && SessionsOk(s) && ReceiptsOk(s) && clock <= now && cfg.Valid()
    requires key in s.messages && s.messages[key].acceptedAt.Some?
    requires forall k | k in s.deliveries && s.deliveries[k].state.Delivered? ::
      k.message == key || (k.message in s.messages && s.messages[k.message].deliveredAt.Some?)
    ensures var t := ConfirmMessage(s, key, isRead, cfg, now);
      && MessagesOk(t, now) && RowsOk(t) && DeliveredOk(t) && SessionsOk(t) && ReceiptsOk(t) && RowsEvolve(s, t)
      && t.packets == s.packets && t.nextPacketId == s.nextPacketId
  {
    assert MessageOk(key.sender, s.messages[key], s.nextMessageId, clock);
    ConfirmKeepsMessages(s, key, isRead, cfg, clock, now);
    ConfirmKeepsReceipts(s, key, isRead, cfg, now);
    ConfirmKeepsSessions(s, key, isRead, cfg, now);
    ConfirmKeepsRowTable(s, key, isRead, cfg, now);
    ConfirmClosesDelivered(s, key, isRead, cfg, now);
    ConfirmTouchesMessagesAndReceipts(s, key, isRead, cfg, now);
  }

  lemma ConfirmTouchesMessagesAndReceipts(s: State, key: MessageKey, isRead: bool, cfg: Settings, now: Time)
    requires key in s.messages
    ensures var t := ConfirmMessage(s, key, isRead, cfg, now);
      && DeliveriesEvolve(s, t) && SessionsEvolve(s, t) && t.devices == s.devices
      && t.packets == s.packets && t.nextPacketId == s.nextPacketId
  {
    EvolvesReflexive(s);
  }

  lemma ConfirmClosesDelivered(s: State, key: MessageKey, isRead: bool, cfg: Settings, now: Time)
    requires key in s.messages
    requires forall k | k in s.deliveries && s.deliveries[k].state.Delivered? ::
      k.message == key || (k.message in s.messages && s.messages[k.message].deliveredAt.Some?)
    ensures DeliveredOk(ConfirmMessage(s, key, isRead, cfg, now))
  {
  }

  lemma ConfirmKeepsRowTable(s: State, key: MessageKey, isRead: bool, cfg: Settings, now: Time)
    requires RowsOk(s) && key in s.messages
    ensures RowsOk(ConfirmMessage(s, key, isRead, cfg, now))
  {
    MessageChangeKeepsRows(s, ConfirmMessage(s, key, isRead, cfg, now));
  }

  /** A row delivered and its message confirmed, in one transaction. */
  lemma DeliverAndConfirmKeepsInv(s: State, k: RowKey, received: Option<set<nat>>, isRead: bool, cfg: Settings,
                                  clock: Time, now: Time)
    requires Inv(s, clock) && clock <= now && cfg.Valid()
    requires k in s.deliveries && s.deliveries[k].Live()
    ensures k.message in s.messages && k.message in Deliver(s, k, received, cfg, now).messages
    ensures var t := ConfirmMessage(Deliver(s, k, received, cfg, now), k.message, isRead, cfg, now);
      Inv(t, now) && Evolves(s, t)
  {
    assert RowLinksOk(s, k);
    var s1 := Deliver(s, k, received, cfg, now);
    DeliverKeepsTables(s, k, received, cfg, now);
    assert MessagesOk(s1, clock);
    forall q | q in s1.deliveries && s1.deliveries[q].state.Delivered?
      ensures q.message == k.message || (q.message in s1.messages && s1.messages[q.message].deliveredAt.Some?)
    {
      DeliverDeliversOne(s, k, received, cfg, now, q);
    }
    ConfirmKeepsTables(s1, k.message, isRead, cfg, clock, now);
    var t := ConfirmMessage(s1, k.message, isRead, cfg, now);
    RowsEvolveTransitive(s, s1, t);
    PacketsUntouched(s, t);
  }

  lemma ConfirmOnlyKeepsInv(s: State, key: MessageKey, isRead: bool, cfg: Settings, clock: Time, now: Time)
    requires Inv(s, clock) && clock <= now && cfg.Valid() && key in s.messages && s.messages[key].acceptedAt.Some?
    ensures var t := ConfirmMessage(s, key, isRead, cfg, now);
      Inv(t, now) && Evolves(s, t)
  {
    ConfirmKeepsTables(s, key, isRead, cfg, clock, now);
    PacketsUntouched(s, ConfirmMessage(s, key, isRead, cfg, now));
  }

  /** An incomplete status is a proper subset of the message's parts. */
  lemma IncompleteIsProper(received: seq<bool>, parts: set<nat>)
    requires parts == AllParts(|received|) && Reported(received) != parts
    ensures Reported(received) < parts
  {
  }

  /** What an incomplete status makes of a live row. */
  lemma IncompleteRow(s: State, k: RowKey, received: seq<bool>, suggestion: Option<nat>, cfg: Settings, now: Time)
    requires RowsOk(s) && k in s.deliveries && s.deliveries[k].Live() && k.message in s.messages
    requires |received| == |s.messages[k.message].partTexts| && Reported(received) != s.messages[k.message].Parts()
    ensures var d := IncompleteStatus(s.deliveries[k], Reported(received), suggestion, cfg, now);
      && d.state == s.deliveries[k].state && d.session == s.deliveries[k].session && !d.state.Delivered?
      && RowCountersOk(d, s.messages[k.message].Parts()) && DeliveryEvolves(s.deliveries[k], d)
  {
    var parts := s.messages[k.message].Parts();
    IncompleteIsProper(received, parts);
    assert RowCountersOk(s.deliveries[k], parts);
    IncompleteStatusCounters(s.deliveries[k], parts, Reported(received), suggestion, cfg, now);
  }

  lemma StatusKeepsInv(s: State, device: DeviceId, sender: Option<UserId>, clientId: nat, received: seq<bool>,
                       cfg: Settings, clock: Time, now: Time)
    requires Inv(s, clock) && clock <= now && cfg.Valid()
    ensures var t := RecordStatus(s, device, sender, clientId, received, cfg, now);
      Inv(t, now) && Evolves(s, t)
  {
    if !StatusApplies(s, device, sender, clientId, received) {
      ClockKeepsInv(s, clock, now);
    } else {
      var k := RowKey(MessageKey(sender.value, clientId), device);
      if Reported(received) != s.messages[k.message].Parts() {
        var d := IncompleteStatus(s.deliveries[k], Reported(received), RoundSuggestion(s, k, s.deliveries[k]), cfg,
          now);
        IncompleteRow(s, k, received, RoundSuggestion(s, k, s.deliveries[k]), cfg, now);
        RowUpdateKeepsInv(s, k, d, clock, now);
      } else {
        DeliverAndConfirmKeepsInv(s, k, Some(Reported(received)), false, cfg, clock, now);
      }
    }
  }

  lemma ReadKeepsInv(s: State, device: DeviceId, sender: Option<UserId>, clientId: nat, cfg: Settings, clock: Time,
                     now: Time)
    requires Inv(s, clock) && clock <= now && cfg.Valid()
    ensures var t := RecordRead(s, device, sender, clientId, cfg, now);
      Inv(t, now) && Evolves(s, t)
  {
    if sender.None? || !IsIncoming(s, device, MessageKey(sender.value, clientId)) {
      ClockKeepsInv(s, clock, now);
    } else {
      var k := RowKey(MessageKey(sender.value, clientId), device);
      if k in s.deliveries && s.deliveries[k].Live() {
        DeliverAndConfirmKeepsInv(s, k, None, true, cfg, clock, now);
      } else {
        ConfirmOnlyKeepsInv(s, k.message, true, cfg, clock, now);
      }
    }
  }

  // ----- C and the packet table ---------------------------------------------------------------

  lemma ReceiptUpdateEvolves(s: State, k: RowKey, r: Receipt)
    requires k in s.receipts && ReceiptEvolves(s.receipts[k], r)
    ensures RowsEvolve(s, s.(receipts := s.receipts[k := r]))
  {
  }

  /** Sessions and rows do not look at receipts. */
  lemma ReceiptTableLeavesRows(s: State, receipts: map<RowKey, Receipt>)
    requires RowsOk(s) && SessionsOk(s) && DeliveredOk(s)
    ensures var t := s.(receipts := receipts);
      RowsOk(t) && SessionsOk(t) && DeliveredOk(t)
  {
    var t := s.(receipts := receipts);
    MessageChangeKeepsRows(s, t);
    forall sid | sid in s.sessions && s.sessions[sid].state.Active? ensures SessionUntouched(s, t, sid) {
    }
    SessionsFrame(s, t);
  }

  lemma ReceiptUpdateKeepsInv(s: State, k: RowKey, r: Receipt, clock: Time, now: Time)
    requires Inv(s, clock) && clock <= now && k in s.receipts
    requires ReceiptOk(r, s.messages[k.message].Level()) && ReceiptEvolves(s.receipts[k], r)
    requires !r.state.ReceiptCancelled? && r.confirmedLevel < READ_LEVEL ==>
      s.devices[k.device].user == Some(k.message.sender)
    ensures var t := s.(receipts := s.receipts[k := r]);
      Inv(t, now) && Evolves(s, t)
  {
    var t := s.(receipts := s.receipts[k := r]);
    ClockKeepsMessages(s, clock, now);
    ReceiptUpdateKeepsReceipts(s, k, r);
    ReceiptTableLeavesRows(s, t.receipts);
    ReceiptUpdateEvolves(s, k, r);
    PacketsUntouched(s, t);
  }

  lemma ConfirmReceiptKeepsInv(s: State, k: RowKey, level: nat, clock: Time, now: Time)
    requires Inv(s, clock) && clock <= now && k in s.receipts
    ensures var t := s.(receipts := s.receipts[k := Confirm(s.receipts[k], level)]);
      Inv(t, now) && Evolves(s, t)
  {
    assert ReceiptLinksOk(s, k) && ReceiptOk(s.receipts[k], s.messages[k.message].Level());
    ConfirmOk(s.receipts[k], s.messages[k.message].Level(), level);
    ReceiptUpdateKeepsInv(s, k, Confirm(s.receipts[k], level), clock, now);
  }

  /** The receipt a C concerns. */
  predicate ConfirmationApplies(s: State, device: DeviceId, recipient: Option<UserId>, clientId: nat) {
    && SignedInUser(s, device).Some? && recipient.Some?
    && var key := MessageKey(SignedInUser(s, device).value, clientId);
    && key in s.messages && s.messages[key].acceptedAt.Some? && s.messages[key].recipient == recipient.value
    && RowKey(key, device) in s.receipts
  }

  lemma ConfirmationIs(s: State, device: DeviceId, recipient: Option<UserId>, clientId: nat, level: nat)
    ensures RecordReceiptConfirmation(s, device, recipient, clientId, level) ==
      if ConfirmationApplies(s, device, recipient, clientId) then
        var k := RowKey(MessageKey(SignedInUser(s, device).value, clientId), device);
        s.(receipts := s.receipts[k := Confirm(s.receipts[k], level)])
      else s
  {
  }

  lemma ConfirmationKeepsInv(s: State, device: DeviceId, recipient: Option<UserId>, clientId: nat, level: nat,
                             clock: Time, now: Time)
    requires Inv(s, clock) && clock <= now
    ensures var t := RecordReceiptConfirmation(s, device, recipient, clientId, level);
      Inv(t, now) && Evolves(s, t)
  {
    ConfirmationIs(s, device, recipient, clientId, level);
    if ConfirmationApplies(s, device, recipient, clientId) {
      ConfirmReceiptKeepsInv(s, RowKey(MessageKey(SignedInUser(s, device).value, clientId), device), level, clock, now);
    } else {
      ClockKeepsInv(s, clock, now);
    }
  }

  /** Only the states of packets change. */
  lemma PacketTableKeepsInv(s: State, packets: map<PacketId, Packet>, clock: Time, now: Time)
    requires Inv(s, clock) && clock <= now && packets.Keys == s.packets.Keys
    requires forall id | id in packets :: PacketEvolves(s.packets[id], packets[id])
    ensures var t := s.(packets := packets);
      Inv(t, now) && Evolves(s, t)
  {
    var t := s.(packets := packets);
    ClockKeepsInv(s, clock, now);
    PacketTableLeavesRows(s, packets);
    PacketTableEvolves(s, packets);
    PacketsFrame(s, t);
  }

  lemma PacketTableEvolves(s: State, packets: map<PacketId, Packet>)
    requires packets.Keys == s.packets.Keys
    requires forall id | id in packets :: PacketEvolves(s.packets[id], packets[id])
    ensures Evolves(s, s.(packets := packets))
  {
    EvolvesReflexive(s);
  }

  lemma PacketTableLeavesRows(s: State, packets: map<PacketId, Packet>)
    requires RowsOk(s) && SessionsOk(s) && DeliveredOk(s) && ReceiptsOk(s)
    ensures var t := s.(packets := packets);
      RowsOk(t) && SessionsOk(t) && DeliveredOk(t) && ReceiptsOk(t)
  {
    var t := s.(packets := packets);
    MessageChangeKeepsRows(s, t);
    forall sid | sid in s.sessions && s.sessions[sid].state.Active? ensures SessionUntouched(s, t, sid) {
    }
    SessionsFrame(s, t);
    ReceiptsSame(s, t);
  }

  // ----- devices ------------------------------------------------------------------------------

  lemma DevicesChangeKeepsInv(s: State, devices: map<DeviceId, Device>, clock: Time, now: Time)
    requires Inv(s, clock) && clock <= now && KeepsUsers(s.devices, devices)
    ensures var t := s.(devices := devices);
      Inv(t, now) && Evolves(s, t)
  {
    var t := s.(devices := devices);
    ClockKeepsMessages(s, clock, now);
    DevicesChangeKeepsRows(s, devices);
    DevicesChangeKeepsSessions(s, devices);
    DevicesChangeKeepsReceipts(s, devices);
    DevicesChangeEvolves(s, devices);
    PacketsUntouched(s, t);
  }

  lemma DevicesChangeEvolves(s: State, devices: map<DeviceId, Device>)
    requires KeepsUsers(s.devices, devices)
    ensures RowsEvolve(s, s.(devices := devices))
    ensures DeliveredOk(s) ==> DeliveredOk(s.(devices := devices))
  {
    EvolvesReflexive(s);
  }

  lemma DevicesChangeKeepsReceipts(s: State, devices: map<DeviceId, Device>)
    requires ReceiptsOk(s) && KeepsUsers(s.devices, devices)
    ensures ReceiptsOk(s.(devices := devices))
  {
    ReceiptsFrame(s, s.(devices := devices));
  }

  lemma DevicesChangeKeepsSessions(s: State, devices: map<DeviceId, Device>)
    requires SessionsOk(s) && KeepsUsers(s.devices, devices)
    ensures SessionsOk(s.(devices := devices))
  {
    var t := s.(devices := devices);
    forall sid | sid in s.sessions && s.sessions[sid].state.Active? ensures SessionUntouched(s, t, sid) {
    }
    SessionsFrame(s, t);
  }

  lemma RelinkEvolves(s: State, device: DeviceId, user: UserId)
    requires device in s.devices
    ensures RowsEvolve(s, RelinkDevice(s, device, user))
    ensures DeliveredOk(s) ==> DeliveredOk(RelinkDevice(s, device, user))
  {
  }

  lemma LinkKeepsInv(s: State, device: DeviceId, user: UserId, clock: Time, now: Time)
    requires Inv(s, clock) && clock <= now
    ensures var t := LinkDevice(s, device, user);
      Inv(t, now) && Evolves(s, t)
  {
    if device !in s.devices || s.devices[device].user == Some(user) {
      ClockKeepsInv(s, clock, now);
    } else if s.devices[device].user.None? {
      DevicesChangeKeepsInv(s, s.devices[device := s.devices[device].(user := Some(user))], clock, now);
    } else {
      RelinkKeepsInv(s, device, user, clock, now);
    }
  }

  lemma RelinkKeepsInv(s: State, device: DeviceId, user: UserId, clock: Time, now: Time)
    requires Inv(s, clock) && clock <= now && device in s.devices
    ensures var t := RelinkDevice(s, device, user);
      Inv(t, now) && Evolves(s, t)
  {
    ClockKeepsMessages(s, clock, now);
    RelinkKeepsRows(s, device, user);
    RelinkKeepsSessions(s, device, user);
    RelinkKeepsReceipts(s, device, user);
    RelinkEvolves(s, device, user);
    PacketsUntouched(s, RelinkDevice(s, device, user));
  }

  // ----- the outcome of a send ------------------------------------------------------------------

  lemma SentPartKeepsInv(s: State, k: RowKey, part: nat, suggestion: Option<nat>, cfg: Settings, clock: Time, now: Time)
    requires Inv(s, clock) && clock <= now && k in s.deliveries && s.deliveries[k].state.Pending?
    ensures var t := UpdateDelivery(s, k, PartSent(s.deliveries[k], part, suggestion, cfg, now));
      Inv(t, now) && Evolves(s, t)
  {
    var d := s.deliveries[k];
    assert RowLinksOk(s, k) && RowCountersOk(d, s.messages[k.message].Parts());
    PartSentCounters(d, s.messages[k.message].Parts(), part, suggestion, cfg, now);
    RowUpdateKeepsInv(s, k, PartSent(d, part, suggestion, cfg, now), clock, now);
  }

  lemma SentReceiptKeepsInv(s: State, k: RowKey, suggestion: Option<nat>, cfg: Settings, clock: Time, now: Time)
    requires Inv(s, clock) && clock <= now && k in s.receipts && s.receipts[k].state.ReceiptPending?
    ensures var t := s.(receipts := s.receipts[k := ReceiptSent(s.receipts[k], suggestion, cfg, now)]);
      Inv(t, now) && Evolves(s, t)
  {
    assert ReceiptLinksOk(s, k) && ReceiptOk(s.receipts[k], s.messages[k.message].Level());
    ReceiptUpdateKeepsInv(s, k, ReceiptSent(s.receipts[k], suggestion, cfg, now), clock, now);
  }

  lemma CountAsSentKeepsInv(s: State, p: Packet, suggestion: Option<nat>, cfg: Settings, clock: Time, now: Time)
    requires Inv(s, clock) && clock <= now
    ensures var t := CountAsSent(s, p, suggestion, cfg, now);
      Inv(t, now) && Evolves(s, t) && t.packets == s.packets
  {
    if MatchesDelivery(s, p) {
      SentPartKeepsInv(s, p.row, p.purpose.part, suggestion, cfg, clock, now);
    } else if MatchesReceipt(s, p) {
      SentReceiptKeepsInv(s, p.row, suggestion, cfg, clock, now);
    } else {
      ClockKeepsInv(s, clock, now);
    }
  }

  lemma MissingOnNodeKeepsInv(s: State, device: DeviceId, clock: Time)
    requires Inv(s, clock)
    ensures var t := MarkMissingOnNode(s, device);
      Inv(t, clock) && Evolves(s, t) && t.packets == s.packets
  {
    if device in s.devices {
      DevicesChangeKeepsInv(s, s.devices[device := s.devices[device].(onNode := false)], clock, clock);
    } else {
      EvolvesReflexive(s);
    }
  }

  lemma OutcomeKeepsInv(s: State, id: PacketId, outcome: SendOutcome, cfg: Settings, clock: Time, now: Time)
    requires Inv(s, clock) && clock <= now
    ensures var t := RecordOutcome(s, id, outcome, cfg, now);
      Inv(t, now) && Evolves(s, t)
  {
    if id !in s.packets || !s.packets[id].state.Prepared? {
      ClockKeepsInv(s, clock, now);
    } else {
      var p := s.packets[id];
      var s1 := if outcome == Rejected(ERR_CODE_NOT_FOUND) then MarkMissingOnNode(s, p.row.device) else s;
      var s2 := if CountsAsSent(outcome) then CountAsSent(s1, p, Suggestion(outcome), cfg, now) else s1;
      EvolvesReflexive(s);
      MissingOnNodeKeepsInv(s, p.row.device, clock);
      CountAsSentKeepsInv(s1, p, Suggestion(outcome), cfg, clock, now);
      ClockKeepsInv(s1, clock, now);
      EvolvesTransitive(s, s1, s2);
      OutcomePacketKeepsInv(s2, id, p, outcome, now);
      EvolvesTransitive(s, s2, RecordOutcome(s, id, outcome, cfg, now));
    }
  }

  lemma OutcomePacketKeepsInv(s: State, id: PacketId, p: Packet, outcome: SendOutcome, now: Time)
    requires Inv(s, now) && id in s.packets && s.packets[id] == p
    ensures var t := s.(packets := s.packets[id := PacketAfter(p, outcome, now)]);
      Inv(t, now) && Evolves(s, t)
  {
    PacketTableKeepsInv(s, s.packets[id := PacketAfter(p, outcome, now)], now, now);
  }

  // ----- F --------------------------------------------------------------------------------------

  lemma OpenEvolves(s: State, device: DeviceId, user: UserId, peer: UserId, taken: set<RowKey>, missed: set<RowKey>,
                    cfg: Settings)
    requires IsScope(s, device, user, peer, taken, missed) && s.nextSessionId !in s.sessions
    ensures RowsEvolve(s, OpenScope(s, device, peer, taken, missed, cfg))
    ensures DeliveredOk(s) ==> DeliveredOk(OpenScope(s, device, peer, taken, missed, cfg))
  {
    var t := OpenScope(s, device, peer, taken, missed, cfg);
    forall k | k in s.deliveries ensures k in t.deliveries && DeliveryEvolves(s.deliveries[k], t.deliveries[k]) {
      OpenRowAt(s, device, user, peer, taken, missed, cfg, k);
    }
    forall k | k in t.deliveries && t.deliveries[k].state.Delivered? ensures k in s.deliveries
      && s.deliveries[k] == t.deliveries[k] {
      OpenRowAt(s, device, user, peer, taken, missed, cfg, k);
    }
  }

  /** Arming a head or completing a session delivers nothing. */
  lemma AdvanceKeepsDelivered(s: State, sid: SessionId, cfg: Settings, now: Time)
    requires DeliveredOk(s)
    ensures DeliveredOk(AdvanceSession(s, sid, cfg, now))
  {
    var n := NextHead(s, sid);
    if n.Some? {
      assert IsQueued(s, sid, n.value);
    }
  }

  /** A new session over its scope, its first head armed. */
  lemma OpenKeepsInv(s: State, device: DeviceId, user: UserId, peer: UserId, taken: set<RowKey>, missed: set<RowKey>,
                     cfg: Settings, now: Time)
    requires Inv(s, now) && cfg.Valid() && IsScope(s, device, user, peer, taken, missed)
    requires SignedInUser(s, device) == Some(user) && user != peer
    requires forall x :: !IsActiveSession(s, x, device, peer)
    requires |taken| + |missed| > 0
    ensures var t := AdvanceSession(OpenScope(s, device, peer, taken, missed, cfg), s.nextSessionId, cfg, now);
      Inv(t, now) && Evolves(s, t) && s.nextSessionId in t.sessions && t.sessions[s.nextSessionId].state.Active?
  {
    var s1 := OpenScope(s, device, peer, taken, missed, cfg);
    var t := AdvanceSession(s1, s.nextSessionId, cfg, now);
    OpenKeepsSessions(s, device, user, peer, taken, missed, cfg, now);
    OpenAndAdvanceKeepsRows(s, device, user, peer, taken, missed, cfg, now);
    assert s.nextSessionId !in s.sessions by {
      assert s.nextSessionId in s.sessions ==> SessionLinksOk(s, s.nextSessionId);
    }
    OpenEvolves(s, device, user, peer, taken, missed, cfg);
    AdvanceKeepsDelivered(s1, s.nextSessionId, cfg, now);
    AdvanceEvolves(s1, s.nextSessionId, cfg, now);
    RowsEvolveTransitive(s, s1, t);
    AdvanceTouches(s1, s.nextSessionId, cfg, now);
    ReceiptsSame(s, t);
    MessagesSame(s, t, now);
    PacketsUntouched(s, t);
  }

  lemma MessagesSame(s: State, t: State, clock: Time)
    requires MessagesOk(s, clock) && t.messages == s.messages && t.nextMessageId == s.nextMessageId
    ensures MessagesOk(t, clock)
  {
  }

  lemma AdvanceTouches(s: State, sid: SessionId, cfg: Settings, now: Time)
    ensures var t := AdvanceSession(s, sid, cfg, now);
      && t.messages == s.messages && t.receipts == s.receipts && t.packets == s.packets && t.devices == s.devices
      && t.nextMessageId == s.nextMessageId && t.nextPacketId == s.nextPacketId
  {
    var n := NextHead(s, sid);
    if n.None? {
      assert AdvanceSession(s, sid, cfg, now) == SetSessionState(s, sid, Completed);
    } else {
      assert AdvanceSession(s, sid, cfg, now) == UpdateDelivery(s, n.value, Arm(s.deliveries[n.value], cfg, now));
    }
  }

  lemma OpenScopeKeepsRows(s: State, device: DeviceId, user: UserId, peer: UserId, taken: set<RowKey>,
                           missed: set<RowKey>, cfg: Settings, now: Time)
    requires RowsOk(s) && SessionsOk(s) && MessagesOk(s, now) && cfg.Valid()
      && IsScope(s, device, user, peer, taken, missed)
    requires SignedInUser(s, device) == Some(user)
    ensures RowsOk(OpenScope(s, device, peer, taken, missed, cfg))
  {
    forall k | k in taken + missed ensures |s.messages[k.message].partTexts| >= 1 {
      assert MessageOk(k.message.sender, s.messages[k.message], s.nextMessageId, now);
    }
    forall x | x in s.sessions ensures x < s.nextSessionId {
      assert SessionLinksOk(s, x);
    }
    OpenKeepsRows(s, device, user, peer, taken, missed, cfg);
  }

  lemma OpenAndAdvanceKeepsRows(s: State, device: DeviceId, user: UserId, peer: UserId, taken: set<RowKey>,
                                missed: set<RowKey>, cfg: Settings, now: Time)
    requires RowsOk(s) && SessionsOk(s) && MessagesOk(s, now) && cfg.Valid()
      && IsScope(s, device, user, peer, taken, missed)
    requires SignedInUser(s, device) == Some(user)
    ensures RowsOk(AdvanceSession(OpenScope(s, device, peer, taken, missed, cfg), s.nextSessionId, cfg, now))
  {
    OpenScopeKeepsRows(s, device, user, peer, taken, missed, cfg, now);
    forall k ensures !Owns(s, s.nextSessionId, k) {
      FreshSessionOwnsNothing(s, k);
    }
    OpenedSessionOwnsScope(s, device, user, peer, taken, missed, cfg);
    AdvanceKeepsRows(OpenScope(s, device, peer, taken, missed, cfg), s.nextSessionId, cfg, now);
  }

  lemma RestartKeepsInv(s: State, sid: SessionId, cfg: Settings, now: Time)
    requires Inv(s, now) && cfg.Valid()
    ensures var t := RestartSession(s, sid, cfg, now);
      Inv(t, now) && Evolves(s, t)
  {
    var h := Head(s, sid);
    if h.Some? {
      var k := h.value;
      assert IsHead(s, sid, k);
      assert RowLinksOk(s, k) && RowCountersOk(s.deliveries[k], s.messages[k.message].Parts());
      RestartCounters(s.deliveries[k], s.messages[k.message].Parts(), cfg, now);
      RowUpdateKeepsInv(s, k, RestartHead(s.deliveries[k], cfg, now), now, now);
    } else {
      EvolvesReflexive(s);
    }
  }

  lemma OpenByQueriesKeepsInv(s: State, device: DeviceId, user: UserId, peer: UserId, cfg: Settings, now: Time)
    requires Inv(s, now) && cfg.Valid() && SignedInUser(s, device) == Some(user) && user != peer
    requires ActiveSession(s, device, peer).None?
    requires |TakenKeys(s, device, user, peer)| + |MissedKeys(s, device, user, peer)| > 0
    ensures var t := AdvanceSession(OpenSession(s, device, user, peer, cfg), s.nextSessionId, cfg, now);
      Inv(t, now) && Evolves(s, t)
  {
    QueriesGiveScope(s, device, user, peer);
    OpenKeepsInv(s, device, user, peer, TakenKeys(s, device, user, peer), MissedKeys(s, device, user, peer), cfg, now);
  }

  lemma RestartKeepsDevices(s: State, sid: SessionId, cfg: Settings, now: Time)
    ensures RestartSession(s, sid, cfg, now).devices == s.devices
  {
  }

  lemma OpenAndAdvanceKeepsDevices(s: State, device: DeviceId, user: UserId, peer: UserId, cfg: Settings, now: Time)
    ensures AdvanceSession(OpenSession(s, device, user, peer, cfg), s.nextSessionId, cfg, now).devices == s.devices
  {
    AdvanceTouches(OpenSession(s, device, user, peer, cfg), s.nextSessionId, cfg, now);
  }

  lemma RefreshPeerKeepsDevices(s: State, device: DeviceId, user: UserId, peer: UserId, cfg: Settings, now: Time)
    ensures RefreshPeer(s, device, user, peer, cfg, now).0.devices == s.devices
  {
    var a := ActiveSession(s, device, peer);
    if a.Some? {
      RestartKeepsDevices(s, a.value, cfg, now);
    } else {
      OpenAndAdvanceKeepsDevices(s, device, user, peer, cfg, now);
    }
  }

  lemma RefreshPeerKeepsInv(s: State, device: DeviceId, user: UserId, peer: UserId, cfg: Settings, now: Time)
    requires Inv(s, now) && cfg.Valid() && SignedInUser(s, device) == Some(user) && user != peer
    ensures var t := RefreshPeer(s, device, user, peer, cfg, now).0;
      Inv(t, now) && Evolves(s, t)
  {
    var a := ActiveSession(s, device, peer);
    if a.Some? {
      RestartKeepsInv(s, a.value, cfg, now);
    } else if |TakenKeys(s, device, user, peer)| + |MissedKeys(s, device, user, peer)| == 0 {
      EvolvesReflexive(s);
    } else {
      OpenByQueriesKeepsInv(s, device, user, peer, cfg, now);
    }
  }

  lemma {:induction false} RefreshPeersKeepsInv(s: State, device: DeviceId, user: UserId, peers: seq<UserId>,
                                        cfg: Settings, now: Time)
    requires Inv(s, now) && cfg.Valid() && SignedInUser(s, device) == Some(user) && user !in peers
    ensures var t := RefreshPeers(s, device, user, peers, cfg, now).0;
      Inv(t, now) && Evolves(s, t)
    decreases |peers|
  {
    if peers == [] {
      EvolvesReflexive(s);
    } else {
      var s1 := RefreshPeer(s, device, user, peers[0], cfg, now).0;
      RefreshPeerKeepsInv(s, device, user, peers[0], cfg, now);
      RefreshPeerKeepsDevices(s, device, user, peers[0], cfg, now);
      RefreshPeersKeepsInv(s1, device, user, peers[1..], cfg, now);
      EvolvesTransitive(s, s1, RefreshPeers(s, device, user, peers, cfg, now).0);
    }
  }

  lemma RearmKeepsInv(s: State, device: DeviceId, user: UserId, peer: UserId, cfg: Settings, now: Time)
    requires Inv(s, now) && cfg.Valid() && SignedInUser(s, device) == Some(user)
    ensures var t := RearmReceipts(s, device, user, peer, cfg, now);
      Inv(t, now) && Evolves(s, t) && t.devices == s.devices
  {
    var t := RearmReceipts(s, device, user, peer, cfg, now);
    RearmKeepsReceipts(s, device, user, peer, cfg, now);
    ReceiptTableLeavesRows(s, t.receipts);
    MessagesSame(s, t, now);
    RearmEvolves(s, device, user, peer, cfg, now);
    PacketsUntouched(s, t);
  }

  lemma RearmEvolves(s: State, device: DeviceId, user: UserId, peer: UserId, cfg: Settings, now: Time)
    requires ReceiptsEvolve(s, RearmReceipts(s, device, user, peer, cfg, now))
    ensures RowsEvolve(s, RearmReceipts(s, device, user, peer, cfg, now))
  {
    EvolvesReflexive(s);
  }

  lemma OneRefreshIs(s: State, device: DeviceId, user: UserId, peer: UserId, peers: seq<UserId>, cfg: Settings,
                     now: Time)
    requires SignedInUser(s, device) == Some(user) && user != peer
    ensures Apply(s, RefreshArrives(device, OnePeer(Some(peer)), peers), cfg, now) ==
      RefreshPeer(RearmReceipts(s, device, user, peer, cfg, now), device, user, peer, cfg, now).0
  {
  }

  lemma RefreshOneKeepsInv(s: State, device: DeviceId, user: UserId, peer: UserId, cfg: Settings, now: Time)
    requires Inv(s, now) && cfg.Valid() && SignedInUser(s, device) == Some(user) && user != peer
    ensures var t := RefreshPeer(RearmReceipts(s, device, user, peer, cfg, now), device, user, peer, cfg, now).0;
      Inv(t, now) && Evolves(s, t)
  {
    var s1 := RearmReceipts(s, device, user, peer, cfg, now);
    RearmKeepsInv(s, device, user, peer, cfg, now);
    RefreshPeerKeepsInv(s1, device, user, peer, cfg, now);
    EvolvesTransitive(s, s1, RefreshPeer(s1, device, user, peer, cfg, now).0);
  }

  lemma RefreshKeepsInv(s: State, device: DeviceId, target: RefreshTarget, peers: seq<UserId>, cfg: Settings,
                        clock: Time, now: Time)
    requires Inv(s, clock) && clock <= now && cfg.Valid()
    requires target.AllPeers? && SignedInUser(s, device).Some? ==> SignedInUser(s, device).value !in peers
    ensures var t := StartRefresh(s, device, target, peers, cfg, now).0;
      Inv(t, now) && Evolves(s, t)
  {
    ClockKeepsInv(s, clock, now);
    RefreshNowKeepsInv(s, device, target, peers, cfg, now);
  }

  lemma RefreshNowKeepsInv(s: State, device: DeviceId, target: RefreshTarget, peers: seq<UserId>, cfg: Settings,
                           now: Time)
    requires Inv(s, now) && cfg.Valid() && Evolves(s, s)
    requires target.AllPeers? && SignedInUser(s, device).Some? ==> SignedInUser(s, device).value !in peers
    ensures var t := StartRefresh(s, device, target, peers, cfg, now).0;
      Inv(t, now) && Evolves(s, t)
  {
    var user := SignedInUser(s, device);
    if user.Some? && target.AllPeers? {
      RefreshPeersKeepsInv(s, device, user.value, peers, cfg, now);
    } else if user.Some? && target.peer.Some? && target.peer != user {
      RefreshOneKeepsInv(s, device, user.value, target.peer.value, cfg, now);
    }
  }

  // ----- the sender loop ------------------------------------------------------------------------

  lemma FailKeepsInv(s: State, k: RowKey, now: Time)
    requires Inv(s, now) && k in s.deliveries && s.deliveries[k].state.Pending? && s.deliveries[k].roundParts == {}
    ensures var t := FailExhaustedDelivery(s, k);
      Inv(t, now) && Evolves(s, t)
  {
    var t := FailExhaustedDelivery(s, k);
    FailKeepsRows(s, k);
    FailKeepsSessions(s, k);
    FailEvolves(s, k);
    ReceiptsSame(s, t);
    MessagesSame(s, t, now);
    PacketsUntouched(s, t);
  }

  /** Failing a head and its queue advances no arm and delivers nothing. */
  lemma StopEvolves(s: State, sid: SessionId)
    requires sid in s.sessions && s.sessions[sid].state.Active?
    ensures RowsEvolve(s, StopSession(s, sid)) && (DeliveredOk(s) ==> DeliveredOk(StopSession(s, sid)))
  {
    var t := StopSession(s, sid);
    forall q | q in s.deliveries ensures q in t.deliveries && DeliveryEvolves(s.deliveries[q], t.deliveries[q]) {
    }
    forall q | q in t.deliveries && t.deliveries[q].state.Delivered? ensures q in s.deliveries
      && s.deliveries[q] == t.deliveries[q] {
    }
  }

  lemma FailEvolves(s: State, k: RowKey)
    requires k in s.deliveries && s.deliveries[k].state.Pending?
    ensures var t := FailExhaustedDelivery(s, k);
      && RowsEvolve(s, t) && (DeliveredOk(s) ==> DeliveredOk(t))
      && t.messages == s.messages && t.receipts == s.receipts && t.packets == s.packets && t.devices == s.devices
      && t.nextMessageId == s.nextMessageId && t.nextPacketId == s.nextPacketId
  {
    var s1 := UpdateDelivery(s, k, FailExhausted(s.deliveries[k]));
    RowUpdateEvolves(s, k, FailExhausted(s.deliveries[k]));
    if DeliveredOk(s) {
      RowUpdateKeepsDelivered(s, k, FailExhausted(s.deliveries[k]));
    }
    var head := HeadSession(s, s.deliveries[k]);
    if head.Some? {
      StopEvolves(s1, head.value);
      RowsEvolveTransitive(s, s1, StopSession(s1, head.value));
    }
  }

  lemma InsertKeepsInv(s: State, p: Packet, now: Time)
    requires Inv(s, now) && PacketOk(s, p)
    ensures var t := InsertPacket(s, p).0;
      Inv(t, now) && Evolves(s, t)
  {
    var t := InsertPacket(s, p).0;
    InsertKeepsPackets(s, p);
    InsertLeavesTables(s, t);
    MessagesSame(s, t, now);
  }

  lemma InsertLeavesTables(s: State, t: State)
    requires RowsOk(s) && SessionsOk(s) && DeliveredOk(s) && ReceiptsOk(s) && PacketsEvolve(s, t)
    requires t == s.(packets := t.packets, nextPacketId := t.nextPacketId)
    ensures RowsOk(t) && SessionsOk(t) && DeliveredOk(t) && ReceiptsOk(t) && Evolves(s, t)
  {
    EvolvesReflexive(s);
    MessageChangeKeepsRows(s, t);
    forall sid | sid in s.sessions && s.sessions[sid].state.Active? ensures SessionUntouched(s, t, sid) {
    }
    SessionsFrame(s, t);
    ReceiptsSame(s, t);
  }

  /** A row whose round has parts left gets the packet of its lowest one. */
  lemma PrepareLowestKeepsInv(s: State, k: RowKey, now: Time)
    requires Inv(s, now) && k in s.deliveries && k.message in s.messages
    requires s.deliveries[k].state.Pending? && PartsLeft(s.deliveries[k]) != {}
    ensures var t := PrepareLowestPart(s, k);
      Inv(t.0, now) && Evolves(s, t.0) && t.1 == Some(s.nextPacketId)
  {
    LowestPartPacket(s, k, now);
    var part := LowestPart(PartsLeft(s.deliveries[k]), 1, |s.messages[k.message].partTexts|).value;
    InsertKeepsInv(s, PartPacket(k, s.deliveries[k], part), now);
  }

  lemma LowestPartPacket(s: State, k: RowKey, now: Time)
    requires RowsOk(s) && k in s.deliveries && k.message in s.messages
    requires s.deliveries[k].state.Pending? && PartsLeft(s.deliveries[k]) != {}
    ensures var d := s.deliveries[k];
      var part := LowestPart(PartsLeft(d), 1, |s.messages[k.message].partTexts|);
      && part.Some? && part.value in PartsLeft(d)
      && (forall i | i in PartsLeft(d) :: part.value <= i)
      && PacketOk(s, PartPacket(k, d, part.value))
  {
    var d := s.deliveries[k];
    var parts := s.messages[k.message].Parts();
    assert RowLinksOk(s, k) && RowCountersOk(d, parts);
    var i :| i in PartsLeft(d);
    assert i in parts;
    assert forall j | j in PartsLeft(d) :: j in parts;
  }

  lemma StartRoundKeepsInv(s: State, k: RowKey, now: Time)
    requires Inv(s, now) && k in s.deliveries && k.message in s.messages
    requires s.deliveries[k].state.Pending? && s.deliveries[k].attemptCount < s.deliveries[k].maximumAttempts
    ensures var t := UpdateDelivery(s, k, StartRound(s.deliveries[k], s.messages[k.message].Parts(), now));
      Inv(t, now) && Evolves(s, t) && PartsLeft(t.deliveries[k]) != {}
  {
    var d := s.deliveries[k];
    assert RowCountersOk(d, s.messages[k.message].Parts());
    StartRoundCounters(d, s.messages[k.message].Parts(), now);
    RowUpdateKeepsInv(s, k, StartRound(d, s.messages[k.message].Parts(), now), now, now);
  }

  /** On a consistent row "nothing left" means the round is over: the branch that completes a reported round is dead. */
  lemma NothingLeftMeansRoundOver(s: State, k: RowKey)
    requires RowsOk(s) && k in s.deliveries && s.deliveries[k].state.Pending?
    ensures PartsLeft(s.deliveries[k]) == s.deliveries[k].roundParts
  {
    assert RowCountersOk(s.deliveries[k], s.messages[k.message].Parts());
  }

  lemma StartAndPrepareKeepsInv(s: State, k: RowKey, now: Time)
    requires Inv(s, now) && k in s.deliveries && k.message in s.messages
    requires s.deliveries[k].state.Pending? && s.deliveries[k].attemptCount < s.deliveries[k].maximumAttempts
    ensures var t :=
      PrepareLowestPart(UpdateDelivery(s, k, StartRound(s.deliveries[k], s.messages[k.message].Parts(), now)), k).0;
      Inv(t, now) && Evolves(s, t)
  {
    var s1 := UpdateDelivery(s, k, StartRound(s.deliveries[k], s.messages[k.message].Parts(), now));
    StartRoundKeepsInv(s, k, now);
    PrepareLowestKeepsInv(s1, k, now);
    EvolvesTransitive(s, s1, PrepareLowestPart(s1, k).0);
  }

  lemma PreparePendingKeepsInv(s: State, k: RowKey, cfg: Settings, now: Time)
    requires Inv(s, now) && k in s.deliveries && k.message in s.messages && s.deliveries[k].state.Pending?
    ensures var t := PrepareDelivery(s, k, cfg, now).0;
      Inv(t, now) && Evolves(s, t)
  {
    NothingLeftMeansRoundOver(s, k);
    if PartsLeft(s.deliveries[k]) != {} {
      assert PrepareDelivery(s, k, cfg, now) == PrepareLowestPart(s, k);
      PrepareLowestKeepsInv(s, k, now);
    } else if s.deliveries[k].attemptCount >= s.deliveries[k].maximumAttempts {
      assert PrepareDelivery(s, k, cfg, now) == (FailExhaustedDelivery(s, k), None);
      FailKeepsInv(s, k, now);
    } else if s.deliveries[k].roundStartedAt.None? && |InProgress(s, k.device)| >= cfg.activeLimit {
      assert PrepareDelivery(s, k, cfg, now) == (s, None);
      EvolvesReflexive(s);
    } else {
      StartAndPrepareKeepsInv(s, k, now);
    }
  }

  lemma PrepareDeliveryKeepsInv(s: State, k: RowKey, cfg: Settings, now: Time)
    requires Inv(s, now)
    ensures var t := PrepareDelivery(s, k, cfg, now).0;
      Inv(t, now) && Evolves(s, t)
  {
    if k in s.deliveries && k.message in s.messages && s.deliveries[k].state.Pending? {
      PreparePendingKeepsInv(s, k, cfg, now);
    } else {
      assert PrepareDelivery(s, k, cfg, now) == (s, None);
      EvolvesReflexive(s);
    }
  }

  lemma StartReceiptKeepsInv(s: State, k: RowKey, now: Time)
    requires Inv(s, now) && k in s.receipts && s.receipts[k].state.ReceiptPending?
    requires s.receipts[k].attemptCount < s.receipts[k].maximumAttempts
    ensures var r := StartAttempt(s.receipts[k], now);
      var t := InsertPacket(s.(receipts := s.receipts[k := r]), ReceiptPacket(k, r)).0;
      Inv(t, now) && Evolves(s, t)
  {
    var r := StartAttempt(s.receipts[k], now);
    assert ReceiptLinksOk(s, k) && ReceiptOk(s.receipts[k], s.messages[k.message].Level());
    var s1 := s.(receipts := s.receipts[k := r]);
    ReceiptUpdateKeepsInv(s, k, r, now, now);
    InsertKeepsInv(s1, ReceiptPacket(k, r), now);
    EvolvesTransitive(s, s1, InsertPacket(s1, ReceiptPacket(k, r)).0);
  }

  lemma PrepareReceiptKeepsInv(s: State, k: RowKey, now: Time)
    requires Inv(s, now)
    ensures var t := PrepareReceipt(s, k, now);
      Inv(t.0, now) && Evolves(s, t.0)
  {
    EvolvesReflexive(s);
    if k in s.receipts && s.receipts[k].state.ReceiptPending? {
      var r := s.receipts[k];
      assert ReceiptLinksOk(s, k) && ReceiptOk(r, s.messages[k.message].Level());
      if r.roundPending {
        InsertKeepsInv(s, ReceiptPacket(k, r), now);
      } else if r.attemptCount >= r.maximumAttempts {
        ReceiptUpdateKeepsInv(s, k, FailReceipt(r), now, now);
      } else {
        StartReceiptKeepsInv(s, k, now);
      }
    }
  }

  lemma PrepareCandidateKeepsInv(s: State, c: Candidate, cfg: Settings, now: Time)
    requires Inv(s, now)
    ensures var t := PrepareCandidate(s, c, cfg, now);
      Inv(t.0, now) && Evolves(s, t.0)
  {
    match c
    case DeliveryCandidate(k) => PrepareDeliveryKeepsInv(s, k, cfg, now);
    case ReceiptCandidate(k) => PrepareReceiptKeepsInv(s, k, now);
  }

  lemma {:induction false} PrepareNextKeepsInv(s: State, cands: seq<Candidate>, cfg: Settings, now: Time)
    requires Inv(s, now)
    ensures var t := PrepareNext(s, cands, cfg, now).0;
      Inv(t, now) && Evolves(s, t)
    decreases |cands|
  {
    if cands == [] {
      assert PrepareNext(s, cands, cfg, now) == (s, None);
      EvolvesReflexive(s);
    } else {
      var first := PrepareCandidate(s, cands[0], cfg, now);
      PrepareCandidateKeepsInv(s, cands[0], cfg, now);
      if first.1.Some? {
        assert PrepareNext(s, cands, cfg, now) == first;
      } else {
        assert PrepareNext(s, cands, cfg, now) == PrepareNext(first.0, cands[1..], cfg, now);
        PrepareNextKeepsInv(first.0, cands[1..], cfg, now);
        EvolvesTransitive(s, first.0, PrepareNext(first.0, cands[1..], cfg, now).0);
      }
    }
  }

  // ----- any step -------------------------------------------------------------------------------

  lemma RefreshStepKeepsInv(s: State, device: DeviceId, target: RefreshTarget, peers: seq<UserId>, cfg: Settings,
                            clock: Time, now: Time)
    requires Inv(s, clock) && clock <= now && cfg.Valid() && Enabled(s, RefreshArrives(device, target, peers), cfg, now)
    ensures var t := StartRefresh(s, device, target, peers, cfg, now).0;
      Inv(t, now) && Evolves(s, t)
  {
    OwnUserNotRefreshed(s, device, target, peers, cfg, now);
    RefreshKeepsInv(s, device, target, peers, cfg, clock, now);
  }

  lemma OwnUserNotRefreshed(s: State, device: DeviceId, target: RefreshTarget, peers: seq<UserId>, cfg: Settings,
                            now: Time)
    requires Enabled(s, RefreshArrives(device, target, peers), cfg, now)
    ensures target.AllPeers? && SignedInUser(s, device).Some? ==> SignedInUser(s, device).value !in peers
  {
  }

  /** A firmware ACK, a deadline, a lost link and a restart change the states of packets and nothing else. */
  lemma PacketStepShape(s: State, step: Step, cfg: Settings, now: Time)
    requires step.NodeAcknowledges? || step.DeadlinePasses? || step.LinkLost? || step.WorkerRestarts?
    ensures var t := Apply(s, step, cfg, now);
      && t == s.(packets := t.packets)
      && t.packets.Keys == s.packets.Keys
      && (forall id | id in t.packets :: PacketEvolves(s.packets[id], t.packets[id]))
  {
  }

  lemma DeviceStepShape(s: State, step: Step, cfg: Settings, now: Time)
    requires step.DeviceAdded? || step.NodeSyncChanges?
    ensures var t := Apply(s, step, cfg, now);
      t == s.(devices := t.devices) && KeepsUsers(s.devices, t.devices)
  {
  }

  lemma PacketStepKeepsInv(s: State, step: Step, cfg: Settings, clock: Time, now: Time)
    requires Inv(s, clock) && clock <= now
    requires step.NodeAcknowledges? || step.DeadlinePasses? || step.LinkLost? || step.WorkerRestarts?
    ensures Inv(Apply(s, step, cfg, now), now) && Evolves(s, Apply(s, step, cfg, now))
  {
    PacketStepShape(s, step, cfg, now);
    PacketTableKeepsInv(s, Apply(s, step, cfg, now).packets, clock, now);
  }

  lemma DeviceStepKeepsInv(s: State, step: Step, cfg: Settings, clock: Time, now: Time)
    requires Inv(s, clock) && clock <= now
    requires step.DeviceAdded? || step.NodeSyncChanges?
    ensures Inv(Apply(s, step, cfg, now), now) && Evolves(s, Apply(s, step, cfg, now))
  {
    DeviceStepShape(s, step, cfg, now);
    DevicesChangeKeepsInv(s, Apply(s, step, cfg, now).devices, clock, now);
  }

  lemma SenderStepKeepsInv(s: State, cands: seq<Candidate>, cfg: Settings, clock: Time, now: Time)
    requires Inv(s, clock) && clock <= now
    ensures var t := PrepareNext(s, cands, cfg, now).0;
      Inv(t, now) && Evolves(s, t)
  {
    ClockKeepsInv(s, clock, now);
    PrepareNextKeepsInv(s, cands, cfg, now);
  }

  lemma ReportStepKeepsInv(s: State, step: Step, cfg: Settings, clock: Time, now: Time)
    requires Inv(s, clock) && clock <= now && cfg.Valid()
    requires step.StatusArrives? || step.ReadArrives? || step.ConfirmationArrives?
    ensures Inv(Apply(s, step, cfg, now), now) && Evolves(s, Apply(s, step, cfg, now))
  {
    match step
    case StatusArrives(device, sender, clientId, received) =>
      StatusKeepsInv(s, device, sender, clientId, received, cfg, clock, now);
    case ReadArrives(device, sender, clientId) => ReadKeepsInv(s, device, sender, clientId, cfg, clock, now);
    case ConfirmationArrives(device, recipient, clientId, level) =>
      ConfirmationKeepsInv(s, device, recipient, clientId, level, clock, now);
  }

  lemma RequestStepKeepsInv(s: State, step: Step, cfg: Settings, clock: Time, now: Time)
    requires Inv(s, clock) && clock <= now && cfg.Valid() && Enabled(s, step, cfg, now)
    requires step.PartArrives? || step.RefreshArrives? || step.DeviceLinked?
    ensures Inv(Apply(s, step, cfg, now), now) && Evolves(s, Apply(s, step, cfg, now))
  {
    match step
    case PartArrives(req) => PartKeepsInv(s, req, cfg, clock, now);
    case RefreshArrives(device, target, peers) => RefreshStepKeepsInv(s, device, target, peers, cfg, clock, now);
    case DeviceLinked(device, user) => LinkKeepsInv(s, device, user, clock, now);
  }

  lemma LoopStepKeepsInv(s: State, step: Step, cfg: Settings, clock: Time, now: Time)
    requires Inv(s, clock) && clock <= now && (step.PacketPrepared? || step.OutcomeRecorded?)
    ensures Inv(Apply(s, step, cfg, now), now) && Evolves(s, Apply(s, step, cfg, now))
  {
    match step
    case PacketPrepared(cands) => SenderStepKeepsInv(s, cands, cfg, clock, now);
    case OutcomeRecorded(id, outcome) => OutcomeKeepsInv(s, id, outcome, cfg, clock, now);
  }

  /** Every step of the delivery engine keeps the invariant, and rows only evolve. */
  lemma StepKeepsInv(s: State, step: Step, cfg: Settings, clock: Time, now: Time)
    requires Inv(s, clock) && clock <= now && cfg.Valid() && Enabled(s, step, cfg, now)
    ensures Inv(Apply(s, step, cfg, now), now) && Evolves(s, Apply(s, step, cfg, now))
  {
    if step.StatusArrives? || step.ReadArrives? || step.ConfirmationArrives? {
      ReportStepKeepsInv(s, step, cfg, clock, now);
    } else if step.PartArrives? || step.RefreshArrives? || step.DeviceLinked? {
      RequestStepKeepsInv(s, step, cfg, clock, now);
    } else if step.PacketPrepared? || step.OutcomeRecorded? {
      LoopStepKeepsInv(s, step, cfg, clock, now);
    } else if step.DeviceAdded? || step.NodeSyncChanges? {
      DeviceStepKeepsInv(s, step, cfg, clock, now);
    } else {
      PacketStepKeepsInv(s, step, cfg, clock, now);
    }
  }
}
