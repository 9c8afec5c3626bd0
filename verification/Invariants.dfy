/** What the delivery engine's tables satisfy after every step, and how they may evolve between steps. */
module Invariants {
  import opened Options
  import opened Texts
  import opened Times
  import opened Tables
  import opened ReceiptRows
  import opened Transitions

  // ----- the invariant ------------------------------------------------------------------------

  predicate PartsValid(parts: seq<Option<Text>>) {
    && 1 <= |parts| <= MAXIMUM_PART_COUNT
    && forall i | 0 <= i < |parts| && parts[i].Some? :: IsValidPartText(parts[i].value)
  }

  /** A message is accepted exactly when every part is held; its times only follow one another. */
  predicate MessageOk(sender: UserId, m: Message, nextId: nat, clock: Time) {
    && PartsValid(m.partTexts)
    && m.id < nextId
    && m.recipient != sender
    && (m.acceptedAt.Some? <==> AllHeld(m))
    && m.text == (if m.acceptedAt.Some? then Some(Join(HeldTexts(m.partTexts))) else None)
    && (m.acceptedAt.Some? ==> m.acceptedAt.value <= clock)
    && (m.deliveredAt.Some? ==> m.acceptedAt.Some?)
    && (m.readAt.Some? ==> m.deliveredAt.Some?)
  }

  ghost predicate MessagesOk(s: State, clock: Time) {
    && (forall key | key in s.messages :: MessageOk(key.sender, s.messages[key], s.nextMessageId, clock))
    && (forall a, b | a in s.messages && b in s.messages && s.messages[a].id == s.messages[b].id :: a == b)
  }

  /** The counters and part sets of one delivery row of a message with these parts. */
  predicate RowCountersOk(d: Delivery, parts: set<nat>) {
    && 1 <= d.maximumAttempts
    && d.attemptCount <= d.maximumAttempts
    && 1 <= d.armGeneration
    && (!d.state.Delivered? ==> d.receivedParts < parts)
    && (d.Live() ==> d.roundParts <= parts && d.roundParts !! d.receivedParts)
    && (d.state.Queued? || d.state.Failed? ==> d.roundParts == {})
    && (d.state.Queued? ==> d.session.Some? && d.roundStartedAt.None?)
    && (d.state.Pending? ==> d.nextAttemptAt.Some?)
    && (d.state.Pending? && d.attemptCount == 0 ==> d.roundParts == {})
    && (d.state.Pending? && d.attemptCount > 0 ==> d.roundStartedAt.Some?)
  }

  /** How a row agrees with its message, its device and the session that owns it. */
  predicate RowLinksOk(s: State, k: RowKey)
    requires k in s.deliveries
  {
    var d := s.deliveries[k];
    && k.message in s.messages
    && k.device in s.devices
    && s.messages[k.message].acceptedAt.Some?
    && (d.Live() ==> s.devices[k.device].user == Some(s.messages[k.message].recipient))
    && (d.session.Some? ==>
          && d.session.value in s.sessions
          && s.sessions[d.session.value].device == k.device
          && s.sessions[d.session.value].peer == k.message.sender
          && (d.state.Pending? || d.state.Queued? ==> s.sessions[d.session.value].state.Active?)
          && (d.state.Failed? || d.state.Cancelled? ==> !s.sessions[d.session.value].state.Active?))
  }

  ghost predicate RowsOk(s: State) {
    forall k | k in s.deliveries :: RowLinksOk(s, k) && RowCountersOk(s.deliveries[k], s.messages[k.message].Parts())
  }

  /** A message some device received carries its first delivery time. */
  ghost predicate DeliveredOk(s: State) {
    forall k | k in s.deliveries && s.deliveries[k].state.Delivered? ::
      k.message in s.messages && s.messages[k.message].deliveredAt.Some?
  }

  /** An active session has exactly one head, accepted no later than anything queued, and counts what it owns. */
  ghost predicate SessionOk(s: State, sid: SessionId)
    requires sid in s.sessions
  {
    && (exists h :: IsHead(s, sid, h))
    && (forall g, h :: IsHead(s, sid, g) && IsHead(s, sid, h) ==> g == h)
    && (forall h, q :: IsHead(s, sid, h) && IsQueued(s, sid, q) ==> AcceptedAt(s, h) <= AcceptedAt(s, q))
    && s.sessions[sid].messagesTotal == |Owned(s, sid)|
  }

  /** An active session belongs to a device that is signed in as somebody other than the peer. */
  predicate SessionLinksOk(s: State, sid: SessionId)
    requires sid in s.sessions
  {
    && sid < s.nextSessionId
    && s.sessions[sid].device in s.devices
    && (s.sessions[sid].state.Active? ==>
          var user := s.devices[s.sessions[sid].device].user;
          user.Some? && user.value != s.sessions[sid].peer)
  }

  ghost predicate SingleSessions(s: State) {
    forall a, b | a in s.sessions && b in s.sessions && s.sessions[a].state.Active? && s.sessions[b].state.Active?
      && s.sessions[a].device == s.sessions[b].device && s.sessions[a].peer == s.sessions[b].peer :: a == b
  }

  ghost predicate SessionsOk(s: State) {
    && SingleSessions(s)
    && (forall sid | sid in s.sessions :: SessionLinksOk(s, sid))
    && (forall sid | sid in s.sessions && s.sessions[sid].state.Active? :: SessionOk(s, sid))
  }

  /** Levels are ordered; short of cancelling, being confirmed and having equal levels are one thing. */
  predicate ReceiptOk(r: Receipt, messageLevel: nat) {
    && 1 <= r.targetLevel <= READ_LEVEL
    && r.confirmedLevel <= r.targetLevel <= messageLevel
    && (!r.state.ReceiptCancelled? ==> (r.state.Confirmed? <==> r.confirmedLevel == r.targetLevel))
    && (r.state.ReceiptPending? ==> r.nextAttemptAt.Some?)
    && 1 <= r.maximumAttempts
    && r.attemptCount <= r.maximumAttempts
    && (r.roundPending ==> 1 <= r.attemptCount)
    && 1 <= r.armGeneration
  }

  /** A live receipt concerns a device of the message's sender. */
  predicate ReceiptLinksOk(s: State, k: RowKey)
    requires k in s.receipts
  {
    && k.message in s.messages
    && k.device in s.devices
    && (!s.receipts[k].state.ReceiptCancelled? && s.receipts[k].confirmedLevel < READ_LEVEL
        ==> s.devices[k.device].user == Some(k.message.sender))
  }

  ghost predicate ReceiptsOk(s: State) {
    forall k | k in s.receipts :: ReceiptLinksOk(s, k) && ReceiptOk(s.receipts[k], s.messages[k.message].Level())
  }

  /** (a, b) comes lexicographically no later than (c, d). */
  predicate LexLe(a: nat, b: nat, c: nat, d: nat) {
    a < c || (a == c && b <= d)
  }

  /** A packet belongs to a row that has not fallen behind the arm and attempt the packet copied. */
  predicate PacketOk(s: State, p: Packet) {
    match p.purpose
    case DeliveryPart(part) =>
      && p.row in s.deliveries
      && p.row.message in s.messages
      && part in s.messages[p.row.message].Parts()
      && 1 <= p.attemptNumber
      && LexLe(p.armGeneration, p.attemptNumber, s.deliveries[p.row].armGeneration, s.deliveries[p.row].attemptCount)
    case ReceiptPush(level) =>
      && p.row in s.receipts
      && p.row.message in s.messages
      && 1 <= p.attemptNumber
      && 1 <= level <= s.receipts[p.row].targetLevel
      && level <= s.messages[p.row.message].Level()
      && LexLe(p.armGeneration, p.attemptNumber, s.receipts[p.row].armGeneration, s.receipts[p.row].attemptCount)
  }

  ghost predicate PacketsOk(s: State) {
    forall id | id in s.packets :: id < s.nextPacketId && PacketOk(s, s.packets[id])
  }

  ghost predicate Inv(s: State, clock: Time) {
    MessagesOk(s, clock) && RowsOk(s) && DeliveredOk(s) && SessionsOk(s) && ReceiptsOk(s) && PacketsOk(s)
  }

  /** The per-device cap on deliveries in progress. */
  ghost predicate CapOk(s: State, limit: nat) {
    forall device :: |InProgress(s, device)| <= limit
  }

  // ----- how rows evolve ------------------------------------------------------------------------

  /** A held part, an acceptance, a delivery and a read are kept for good. */
  predicate MessageEvolves(m: Message, n: Message) {
    && n.id == m.id && n.recipient == m.recipient && n.senderDevice == m.senderDevice
    && |n.partTexts| == |m.partTexts|
    && (forall i | 0 <= i < |m.partTexts| && m.partTexts[i].Some? :: n.partTexts[i] == m.partTexts[i])
    && (m.acceptedAt.Some? ==> n.acceptedAt == m.acceptedAt && n.text == m.text)
    && (m.deliveredAt.Some? ==> n.deliveredAt == m.deliveredAt)
    && (m.readAt.Some? ==> n.readAt == m.readAt)
  }

  /** Arm and attempt never fall back, and a delivered row never changes again. */
  predicate DeliveryEvolves(d: Delivery, e: Delivery) {
    && LexLe(d.armGeneration, d.attemptCount, e.armGeneration, e.attemptCount)
    && (d.state.Delivered? ==> e == d)
  }

  predicate ReceiptEvolves(r: Receipt, q: Receipt) {
    && r.targetLevel <= q.targetLevel
    && r.confirmedLevel <= q.confirmedLevel
    && LexLe(r.armGeneration, r.attemptCount, q.armGeneration, q.attemptCount)
  }

  predicate SessionEvolves(a: Session, b: Session) {
    && b.device == a.device && b.peer == a.peer
    && a.messagesTotal <= b.messagesTotal
    && (!a.state.Active? ==> b == a)
  }

  /** A packet keeps what it was prepared with, and once its outcome is known it is never prepared again. */
  predicate PacketEvolves(p: Packet, q: Packet) {
    && q.row == p.row && q.purpose == p.purpose
    && q.armGeneration == p.armGeneration && q.attemptNumber == p.attemptNumber
    && (!p.state.Prepared? ==> !q.state.Prepared?)
  }

  ghost predicate MessagesEvolve(s: State, t: State) {
    forall key | key in s.messages :: key in t.messages && MessageEvolves(s.messages[key], t.messages[key])
  }

  ghost predicate DeliveriesEvolve(s: State, t: State) {
    forall k | k in s.deliveries :: k in t.deliveries && DeliveryEvolves(s.deliveries[k], t.deliveries[k])
  }

  ghost predicate ReceiptsEvolve(s: State, t: State) {
    forall k | k in s.receipts :: k in t.receipts && ReceiptEvolves(s.receipts[k], t.receipts[k])
  }

  ghost predicate SessionsEvolve(s: State, t: State) {
    forall sid | sid in s.sessions :: sid in t.sessions && SessionEvolves(s.sessions[sid], t.sessions[sid])
  }

  ghost predicate PacketsEvolve(s: State, t: State) {
    forall id | id in s.packets :: id in t.packets && PacketEvolves(s.packets[id], t.packets[id])
  }

  ghost predicate Evolves(s: State, t: State) {
    && MessagesEvolve(s, t) && DeliveriesEvolve(s, t) && ReceiptsEvolve(s, t)
    && SessionsEvolve(s, t) && PacketsEvolve(s, t)
    && s.devices.Keys <= t.devices.Keys
  }

  lemma EvolvesReflexive(s: State)
    ensures Evolves(s, s)
  {
  }

  lemma EvolvesTransitive(s: State, t: State, u: State)
    requires Evolves(s, t) && Evolves(t, u)
    ensures Evolves(s, u)
  {
    forall key | key in s.messages ensures key in u.messages && MessageEvolves(s.messages[key], u.messages[key]) {
      assert key in t.messages;
    }
    forall k | k in s.deliveries ensures k in u.deliveries && DeliveryEvolves(s.deliveries[k], u.deliveries[k]) {
      assert k in t.deliveries;
    }
    forall k | k in s.receipts ensures k in u.receipts && ReceiptEvolves(s.receipts[k], u.receipts[k]) {
      assert k in t.receipts;
    }
    forall sid | sid in s.sessions ensures sid in u.sessions && SessionEvolves(s.sessions[sid], u.sessions[sid]) {
      assert sid in t.sessions;
    }
    forall id | id in s.packets ensures id in u.packets && PacketEvolves(s.packets[id], u.packets[id]) {
      assert id in t.packets;
    }
  }
}
