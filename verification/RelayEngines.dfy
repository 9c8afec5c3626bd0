/**
 The delivery engine as the relay runs it: one object holds the tables, and every service
 transaction updates rows in place, loop by loop. Each method is proved to leave exactly the
 tables its transition function describes.
 */
module RelayEngines {
  import opened Options
  import opened Texts
  import opened Times
  import opened RetrySchedule
  import opened Tables
  import opened DeliveryRows
  import opened ReceiptRows
  import opened Transitions
  import opened Invariants
  import opened SessionProofs
  import opened RowProofs
  import opened ReceiptProofs
  import opened StepProofs
  import opened RowEffects
  import opened PartAnswers
  import opened ReportAnswers
  import opened PacketLife
  import opened RefreshScope

  /** Two queued rows of a session that both come first are the same row. */
  lemma NextHeadIsUnique(s: State, clock: Time, sid: SessionId, a: RowKey, b: RowKey)
    requires MessagesOk(s, clock) && RowsOk(s) && IsNextHead(s, sid, a) && IsNextHead(s, sid, b)
    ensures a == b
  {
    assert RowLinksOk(s, a) && RowLinksOk(s, b);
    assert !Before(s, a, b) && !Before(s, b, a);
  }

  /** What a search for the first queued row finds is what the transition function chooses. */
  lemma FoundHead(s: State, clock: Time, sid: SessionId, r: Option<RowKey>)
    requires MessagesOk(s, clock) && RowsOk(s)
    requires r.Some? ==> IsNextHead(s, sid, r.value)
    requires r.None? ==> forall q :: !IsQueued(s, sid, q)
    ensures r == NextHead(s, sid)
  {
    if r.Some? {
      NextHeadIsUnique(s, clock, sid, r.value, NextHead(s, sid).value);
    }
  }

  /** The devices with an active session with the peer, and which one. */
  ghost predicate SessionsFound(s: State, all: set<DeviceId>, peer: UserId, found: map<DeviceId, SessionId>) {
    && found.Keys <= all
    && forall d | d in all :: ActiveSession(s, d, peer) == (if d in found then Some(found[d]) else None)
  }

  function NewRow(found: map<DeviceId, SessionId>, device: DeviceId, cfg: Settings, now: Time): Delivery {
    if device in found then NewQueued(found[device], cfg) else NewPending(cfg, now)
  }

  lemma FanOutRowsAre(s: State, key: MessageKey, recipient: UserId, cfg: Settings, now: Time,
                      found: map<DeviceId, SessionId>, rows: map<RowKey, Delivery>)
    requires SessionsFound(s, DevicesOf(s, recipient), key.sender, found)
    requires forall k :: k in rows <==> k in s.deliveries || (k.message == key && k.device in DevicesOf(s, recipient))
    requires forall k | k in rows ::
      rows[k] == (if k.message == key && k.device in DevicesOf(s, recipient)
        then NewRow(found, k.device, cfg, now) else s.deliveries[k])
    ensures rows == FanOut(s, key, recipient, cfg, now).deliveries
  {
    var fanned := FanOut(s, key, recipient, cfg, now).deliveries;
    forall k ensures (k in rows <==> k in fanned) && (k in rows ==> rows[k] == fanned[k]) {
      FanOutRowAt(s, key, recipient, cfg, now, k);
    }
  }

  /** The sessions found by device are exactly those a fan-out appends to. */
  lemma SessionsFoundAre(s: State, key: MessageKey, recipient: UserId, found: map<DeviceId, SessionId>)
    requires SingleSessions(s) && SessionsFound(s, DevicesOf(s, recipient), key.sender, found)
    ensures found.Values <= s.sessions.Keys
    ensures forall sid | sid in s.sessions :: sid in found.Values <==>
      s.sessions[sid].state.Active? && s.sessions[sid].peer == key.sender
        && s.sessions[sid].device in DevicesOf(s, recipient)
  {
    forall sid | sid in found.Values
      ensures sid in s.sessions && s.sessions[sid].device in DevicesOf(s, recipient)
        && IsActiveSession(s, sid, s.sessions[sid].device, key.sender)
    {
      var d :| d in found && found[d] == sid;
      assert ActiveSession(s, d, key.sender) == Some(sid);
    }
    forall sid | sid in s.sessions && IsActiveSession(s, sid, s.sessions[sid].device, key.sender)
      && s.sessions[sid].device in DevicesOf(s, recipient)
      ensures sid in found.Values
    {
      var d := s.sessions[sid].device;
      assert ActiveSession(s, d, key.sender) == Some(sid);
      assert found[d] == sid;
    }
  }

  lemma FanOutSessionsAre(s: State, key: MessageKey, recipient: UserId, cfg: Settings, now: Time,
                          found: map<DeviceId, SessionId>, counted: map<SessionId, Session>)
    requires SingleSessions(s) && SessionsFound(s, DevicesOf(s, recipient), key.sender, found)
    requires forall sid :: sid in counted <==> sid in s.sessions
    requires forall sid | sid in counted ::
      counted[sid]
        == (if sid in found.Values then s.sessions[sid].(messagesTotal := s.sessions[sid].messagesTotal + 1)
          else s.sessions[sid])
    ensures counted == FanOut(s, key, recipient, cfg, now).sessions
  {
    SessionsFoundAre(s, key, recipient, found);
  }

  lemma RaisedReceiptsAre(s: State, key: MessageKey, level: nat, cfg: Settings, now: Time, rows: map<RowKey, Receipt>)
    requires forall k :: k in rows <==> k in s.receipts || (k.message == key && k.device in DevicesOf(s, key.sender))
    requires forall k | k in rows ::
      rows[k] == (if k.message == key && k.device in DevicesOf(s, key.sender)
        then RaisedReceipt(s, k, level, cfg, now) else s.receipts[k])
    ensures rows == RaiseReceipts(s, key, level, cfg, now).receipts
  {
    var raised := RaiseReceipts(s, key, level, cfg, now).receipts;
    forall k ensures (k in rows <==> k in raised) && (k in rows ==> rows[k] == raised[k]) {
      RaisedReceiptAt(s, key, level, cfg, now, k);
    }
  }

  /** What an outcome does to a delivery, a receipt and a packet, of whatever tables. */
  predicate OutcomeShownAtDelivery(s: State, id: PacketId, outcome: SendOutcome, cfg: Settings, now: Time, k: RowKey)
    requires k in s.deliveries
  {
    var t := RecordOutcome(s, id, outcome, cfg, now);
    && k in t.deliveries
    && (if EndsPart(s, id, outcome, k)
        then PartEnded(s.deliveries[k], t.deliveries[k], s.packets[id].purpose.part, outcome, cfg, now)
        else t.deliveries[k] == s.deliveries[k])
  }

  predicate OutcomeShownAtReceipt(s: State, id: PacketId, outcome: SendOutcome, cfg: Settings, now: Time, k: RowKey)
    requires k in s.receipts
  {
    var t := RecordOutcome(s, id, outcome, cfg, now);
    && k in t.receipts
    && t.receipts[k]
      == (if EndsPush(s, id, outcome, k) then PushEnded(s.receipts[k], outcome, cfg, now) else s.receipts[k])
  }

  predicate OutcomeShownAtPacket(s: State, id: PacketId, outcome: SendOutcome, cfg: Settings, now: Time,
                                 other: PacketId)
    requires other in s.packets
  {
    var t := RecordOutcome(s, id, outcome, cfg, now);
    && other in t.packets
    && (if other == id && s.packets[id].state.Prepared? then Settled(s.packets[id], t.packets[id], outcome, now)
        else t.packets[other] == s.packets[other])
  }

  lemma OutcomeIsShown(s: State, id: PacketId, outcome: SendOutcome, cfg: Settings, now: Time)
    ensures forall k | k in s.deliveries :: OutcomeShownAtDelivery(s, id, outcome, cfg, now, k)
    ensures forall k | k in s.receipts :: OutcomeShownAtReceipt(s, id, outcome, cfg, now, k)
    ensures forall other | other in s.packets :: OutcomeShownAtPacket(s, id, outcome, cfg, now, other)
    ensures var t := RecordOutcome(s, id, outcome, cfg, now);
      && (id in t.packets ==> !t.packets[id].state.Prepared?)
      && forall again, c, later :: RecordOutcome(t, id, again, c, later) == t
  {
    forall k | k in s.deliveries ensures OutcomeShownAtDelivery(s, id, outcome, cfg, now, k) {
      OutcomeAtEveryDelivery(s, id, outcome, cfg, now, k);
    }
    forall k | k in s.receipts ensures OutcomeShownAtReceipt(s, id, outcome, cfg, now, k) {
      OutcomeAtEveryReceipt(s, id, outcome, cfg, now, k);
    }
    forall other | other in s.packets ensures OutcomeShownAtPacket(s, id, outcome, cfg, now, other) {
      OutcomeAtPacketsAndDevices(s, id, outcome, cfg, now, other, 0);
    }
    OutcomeAtPacketsAndDevices(s, id, outcome, cfg, now, id, 0);
  }

  /** What a refresh of one conversation means to its device. */
  lemma RefreshMeans(s: State, device: DeviceId, user: UserId, peer: UserId, cfg: Settings, now: Time)
    requires Inv(s, now)
    ensures var r := RefreshPeer(s, device, user, peer, cfg, now);
      && r.1 == Expected(s, device, user, peer)
      && (NoSession(s, device, peer) ==> TookAll(s, r.0, device, user, peer) && r.1 == |Lacking(s, device, user, peer)|)
  {
    RefreshCounts(s, device, user, peer, cfg, now);
    if NoSession(s, device, peer) {
      RefreshTakesAll(s, device, user, peer, cfg, now);
    }
  }

  /** Marking one row delivered leaves the rows and messages in order, so the next head is found among them. */
  lemma DeliveredRowKeepsTables(s: State, clock: Time, k: RowKey, received: Option<set<nat>>)
    requires MessagesOk(s, clock) && RowsOk(s) && k in s.deliveries && s.deliveries[k].Live()
    ensures var t := UpdateDelivery(s, k, MarkDelivered(s.deliveries[k], received));
      MessagesOk(t, clock) && RowsOk(t)
  {
    DeliverRowKeepsRows(s, k, received);
    MessagesSame(s, UpdateDelivery(s, k, MarkDelivered(s.deliveries[k], received)), clock);
  }

  /** Receipts are raised from the receipts and the devices alone. */
  lemma RaisedFromSameReceipts(s: State, t: State, key: MessageKey, level: nat, cfg: Settings, now: Time)
    requires s.receipts == t.receipts && s.devices == t.devices
    ensures RaiseReceipts(s, key, level, cfg, now).receipts == RaiseReceipts(t, key, level, cfg, now).receipts
  {
    assert DevicesOf(s, key.sender) == DevicesOf(t, key.sender);
    forall k ensures RaisedReceipt(s, k, level, cfg, now) == RaisedReceipt(t, k, level, cfg, now) {
    }
  }

  /** Confirming a message and completing a session touch different tables. */
  lemma ConfirmAndCompleteCommute(s: State, key: MessageKey, isRead: bool, cfg: Settings, now: Time, sid: SessionId)
    requires key in s.messages
    ensures ConfirmMessage(SetSessionState(s, sid, Completed), key, isRead, cfg, now) ==
      SetSessionState(ConfirmMessage(s, key, isRead, cfg, now), sid, Completed)
  {
    var done := SetSessionState(s, sid, Completed);
    var m := ConfirmedMessage(s.messages[key], isRead, now);
    RaisedFromSameReceipts(s.(messages := s.messages[key := m]), done.(messages := s.messages[key := m]), key,
      m.Level(), cfg, now);
  }

  lemma OpenedTablesAreOrdered(s: State, device: DeviceId, user: UserId, peer: UserId, cfg: Settings, now: Time)
    requires Inv(s, now) && cfg.Valid() && SignedInUser(s, device) == Some(user)
    ensures var t := OpenSession(s, device, user, peer, cfg);
      MessagesOk(t, now) && RowsOk(t)
  {
    var taken, missed := TakenKeys(s, device, user, peer), MissedKeys(s, device, user, peer);
    QueriesGiveScope(s, device, user, peer);
    OpenScopeKeepsRows(s, device, user, peer, taken, missed, cfg, now);
    MessagesSame(s, OpenSession(s, device, user, peer, cfg), now);
  }

  lemma OpenedSessionHasNext(s: State, device: DeviceId, user: UserId, peer: UserId, cfg: Settings)
    requires RowsOk(s) && SessionsOk(s) && |TakenKeys(s, device, user, peer)| + |MissedKeys(s, device, user, peer)| > 0
    ensures NextHead(OpenSession(s, device, user, peer, cfg), s.nextSessionId).Some?
  {
    var taken, missed := TakenKeys(s, device, user, peer), MissedKeys(s, device, user, peer);
    QueriesGiveScope(s, device, user, peer);
    forall k ensures !Owns(s, s.nextSessionId, k) {
      FreshSessionOwnsNothing(s, k);
    }
    OpenedSessionOwnsScope(s, device, user, peer, taken, missed, cfg);
    var t := OpenSession(s, device, user, peer, cfg);
    var k :| k in Owned(t, s.nextSessionId);
    NextHeadExists(t, s.nextSessionId, k);
  }

  lemma OpenedRowAt(s: State, device: DeviceId, peer: UserId, taken: set<RowKey>, missed: set<RowKey>, cfg: Settings,
                    k: RowKey)
    ensures var rows := OpenScope(s, device, peer, taken, missed, cfg).deliveries;
      && (k in rows <==> k in s.deliveries || k in missed)
      && (k in rows ==>
            rows[k] == (if k !in s.deliveries then NewQueued(s.nextSessionId, cfg)
                        else if k in taken then TakeIntoSession(s.deliveries[k], s.nextSessionId) else s.deliveries[k]))
  {
  }

  lemma ScopeRowsAre(s: State, device: DeviceId, peer: UserId, taken: set<RowKey>, missed: set<RowKey>,
                     cfg: Settings, rows: map<RowKey, Delivery>)
    requires forall k | k in missed :: k !in s.deliveries
    requires forall k :: k in rows <==> k in s.deliveries || k in missed
    requires forall k | k in rows ::
      rows[k] == (if k in missed then NewQueued(s.nextSessionId, cfg)
                  else if k in taken then TakeIntoSession(s.deliveries[k], s.nextSessionId) else s.deliveries[k])
    ensures OpenScope(s, device, peer, taken, missed, cfg).deliveries == rows
  {
    var scope := OpenScope(s, device, peer, taken, missed, cfg).deliveries;
    forall k ensures (k in rows <==> k in scope) && (k in rows ==> rows[k] == scope[k]) {
      OpenedRowAt(s, device, peer, taken, missed, cfg, k);
    }
  }

  lemma OpenedRowsAre(s: State, device: DeviceId, peer: UserId, taken: set<RowKey>, missed: set<RowKey>,
                      cfg: Settings, rows: map<RowKey, Delivery>)
    requires OpenScope(s, device, peer, taken, missed, cfg).deliveries == rows
    ensures OpenScope(s, device, peer, taken, missed, cfg) ==
      s.(sessions := s.sessions[s.nextSessionId := Session(device, peer, Active, |taken| + |missed|)],
         nextSessionId := s.nextSessionId + 1, deliveries := rows)
  {
  }

  /** After i peers, what is left of a refresh of all gives the whole. */
  ghost predicate RestOfRefresh(s: State, t: State, total: nat, device: DeviceId, user: UserId, peers: seq<UserId>,
                                i: nat, cfg: Settings, now: Time)
    requires i <= |peers|
  {
    var whole, rest := RefreshPeers(s, device, user, peers, cfg, now),
      RefreshPeers(t, device, user, peers[i..], cfg, now);
    whole.0 == rest.0 && whole.1 == total + rest.1
  }

  lemma RestAfterOne(s: State, t: State, total: nat, device: DeviceId, user: UserId, peers: seq<UserId>, i: nat,
                     cfg: Settings, now: Time)
    requires i < |peers| && RestOfRefresh(s, t, total, device, user, peers, i, cfg, now)
    ensures var r := RefreshPeer(t, device, user, peers[i], cfg, now);
      RestOfRefresh(s, r.0, total + r.1, device, user, peers, i + 1, cfg, now)
  {
    assert peers[i..][1..] == peers[i + 1..];
  }

  lemma NothingRests(s: State, t: State, total: nat, device: DeviceId, user: UserId, peers: seq<UserId>,
                     cfg: Settings, now: Time)
    requires RestOfRefresh(s, t, total, device, user, peers, |peers|, cfg, now)
    ensures RefreshPeers(s, device, user, peers, cfg, now) == (t, total)
  {
    assert peers[|peers|..] == [];
  }

  lemma RelinkedTablesAre(s: State, device: DeviceId, user: UserId, rows: map<RowKey, Delivery>,
                          receipts: map<RowKey, Receipt>, sessions: map<SessionId, Session>)
    requires device in s.devices
    requires (forall k :: k in rows <==> k in s.deliveries) && (forall k :: k in receipts <==> k in s.receipts)
    requires forall sid :: sid in sessions <==> sid in s.sessions
    requires forall k | k in rows ::
      rows[k] == (if k.device == device then CancelForRelink(s.deliveries[k]) else s.deliveries[k])
    requires forall k | k in receipts ::
      receipts[k] == (if k.device == device then CancelReceiptForRelink(s.receipts[k]) else s.receipts[k])
    requires forall sid | sid in sessions ::
      sessions[sid] == (if s.sessions[sid].device == device && s.sessions[sid].state.Active?
                        then s.sessions[sid].(state := SessionCancelled) else s.sessions[sid])
    ensures RelinkDevice(s, device, user) ==
      s.(deliveries := rows, receipts := receipts, sessions := sessions,
        devices := s.devices[device := s.devices[device].(user := Some(user))])
  {
    var t := RelinkDevice(s, device, user);
    assert rows == t.deliveries;
    assert receipts == t.receipts;
    assert sessions == t.sessions;
  }

  lemma QueuedFailedAre(s: State, sid: SessionId, rows: map<RowKey, Delivery>)
    requires forall k :: k in rows <==> k in s.deliveries
    requires forall k | k in s.deliveries ::
      rows[k] == (if IsQueued(s, sid, k) then FailStopped(s.deliveries[k]) else s.deliveries[k])
    ensures rows == QueuedFailed(s, sid)
  {
  }

  lemma RearmedAre(s: State, device: DeviceId, user: UserId, peer: UserId, cfg: Settings, now: Time,
                   rows: map<RowKey, Receipt>)
    requires forall k :: k in rows <==> k in s.receipts
    requires forall k | k in s.receipts ::
      rows[k] == (if RearmedByRefresh(s, device, user, peer, k)
        then RearmForRefresh(s.receipts[k], s.messages[k.message].Level(), cfg, now) else s.receipts[k])
    ensures rows == RearmReceipts(s, device, user, peer, cfg, now).receipts
  {
  }

  lemma AcknowledgedAre(s: State, code: nat, now: Time, rows: map<PacketId, Packet>)
    requires forall id :: id in rows <==> id in s.packets
    requires forall id | id in s.packets :: rows[id] == Acknowledged(s.packets[id], code, now)
    ensures rows == RecordNodeAcknowledgement(s, code, now).packets
  {
  }

  lemma DroppedAre(s: State, rows: map<PacketId, Packet>)
    requires forall id :: id in rows <==> id in s.packets
    requires forall id | id in s.packets :: rows[id] == TimedOut(s.packets[id])
    ensures rows == DropAwaiting(s).packets
  {
  }

  lemma RecoveredAre(s: State, rows: map<PacketId, Packet>)
    requires forall id :: id in rows <==> id in s.packets
    requires forall id | id in s.packets ::
      rows[id] == TimedOut(if s.packets[id].state.Prepared? then s.packets[id].(state := OutcomeUnknown)
        else s.packets[id])
    ensures rows == RecoverAtStartup(s).packets
  {
  }

  class RelayEngine {
    var devices: map<DeviceId, Device>
    var messages: map<MessageKey, Message>
    var deliveries: map<RowKey, Delivery>
    var sessions: map<SessionId, Session>
    var receipts: map<RowKey, Receipt>
    var packets: map<PacketId, Packet>
    var nextMessageId: nat
    var nextSessionId: nat
    var nextPacketId: nat

    function Tables(): State
      reads this
    {
      State(devices, messages, deliveries, sessions, receipts, packets, nextMessageId, nextSessionId, nextPacketId)
    }

    constructor ()
      ensures Tables() == State(map[], map[], map[], map[], map[], map[], 0, 0, 0)
    {
      devices, messages, deliveries, sessions, receipts, packets := map[], map[], map[], map[], map[], map[];
      nextMessageId, nextSessionId, nextPacketId := 0, 0, 0;
    }

    // ----- refresh sessions -----------------------------------------------------------------------

    /** The device's active session with the peer, found by looking at every session. */
    method FindActiveSession(device: DeviceId, peer: UserId) returns (r: Option<SessionId>)
      requires SingleSessions(Tables())
      ensures r == ActiveSession(Tables(), device, peer)
    {
      r := None;
      var left := sessions.Keys;
      while left != {}
        invariant left <= sessions.Keys
        invariant r.Some? ==> IsActiveSession(Tables(), r.value, device, peer)
        invariant r.None? ==>
          forall sid | sid in sessions && sid !in left :: !IsActiveSession(Tables(), sid, device, peer)
        decreases |left|
      {
        var sid :| sid in left;
        if IsActiveSession(Tables(), sid, device, peer) {
          r := Some(sid);
          break;
        }
        left := left - {sid};
      }
      if r.None? {
        forall sid ensures !IsActiveSession(Tables(), sid, device, peer) {
        }
      }
    }

    /** Finds, by looking at every row, the queued one that no other precedes. */
    method FindNextHead(sid: SessionId) returns (r: Option<RowKey>)
      ensures r.Some? ==> IsNextHead(Tables(), sid, r.value)
      ensures r.None? ==> forall q :: !IsQueued(Tables(), sid, q)
    {
      r := None;
      var s := Tables();
      var left := deliveries.Keys;
      while left != {}
        invariant left <= deliveries.Keys
        invariant r.None? ==> forall q | q in deliveries && q !in left :: !IsQueued(s, sid, q)
        invariant r.Some? ==> IsQueued(s, sid, r.value)
        invariant r.Some? ==> forall q | q in deliveries && q !in left && IsQueued(s, sid, q) :: !Before(s, q, r.value)
        decreases |left|
      {
        var k :| k in left;
        left := left - {k};
        if IsQueued(s, sid, k) && (r.None? || Before(s, k, r.value)) {
          r := Some(k);
        }
      }
    }

    /** The next queued message becomes the head; false when the session has none left. */
    method ArmNextHead(sid: SessionId, cfg: Settings, now: Time, ghost clock: Time) returns (armed: bool)
      requires MessagesOk(Tables(), clock) && RowsOk(Tables())
      modifies `deliveries
      ensures armed <==> NextHead(old(Tables()), sid).Some?
      ensures armed ==> Tables() == AdvanceSession(old(Tables()), sid, cfg, now)
      ensures !armed ==> Tables() == old(Tables())
    {
      var head := FindNextHead(sid);
      armed := head.Some?;
      FoundHead(Tables(), clock, sid, head);
      if armed {
        deliveries := deliveries[head.value := Arm(deliveries[head.value], cfg, now)];
      }
    }

    method CompleteSession(sid: SessionId)
      modifies `sessions
      ensures Tables() == SetSessionState(old(Tables()), sid, Completed)
    {
      if sid in sessions {
        sessions := sessions[sid := sessions[sid].(state := Completed)];
      }
    }

    /** One by one, whatever waited behind the lost head fails. */
    method StopRefreshSession(sid: SessionId)
      modifies `deliveries, `sessions
      ensures Tables() == StopSession(old(Tables()), sid)
    {
      var s := Tables();
      var all := set k | k in deliveries && IsQueued(s, sid, k);
      var queued := all;
      while queued != {}
        modifies `deliveries
        invariant queued <= all && forall k :: k in deliveries <==> k in s.deliveries
        invariant forall k | k in s.deliveries ::
          deliveries[k] == (if k in all && k !in queued then FailStopped(s.deliveries[k]) else s.deliveries[k])
        decreases |queued|
      {
        var k :| k in queued;
        deliveries := deliveries[k := FailStopped(deliveries[k])];
        queued := queued - {k};
      }
      QueuedFailedAre(s, sid, deliveries);
      if sid in sessions {
        sessions := sessions[sid := sessions[sid].(state := Stopped)];
      }
    }

    // ----- M: parts and fan-out ---------------------------------------------------------------------

    method FindOrCreate(key: MessageKey, recipient: UserId, req: PartRequest)
      modifies `messages, `nextMessageId
      ensures Tables() == FindOrCreateMessage(old(Tables()), key, recipient, req)
      ensures key in messages
    {
      if key !in messages {
        messages :=
          messages[key :=
            Message(nextMessageId, recipient, req.device, seq(req.partCount, i => None), None, None, None, None)];
        nextMessageId := nextMessageId + 1;
        assert messages == FindOrCreateMessage(old(Tables()), key, recipient, req).messages;
      }
    }

    /** The active session with the peer of each of these devices. */
    method FindSessionsByDevice(all: set<DeviceId>, peer: UserId) returns (found: map<DeviceId, SessionId>)
      requires SingleSessions(Tables())
      ensures SessionsFound(Tables(), all, peer, found)
    {
      found := map[];
      var left := all;
      while left != {}
        invariant left <= all
        invariant SessionsFound(Tables(), all - left, peer, found)
        decreases |left|
      {
        var device :| device in left;
        var session := FindActiveSession(device, peer);
        if session.Some? {
          found := found[device := session.value];
        }
        left := left - {device};
      }
      assert all - left == all;
    }

    /**
     One delivery per device of the recipient, queued behind the head of a session that refreshes
     the conversation.
     */
    method CreateDeliveryRows(key: MessageKey, all: set<DeviceId>, found: map<DeviceId, SessionId>, cfg: Settings,
                              now: Time)
      modifies `deliveries
      ensures forall k :: k in deliveries <==> k in old(deliveries) || (k.message == key && k.device in all)
      ensures forall k | k in deliveries ::
        deliveries[k]
          == (if k.message == key && k.device in all then NewRow(found, k.device, cfg, now) else old(deliveries)[k])
    {
      ghost var rows := deliveries;
      var left := all;
      while left != {}
        invariant left <= all
        invariant forall k :: k in deliveries <==> k in rows || (k.message == key && k.device in all - left)
        invariant forall k | k in deliveries ::
          deliveries[k]
            == (if k.message == key && k.device in all - left then NewRow(found, k.device, cfg, now) else rows[k])
        decreases |left|
      {
        var device :| device in left;
        if device in found {
          deliveries := deliveries[RowKey(key, device) := NewQueued(found[device], cfg)];
        } else {
          deliveries := deliveries[RowKey(key, device) := NewPending(cfg, now)];
        }
        left := left - {device};
      }
    }

    /** Every session that got the message counts it. */
    method CountQueuedMessage(refreshing: set<SessionId>)
      requires refreshing <= sessions.Keys
      modifies `sessions
      ensures forall sid :: sid in sessions <==> sid in old(sessions)
      ensures forall sid | sid in sessions ::
        sessions[sid]
          == (if sid in refreshing then old(sessions)[sid].(messagesTotal := old(sessions)[sid].messagesTotal + 1)
            else old(sessions)[sid])
    {
      ghost var was := sessions;
      var left := refreshing;
      while left != {}
        invariant left <= refreshing && forall sid :: sid in sessions <==> sid in was
        invariant forall sid | sid in sessions ::
        sessions[sid]
          == (if sid in refreshing && sid !in left then was[sid].(messagesTotal := was[sid].messagesTotal + 1)
            else was[sid])
        decreases |left|
      {
        var sid :| sid in left;
        sessions := sessions[sid := sessions[sid].(messagesTotal := sessions[sid].messagesTotal + 1)];
        left := left - {sid};
      }
    }

    method CreateDeliveries(key: MessageKey, recipient: UserId, cfg: Settings, now: Time)
      requires SingleSessions(Tables())
      modifies `deliveries, `sessions
      ensures Tables() == FanOut(old(Tables()), key, recipient, cfg, now)
    {
      var s := Tables();
      var all := DevicesOf(s, recipient);
      var found := FindSessionsByDevice(all, key.sender);
      CreateDeliveryRows(key, all, found, cfg, now);
      SessionsFoundAre(s, key, recipient, found);
      CountQueuedMessage(found.Values);
      FanOutRowsAre(s, key, recipient, cfg, now, found, deliveries);
      FanOutSessionsAre(s, key, recipient, cfg, now, found, sessions);
    }

    method IsEveryPartHeld(m: Message) returns (all: bool)
      ensures all <==> AllHeld(m)
    {
      var i := 0;
      while i < |m.partTexts|
        invariant i <= |m.partTexts|
        invariant forall j | 0 <= j < i :: m.partTexts[j].Some?
      {
        if m.partTexts[i].None? {
          return false;
        }
        i := i + 1;
      }
      return true;
    }

    /** The set the sender is told, built part by part. */
    method BuildReceivedSet(m: Message) returns (received: seq<bool>)
      ensures received == ReceivedSet(m)
    {
      received := [];
      var i := 0;
      while i < |m.partTexts|
        invariant i <= |m.partTexts| && |received| == i
        invariant forall j | 0 <= j < i :: received[j] == m.partTexts[j].Some?
      {
        received := received + [m.partTexts[i].Some?];
        i := i + 1;
      }
    }

    method AcceptWholeMessage(key: MessageKey, cfg: Settings, now: Time)
      requires key in messages && SingleSessions(Tables())
      modifies `messages, `deliveries, `sessions
      ensures Tables() == AcceptMessage(old(Tables()), key, cfg, now)
    {
      var m := messages[key];
      messages := messages[key := m.(text := Some(Join(HeldTexts(m.partTexts))), acceptedAt := Some(now))];
      CreateDeliveries(key, m.recipient, cfg, now);
    }

    method PlaceInMessage(key: MessageKey, recipient: UserId, req: PartRequest, cfg: Settings, now: Time)
      returns (reply: PartReply)
      requires key in messages && SingleSessions(Tables())
      modifies `messages, `deliveries, `sessions
      ensures (Tables(), reply) == PlacePart(old(Tables()), key, recipient, req, cfg, now)
    {
      if Conflicts(messages[key], recipient, req) {
        return PartRefused(IdConflict);
      }
      messages := messages[key := StorePart(messages[key], req)];
      var stored := messages[key];
      var complete := IsEveryPartHeld(stored);
      var received := BuildReceivedSet(stored);
      reply := SendStatus(received);
      if stored.acceptedAt.None? && complete {
        AcceptWholeMessage(key, cfg, now);
      }
    }

    /** One M request, answered with the parts held or the error it earns. */
    method ReceivePart(req: PartRequest, cfg: Settings, now: Time) returns (reply: PartReply)
      requires SingleSessions(Tables())
      modifies this
      ensures (Tables(), reply) == AcceptPart(old(Tables()), req, cfg, now)
      ensures AnswersPart(old(Tables()), req, Tables(), reply)
    {
      PartIsAnswered(Tables(), req, cfg, now);
      var user := SignedInUser(Tables(), req.device);
      if user.None? {
        return PartRefused(NotSignedIn);
      }
      if req.recipient.None? {
        return PartRefused(NoSuchUser);
      }
      if req.recipient == user {
        return PartRefused(SelfAddressed);
      }
      if !ValidPartNumbering(req.partNumber, req.partCount) || !IsValidPartText(req.text) {
        return PartRefused(PartInvalid);
      }
      var key := MessageKey(user.value, req.clientId);
      FindOrCreate(key, req.recipient.value, req);
      reply := PlaceInMessage(key, req.recipient.value, req, cfg, now);
    }

    // ----- K, R and C -------------------------------------------------------------------------------

    /** Every current device of the sender gets a receipt at the new level, or has its receipt raised to read. */
    method RaiseReceiptsForMessage(key: MessageKey, level: nat, cfg: Settings, now: Time)
      modifies `receipts
      ensures Tables() == RaiseReceipts(old(Tables()), key, level, cfg, now)
    {
      var s := Tables();
      var all := DevicesOf(s, key.sender);
      var left := all;
      while left != {}
        invariant left <= all
        invariant forall k :: k in receipts <==> k in s.receipts || (k.message == key && k.device in all - left)
        invariant forall k | k in receipts ::
          receipts[k]
            == (if k.message == key && k.device in all - left then RaisedReceipt(s, k, level, cfg, now)
              else s.receipts[k])
        decreases |left|
      {
        var device :| device in left;
        var k := RowKey(key, device);
        if k !in receipts {
          receipts := receipts[k := NewReceipt(level, cfg, now)];
        } else if level == READ_LEVEL {
          receipts := receipts[k := RaiseToRead(receipts[k], cfg, now)];
        }
        left := left - {device};
      }
      RaisedReceiptsAre(s, key, level, cfg, now, receipts);
    }

    /** The message's first delivery and read times; a new level starts receipts. */
    method RecordMessageConfirmation(key: MessageKey, isRead: bool, cfg: Settings, now: Time)
      requires key in messages
      modifies `messages, `receipts
      ensures Tables() == ConfirmMessage(old(Tables()), key, isRead, cfg, now)
    {
      var m := messages[key];
      if LevelRises(m, isRead) {
        messages := messages[key := ConfirmedMessage(m, isRead, now)];
        RaiseReceiptsForMessage(key, messages[key].Level(), cfg, now);
      }
    }

    /**
     Delivered; the session whose head this was moves on, and one without a next message is
     returned to be completed last.
     */
    method DeliverRow(k: RowKey, received: Option<set<nat>>, cfg: Settings, now: Time, ghost clock: Time)
      returns (toComplete: Option<SessionId>)
      requires MessagesOk(Tables(), clock) && RowsOk(Tables()) && k in deliveries && deliveries[k].Live()
      modifies `deliveries
      ensures Deliver(old(Tables()), k, received, cfg, now) ==
        if toComplete.Some? then SetSessionState(Tables(), toComplete.value, Completed) else Tables()
    {
      var s := Tables();
      var d := deliveries[k];
      var head := if d.state.Pending? then HeadSession(s, d) else None;
      deliveries := deliveries[k := MarkDelivered(d, received)];
      toComplete := None;
      if head.Some? {
        DeliveredRowKeepsTables(s, clock, k, received);
        var armed := ArmNextHead(head.value, cfg, now, clock);
        if !armed {
          toComplete := head;
        }
      }
    }

    /** The suggested timeout of the latest packet of the row's round whose outcome is known. */
    method FindRoundSuggestion(k: RowKey) returns (r: Option<nat>)
      requires k in deliveries
      ensures r == RoundSuggestion(Tables(), k, deliveries[k])
    {
      var d := deliveries[k];
      var below := nextPacketId;
      while below > 0
        invariant LastRoundSuggestion(Tables(), k, d.armGeneration, d.attemptCount, nextPacketId) ==
          LastRoundSuggestion(Tables(), k, d.armGeneration, d.attemptCount, below)
      {
        below := below - 1;
        if below in packets {
          var p := packets[below];
          if p.row == k && p.purpose.DeliveryPart? && p.armGeneration == d.armGeneration
            && p.attemptNumber == d.attemptCount
             && !p.state.Prepared?
          {
            return p.suggestedTimeout;
          }
        }
      }
      return None;
    }

    /** Delivers the row, confirms the message, raises receipts, and completes the session as the last step. */
    method ConfirmDelivery(k: RowKey, received: Option<set<nat>>, isRead: bool, cfg: Settings, now: Time,
                           ghost clock: Time)
      requires MessagesOk(Tables(), clock) && RowsOk(Tables()) && k in deliveries && deliveries[k].Live()
        && k.message in messages
      modifies `deliveries, `messages, `receipts, `sessions
      ensures Tables() == ConfirmMessage(Deliver(old(Tables()), k, received, cfg, now), k.message, isRead, cfg, now)
    {
      var toComplete := DeliverRow(k, received, cfg, now, clock);
      ghost var delivered := Tables();
      RecordMessageConfirmation(k.message, isRead, cfg, now);
      if toComplete.Some? {
        ConfirmAndCompleteCommute(delivered, k.message, isRead, cfg, now, toComplete.value);
        CompleteSession(toComplete.value);
      }
    }

    method NoteStatus(device: DeviceId, sender: Option<UserId>, clientId: nat, received: seq<bool>, cfg: Settings,
                      now: Time, ghost clock: Time)
      requires MessagesOk(Tables(), clock) && RowsOk(Tables())
      modifies this
      ensures Tables() == RecordStatus(old(Tables()), device, sender, clientId, received, cfg, now)
    {
      if StatusApplies(Tables(), device, sender, clientId, received) {
        var k := RowKey(MessageKey(sender.value, clientId), device);
        if Reported(received) != messages[k.message].Parts() {
          var suggestion := FindRoundSuggestion(k);
          deliveries := deliveries[k := IncompleteStatus(deliveries[k], Reported(received), suggestion, cfg, now)];
        } else {
          ConfirmDelivery(k, Some(Reported(received)), false, cfg, now, clock);
        }
      }
    }

    /** A K: its set becomes the row's received set; all ones deliver the message to the device. */
    method ReceiveStatus(device: DeviceId, sender: Option<UserId>, clientId: nat, received: seq<bool>, cfg: Settings,
                         now: Time, ghost clock: Time)
      requires Inv(Tables(), clock)
      modifies this
      ensures Tables() == RecordStatus(old(Tables()), device, sender, clientId, received, cfg, now)
      ensures if sender.Some? && StatusCounts(old(Tables()), device, MessageKey(sender.value, clientId), received)
        then TakesReport(old(Tables()), Tables(), RowKey(MessageKey(sender.value, clientId), device), received)
        else Tables() == old(Tables())
    {
      StatusTakesEffect(Tables(), device, sender, clientId, received, cfg, clock, now);
      NoteStatus(device, sender, clientId, received, cfg, now, clock);
    }

    /** An R: read by the user, and so delivered to this device; answered with the message it names or an error. */
    method ReceiveRead(device: DeviceId, sender: Option<UserId>, clientId: nat, cfg: Settings, now: Time,
                       ghost clock: Time)
      returns (reply: ReadReply)
      requires Inv(Tables(), clock)
      modifies this
      ensures Tables() == RecordRead(old(Tables()), device, sender, clientId, cfg, now)
      ensures reply == ReadRefused(NotSignedIn) <==>
        device !in old(devices) || old(devices)[device].user.None?
      ensures reply == ReadRefused(NotFound) <==>
        && device in old(devices) && old(devices)[device].user.Some?
        && !(sender.Some? && IsForDevice(old(Tables()), device, MessageKey(sender.value, clientId)))
      ensures reply.ReadRefused? ==> (reply.error.NotSignedIn? || reply.error.NotFound?) && Tables() == old(Tables())
      ensures reply.ReadNoted? ==>
        && sender.Some? && reply.message == MessageKey(sender.value, clientId)
        && TakesRead(old(Tables()), Tables(), reply.message, device, now)
    {
      if SignedInUser(Tables(), device).None? {
        return ReadRefused(NotSignedIn);
      }
      if sender.None? || !IsIncoming(Tables(), device, MessageKey(sender.value, clientId)) {
        return ReadRefused(NotFound);
      }
      ReadTakesEffect(Tables(), device, sender, clientId, cfg, clock, now);
      var k := RowKey(MessageKey(sender.value, clientId), device);
      if k in deliveries && deliveries[k].Live() {
        ConfirmDelivery(k, None, true, cfg, now, clock);
      } else {
        RecordMessageConfirmation(k.message, true, cfg, now);
      }
      reply := ReadNoted(k.message);
    }

    /**
     A C confirms this device's open receipt of the message as far as reported and wanted, and
     changes nothing else; a C that concerns none changes nothing.
     */
    method ReceiveConfirmation(device: DeviceId, recipient: Option<UserId>, clientId: nat, level: nat)
      requires ReceiptsOk(Tables())
      modifies `receipts
      ensures Tables() == RecordReceiptConfirmation(old(Tables()), device, recipient, clientId, level)
      ensures
        var counts := device in old(devices) && old(devices)[device].user.Some?
          && ConfirmationCounts(old(Tables()), device, recipient,
            MessageKey(old(devices)[device].user.value, clientId));
        if !counts then receipts == old(receipts)
        else
          var k := RowKey(MessageKey(old(devices)[device].user.value, clientId), device);
          && k in receipts && ConfirmedBy(old(receipts)[k], receipts[k], level)
          && receipts == old(receipts)[k := receipts[k]]
    {
      ConfirmationTakesEffect(Tables(), device, recipient, clientId, level);
      var user := SignedInUser(Tables(), device);
      if user.Some? && recipient.Some? {
        var key := MessageKey(user.value, clientId);
        var k := RowKey(key, device);
        if key in messages && messages[key].acceptedAt.Some? && messages[key].recipient == recipient.value
          && k in receipts {
          receipts := receipts[k := Confirm(receipts[k], level)];
        }
      }
    }

    // ----- F ----------------------------------------------------------------------------------------

    method FindHead(sid: SessionId) returns (r: Option<RowKey>)
      requires SessionsOk(Tables()) && sid in sessions && sessions[sid].state.Active?
      ensures r == Head(Tables(), sid)
    {
      var s := Tables();
      r := None;
      var left := deliveries.Keys;
      assert SessionOk(s, sid);
      while left != {}
        invariant left <= deliveries.Keys
        invariant r.None? && forall q | q in deliveries && q !in left :: !IsHead(s, sid, q)
        decreases |left|
      {
        var k :| k in left;
        if IsHead(s, sid, k) {
          r := Some(k);
          return;
        }
        left := left - {k};
      }
    }

    method RestartActiveSession(sid: SessionId, cfg: Settings, now: Time)
      requires SessionsOk(Tables()) && sid in sessions && sessions[sid].state.Active?
      modifies `deliveries
      ensures Tables() == RestartSession(old(Tables()), sid, cfg, now)
    {
      var head := FindHead(sid);
      if head.Some? {
        deliveries := deliveries[head.value := RestartHead(deliveries[head.value], cfg, now)];
      }
    }

    /** The session takes over its rows one by one. */
    method TakeRows(sid: SessionId, taken: set<RowKey>)
      requires taken <= deliveries.Keys
      modifies `deliveries
      ensures forall k :: k in deliveries <==> k in old(deliveries)
      ensures forall k | k in deliveries ::
        deliveries[k] == (if k in taken then TakeIntoSession(old(deliveries)[k], sid) else old(deliveries)[k])
    {
      ghost var rows := deliveries;
      var left := taken;
      while left != {}
        invariant left <= taken && forall k :: k in deliveries <==> k in rows
        invariant forall k | k in deliveries ::
          deliveries[k] == (if k in taken - left then TakeIntoSession(rows[k], sid) else rows[k])
        decreases |left|
      {
        var k :| k in left;
        deliveries := deliveries[k := TakeIntoSession(deliveries[k], sid)];
        left := left - {k};
      }
    }

    /** Every missed message gets a queued row. */
    method AddRows(sid: SessionId, missed: set<RowKey>, cfg: Settings)
      requires forall k | k in missed :: k !in deliveries
      modifies `deliveries
      ensures forall k :: k in deliveries <==> k in old(deliveries) || k in missed
      ensures forall k | k in deliveries ::
        deliveries[k] == (if k in missed then NewQueued(sid, cfg) else old(deliveries)[k])
    {
      ghost var rows := deliveries;
      var left := missed;
      while left != {}
        invariant left <= missed
        invariant forall k :: k in deliveries <==> k in rows || k in missed - left
        invariant forall k | k in deliveries :: deliveries[k] == (if k in missed then NewQueued(sid, cfg) else rows[k])
        decreases |left|
      {
        var k :| k in left;
        deliveries := deliveries[k := NewQueued(sid, cfg)];
        left := left - {k};
      }
    }

    method OpenRefreshSession(device: DeviceId, peer: UserId, taken: set<RowKey>, missed: set<RowKey>, cfg: Settings)
      requires taken <= deliveries.Keys && forall k | k in missed :: k !in deliveries
      modifies `deliveries, `sessions, `nextSessionId
      ensures Tables() == OpenScope(old(Tables()), device, peer, taken, missed, cfg)
    {
      ghost var s := Tables();
      TakeRows(nextSessionId, taken);
      AddRows(nextSessionId, missed, cfg);
      ScopeRowsAre(s, device, peer, taken, missed, cfg, deliveries);
      OpenedRowsAre(s, device, peer, taken, missed, cfg, deliveries);
      sessions := sessions[nextSessionId := Session(device, peer, Active, |taken| + |missed|)];
      nextSessionId := nextSessionId + 1;
    }

    /** A new session over everything in scope, with its first head armed. */
    method OpenAndArm(device: DeviceId, user: UserId, peer: UserId, cfg: Settings, now: Time)
      requires Inv(Tables(), now) && cfg.Valid() && SignedInUser(Tables(), device) == Some(user)
      requires |TakenKeys(Tables(), device, user, peer)| + |MissedKeys(Tables(), device, user, peer)| > 0
      modifies `deliveries, `sessions, `nextSessionId
      ensures Tables()
        == AdvanceSession(OpenSession(old(Tables()), device, user, peer, cfg), old(nextSessionId), cfg, now)
    {
      ghost var s := Tables();
      var sid := nextSessionId;
      var taken, missed := TakenKeys(Tables(), device, user, peer), MissedKeys(Tables(), device, user, peer);
      QueriesGiveScope(s, device, user, peer);
      OpenRefreshSession(device, peer, taken, missed, cfg);
      OpenedTablesAreOrdered(s, device, user, peer, cfg, now);
      OpenedSessionHasNext(s, device, user, peer, cfg);
      var _ := ArmNextHead(sid, cfg, now, now);
    }

    /** The rows of one conversation, and the number of messages it announces. */
    method RefreshConversation(device: DeviceId, user: UserId, peer: UserId, cfg: Settings, now: Time)
      returns (count: nat)
      requires Inv(Tables(), now) && cfg.Valid() && SignedInUser(Tables(), device) == Some(user) && user != peer
      modifies this
      ensures (Tables(), count) == RefreshPeer(old(Tables()), device, user, peer, cfg, now)
    {
      var active := FindActiveSession(device, peer);
      if active.Some? {
        RestartActiveSession(active.value, cfg, now);
        count := |Outstanding(Tables(), active.value)|;
        return;
      }
      count := |TakenKeys(Tables(), device, user, peer)| + |MissedKeys(Tables(), device, user, peer)|;
      if count > 0 {
        OpenAndArm(device, user, peer, cfg, now);
      }
    }

    /** What one F does for one peer: whatever the device lacks is on its way, and counted. */
    method RefreshOnePeer(device: DeviceId, user: UserId, peer: UserId, cfg: Settings, now: Time) returns (count: nat)
      requires Inv(Tables(), now) && cfg.Valid() && SignedInUser(Tables(), device) == Some(user) && user != peer
      modifies this
      ensures (Tables(), count) == RefreshPeer(old(Tables()), device, user, peer, cfg, now)
      ensures count == Expected(old(Tables()), device, user, peer)
      ensures NoSession(old(Tables()), device, peer) ==>
        TookAll(old(Tables()), Tables(), device, user, peer) && count == |Lacking(old(Tables()), device, user, peer)|
    {
      RefreshMeans(Tables(), device, user, peer, cfg, now);
      count := RefreshConversation(device, user, peer, cfg, now);
    }

    /** "F *": one peer after the other. */
    method RefreshAllPeers(device: DeviceId, user: UserId, peers: seq<UserId>, cfg: Settings, now: Time)
      returns (total: nat)
      requires Inv(Tables(), now) && cfg.Valid() && SignedInUser(Tables(), device) == Some(user) && user !in peers
      modifies this
      ensures (Tables(), total) == RefreshPeers(old(Tables()), device, user, peers, cfg, now)
    {
      total := 0;
      var i := 0;
      ghost var s := Tables();
      assert peers[0..] == peers;
      while i < |peers|
        invariant i <= |peers|
        invariant Inv(Tables(), now) && SignedInUser(Tables(), device) == Some(user)
        invariant RestOfRefresh(s, Tables(), total, device, user, peers, i, cfg, now)
      {
        RefreshPeerKeepsInv(Tables(), device, user, peers[i], cfg, now);
        RefreshPeerKeepsDevices(Tables(), device, user, peers[i], cfg, now);
        RestAfterOne(s, Tables(), total, device, user, peers, i, cfg, now);
        var count := RefreshOnePeer(device, user, peers[i], cfg, now);
        total := total + count;
        i := i + 1;
      }
      NothingRests(s, Tables(), total, device, user, peers, cfg, now);
    }

    /** Receipts of what this device itself sent to the peer start over, unless confirmed. */
    method RearmReceiptsForRefresh(device: DeviceId, user: UserId, peer: UserId, cfg: Settings, now: Time)
      modifies `receipts
      ensures Tables() == RearmReceipts(old(Tables()), device, user, peer, cfg, now)
    {
      var s := Tables();
      var all := set k | k in receipts && RearmedByRefresh(s, device, user, peer, k);
      var left := all;
      while left != {}
        invariant left <= all && forall k :: k in receipts <==> k in s.receipts
        invariant forall k | k in s.receipts ::
          receipts[k]
            == (if k in all && k !in left
              then RearmForRefresh(s.receipts[k], s.messages[k.message].Level(), cfg, now) else s.receipts[k])
        decreases |left|
      {
        var k :| k in left;
        receipts := receipts[k := RearmForRefresh(receipts[k], messages[k.message].Level(), cfg, now)];
        left := left - {k};
      }
      RearmedAre(s, device, user, peer, cfg, now, receipts);
    }

    /** An F: answered with the count of what is to come, or an error. */
    method ReceiveRefresh(device: DeviceId, target: RefreshTarget, peers: seq<UserId>, cfg: Settings, now: Time)
      returns (reply: RefreshReply)
      requires Inv(Tables(), now) && cfg.Valid() && Enabled(Tables(), RefreshArrives(device, target, peers), cfg, now)
      modifies this
      ensures Tables() == StartRefresh(old(Tables()), device, target, peers, cfg, now).0
      ensures reply.RefreshAnnounced? ==> reply.count == StartRefresh(old(Tables()), device, target, peers, cfg, now).1
      ensures var user := SignedInUser(old(Tables()), device);
        && (reply == RefreshRefused(NotSignedIn) <==> user.None?)
        && (reply == RefreshRefused(NoSuchUser) <==> user.Some? && target == OnePeer(None))
        && (reply == RefreshRefused(SelfAddressed) <==> user.Some? && target == OnePeer(user))
      ensures reply.RefreshRefused? ==>
        (reply.error.NotSignedIn? || reply.error.NoSuchUser? || reply.error.SelfAddressed?) && Tables() == old(Tables())
      ensures reply.RefreshAnnounced? && target.AllPeers? ==>
        reply.count == AllExpected(old(Tables()), device, SignedInUser(old(Tables()), device).value, peers)
      ensures reply.RefreshAnnounced? && target.OnePeer? && NoSession(old(Tables()), device, target.peer.value) ==>
        var user := SignedInUser(old(Tables()), device).value;
        && TookAll(old(Tables()), Tables(), device, user, target.peer.value)
        && reply.count == |Lacking(old(Tables()), device, user, target.peer.value)|
    {
      var user := SignedInUser(Tables(), device);
      if user.None? {
        return RefreshRefused(NotSignedIn);
      }
      match target
      case AllPeers =>
        assert user.value !in peers;
        RefreshOfAllTakesAll(Tables(), device, peers, cfg, now, now, user.value);
        var count := RefreshAllPeers(device, user.value, peers, cfg, now);
        reply := RefreshAnnounced(count);
      case OnePeer(peer) =>
        if peer.None? {
          return RefreshRefused(NoSuchUser);
        }
        if peer == user {
          return RefreshRefused(SelfAddressed);
        }
        ghost var s := Tables();
        if NoSession(Tables(), device, peer.value) {
          RefreshOfOneTakesAll(Tables(), device, peer.value, peers, cfg, now, now);
        }
        RearmReceiptsForRefresh(device, user.value, peer.value, cfg, now);
        RearmKeepsInv(s, device, user.value, peer.value, cfg, now);
        var count := RefreshOnePeer(device, user.value, peer.value, cfg, now);
        reply := RefreshAnnounced(count);
    }

    // ----- preparing packets ------------------------------------------------------------------------

    /** Rounds send their parts in ascending order. */
    method FindLowestPart(parts: set<nat>, last: nat) returns (r: Option<nat>)
      ensures r == LowestPart(parts, 1, last)
    {
      var n := 1;
      while n <= last
        invariant 1 <= n <= last + 1
        invariant LowestPart(parts, 1, last) == LowestPart(parts, n, last)
      {
        if n in parts {
          return Some(n);
        }
        n := n + 1;
      }
      return None;
    }

    method AddPacket(p: Packet) returns (id: Option<PacketId>)
      modifies `packets, `nextPacketId
      ensures (Tables(), id) == InsertPacket(old(Tables()), p)
    {
      id := Some(nextPacketId);
      packets := packets[nextPacketId := p];
      nextPacketId := nextPacketId + 1;
    }

    method FailDelivery(k: RowKey)
      requires k in deliveries
      modifies `deliveries, `sessions
      ensures Tables() == FailExhaustedDelivery(old(Tables()), k)
    {
      var head := HeadSession(Tables(), deliveries[k]);
      deliveries := deliveries[k := FailExhausted(deliveries[k])];
      if head.Some? {
        StopRefreshSession(head.value);
      }
    }

    /** The round is empty: close it, give up, wait for a place, or begin the next one. */
    method AdvanceToNewRound(k: RowKey, cfg: Settings, now: Time) returns (started: bool)
      requires k in deliveries && k.message in messages && deliveries[k].state.Pending?
        && PartsLeft(deliveries[k]) == {}
      modifies `deliveries, `sessions
      ensures started ==>
        k in deliveries && PrepareDelivery(old(Tables()), k, cfg, now) == PrepareLowestPart(Tables(), k)
      ensures !started ==> PrepareDelivery(old(Tables()), k, cfg, now) == (Tables(), None)
    {
      var d := deliveries[k];
      if d.roundParts != {} {
        var suggestion := FindRoundSuggestion(k);
        deliveries := deliveries[k := CompleteRound(d, suggestion, cfg, now)];
        return false;
      }
      if d.attemptCount >= d.maximumAttempts {
        FailDelivery(k);
        return false;
      }
      if d.roundStartedAt.None? && |InProgress(Tables(), k.device)| >= cfg.activeLimit {
        return false;
      }
      deliveries := deliveries[k := StartRound(d, messages[k.message].Parts(), now)];
      return true;
    }

    method PrepareDeliveryPacket(k: RowKey, cfg: Settings, now: Time) returns (id: Option<PacketId>)
      modifies this
      ensures (Tables(), id) == PrepareDelivery(old(Tables()), k, cfg, now)
    {
      if k !in deliveries || k.message !in messages || !deliveries[k].state.Pending? {
        return None;
      }
      if PartsLeft(deliveries[k]) == {} {
        var started := AdvanceToNewRound(k, cfg, now);
        if !started {
          return None;
        }
      }
      var part := FindLowestPart(PartsLeft(deliveries[k]), |messages[k.message].partTexts|);
      if part.None? {
        return None;
      }
      id := AddPacket(PartPacket(k, deliveries[k], part.value));
    }

    /**
     A pending receipt yields a packet with its target level, counting an attempt unless one is
     under way; it fails instead only once every attempt is spent, and is then pending no more.
     */
    method PrepareReceiptPacket(k: RowKey, now: Time) returns (id: Option<PacketId>)
      modifies `receipts, `packets, `nextPacketId
      ensures (Tables(), id) == PrepareReceipt(old(Tables()), k, now)
      ensures forall q :: q in receipts <==> q in old(receipts)
      ensures forall q | q in receipts && q != k :: receipts[q] == old(receipts)[q]
      ensures id.Some? ==>
        && id.value == old(nextPacketId) && packets == old(packets)[id.value := packets[id.value]]
        && k in old(receipts) && k in receipts && receipts[k].state.ReceiptPending? && receipts[k].roundPending
        && packets[id.value] == ReceiptPacket(k, receipts[k]) && receipts[k].targetLevel == old(receipts)[k].targetLevel
        && receipts[k].attemptCount == old(receipts)[k].attemptCount + (if old(receipts)[k].roundPending then 0 else 1)
        && (!old(receipts)[k].roundPending ==> receipts[k].attemptCount <= receipts[k].maximumAttempts)
      ensures id.None? ==>
        && packets == old(packets)
        && (k in receipts ==> !receipts[k].state.ReceiptPending?)
        && (k in receipts && receipts[k] != old(receipts)[k] ==>
              && receipts[k] == old(receipts)[k].(state := ReceiptFailed)
              && !old(receipts)[k].roundPending && old(receipts)[k].attemptCount >= old(receipts)[k].maximumAttempts)
    {
      if k !in receipts || !receipts[k].state.ReceiptPending? {
        return None;
      }
      if !receipts[k].roundPending {
        if receipts[k].attemptCount >= receipts[k].maximumAttempts {
          receipts := receipts[k := FailReceipt(receipts[k])];
          return None;
        }
        receipts := receipts[k := StartAttempt(receipts[k], now)];
      }
      id := AddPacket(ReceiptPacket(k, receipts[k]));
    }

    /** Walks the due candidates until one yields a packet. */
    method PrepareNextPacket(candidates: seq<Candidate>, cfg: Settings, now: Time) returns (id: Option<PacketId>)
      modifies this
      ensures (Tables(), id) == PrepareNext(old(Tables()), candidates, cfg, now)
    {
      id := None;
      var i := 0;
      while i < |candidates|
        invariant i <= |candidates| && id.None?
        invariant PrepareNext(old(Tables()), candidates, cfg, now) == PrepareNext(Tables(), candidates[i..], cfg, now)
      {
        assert candidates[i..][1..] == candidates[i + 1..];
        match candidates[i] {
          case DeliveryCandidate(k) => id := PrepareDeliveryPacket(k, cfg, now);
          case ReceiptCandidate(k) => id := PrepareReceiptPacket(k, now);
        }
        if id.Some? {
          return;
        }
        i := i + 1;
      }
    }

    // ----- the life of a packet ---------------------------------------------------------------------

    method CountPacketAsSent(p: Packet, suggestion: Option<nat>, cfg: Settings, now: Time)
      modifies `deliveries, `receipts
      ensures Tables() == CountAsSent(old(Tables()), p, suggestion, cfg, now)
    {
      if MatchesDelivery(Tables(), p) {
        deliveries := deliveries[p.row := PartSent(deliveries[p.row], p.purpose.part, suggestion, cfg, now)];
      } else if MatchesReceipt(Tables(), p) {
        receipts := receipts[p.row := ReceiptSent(receipts[p.row], suggestion, cfg, now)];
      }
    }

    method SettlePacket(id: PacketId, outcome: SendOutcome, cfg: Settings, now: Time)
      modifies `devices, `deliveries, `receipts, `packets
      ensures Tables() == RecordOutcome(old(Tables()), id, outcome, cfg, now)
    {
      if id !in packets || !packets[id].state.Prepared? {
        return;
      }
      var p := packets[id];
      if outcome == Rejected(ERR_CODE_NOT_FOUND) && p.row.device in devices {
        devices := devices[p.row.device := devices[p.row.device].(onNode := false)];
      }
      if CountsAsSent(outcome) {
        CountPacketAsSent(p, Suggestion(outcome), cfg, now);
      }
      packets := packets[id := PacketAfter(p, outcome, now)];
    }

    /**
     What the node answers settles the packet, and no later answer to it changes anything.
     A send that counts takes the packet's own part out of its own row's round, or ends the attempt
     of its own receipt; no other row changes.
     */
    method RecordSendOutcome(id: PacketId, outcome: SendOutcome, cfg: Settings, now: Time)
      modifies `devices, `deliveries, `receipts, `packets
      ensures Tables() == RecordOutcome(old(Tables()), id, outcome, cfg, now)
      ensures id in packets ==> !packets[id].state.Prepared?
      ensures forall again, c, later :: RecordOutcome(Tables(), id, again, c, later) == Tables()
      ensures forall k | k in old(deliveries) ::
        && k in deliveries
        && (if EndsPart(old(Tables()), id, outcome, k)
            then PartEnded(old(deliveries)[k], deliveries[k], old(packets)[id].purpose.part, outcome, cfg, now)
            else deliveries[k] == old(deliveries)[k])
      ensures forall k | k in old(receipts) ::
        && k in receipts
        && receipts[k] == (if EndsPush(old(Tables()), id, outcome, k)
                           then PushEnded(old(receipts)[k], outcome, cfg, now) else old(receipts)[k])
      ensures forall other | other in old(packets) ::
        && other in packets
        && (if other == id && old(packets)[id].state.Prepared? then Settled(old(packets)[id], packets[id], outcome, now)
            else packets[other] == old(packets)[other])
    {
      OutcomeIsShown(Tables(), id, outcome, cfg, now);
      SettlePacket(id, outcome, cfg, now);
    }

    /** A firmware ACK marks every packet that expects its code, one by one. */
    method ReceiveNodeAcknowledgement(code: nat, now: Time)
      modifies `packets
      ensures Tables() == RecordNodeAcknowledgement(old(Tables()), code, now)
      ensures forall id | id in old(packets) ::
        && id in packets
        && packets[id]
          == (if IsAcknowledgedBy(old(packets)[id], code, now) then old(packets)[id].(state := NodeAcknowledged)
                           else old(packets)[id])
    {
      var s := Tables();
      var left := packets.Keys;
      while left != {}
        invariant left <= s.packets.Keys && forall id :: id in packets <==> id in s.packets
        invariant forall id | id in s.packets ::
          packets[id] == (if id in left then s.packets[id] else Acknowledged(s.packets[id], code, now))
        decreases |left|
      {
        var id :| id in left;
        packets := packets[id := Acknowledged(packets[id], code, now)];
        left := left - {id};
      }
      AcknowledgedAre(s, code, now, packets);
    }

    method PassDeadline(id: PacketId)
      modifies `packets
      ensures Tables() == RecordDeadline(old(Tables()), id)
    {
      if id in packets {
        packets := packets[id := TimedOut(packets[id])];
      }
    }

    /** At teardown and at start-up: no acknowledgement is awaited any more. */
    method DropAwaitingPackets()
      modifies `packets
      ensures Tables() == DropAwaiting(old(Tables()))
    {
      var s := Tables();
      var left := packets.Keys;
      while left != {}
        invariant left <= s.packets.Keys && forall id :: id in packets <==> id in s.packets
        invariant forall id | id in s.packets ::
          packets[id] == (if id in left then s.packets[id] else TimedOut(s.packets[id]))
        decreases |left|
      {
        var id :| id in left;
        packets := packets[id := TimedOut(packets[id])];
        left := left - {id};
      }
      DroppedAre(s, packets);
    }

    /** A packet found prepared at start-up may have gone out or not. */
    method MarkPreparedUnknown()
      modifies `packets
      ensures forall id :: id in packets <==> id in old(packets)
      ensures forall id | id in packets ::
        packets[id]
          == (if old(packets)[id].state.Prepared? then old(packets)[id].(state := OutcomeUnknown) else old(packets)[id])
    {
      ghost var was := packets;
      var all := set id | id in packets && packets[id].state.Prepared?;
      var left := all;
      while left != {}
        invariant left <= all && forall id :: id in packets <==> id in was
        invariant forall id | id in was ::
          packets[id] == (if id in all && id !in left then was[id].(state := OutcomeUnknown) else was[id])
        decreases |left|
      {
        var id :| id in left;
        packets := packets[id := packets[id].(state := OutcomeUnknown)];
        left := left - {id};
      }
    }

    method RecoverPackets()
      modifies `packets
      ensures Tables() == RecoverAtStartup(old(Tables()))
      ensures forall id | id in packets :: !packets[id].state.Prepared? && !packets[id].state.QueuedOnNode?
    {
      ghost var s := Tables();
      MarkPreparedUnknown();
      DropAwaitingPackets();
      RecoveredAre(s, packets);
    }

    // ----- devices ----------------------------------------------------------------------------------

    method CancelDeliveries(device: DeviceId)
      modifies `deliveries
      ensures forall k :: k in deliveries <==> k in old(deliveries)
      ensures forall k | k in deliveries ::
        deliveries[k] == (if k.device == device then CancelForRelink(old(deliveries)[k]) else old(deliveries)[k])
    {
      ghost var was := deliveries;
      var all := set k | k in deliveries && k.device == device;
      var left := all;
      while left != {}
        invariant left <= all && forall k :: k in deliveries <==> k in was
        invariant forall k | k in was ::
          deliveries[k] == (if k in all && k !in left then CancelForRelink(was[k]) else was[k])
        decreases |left|
      {
        var k :| k in left;
        deliveries := deliveries[k := CancelForRelink(deliveries[k])];
        left := left - {k};
      }
    }

    method CancelReceipts(device: DeviceId)
      modifies `receipts
      ensures forall k :: k in receipts <==> k in old(receipts)
      ensures forall k | k in receipts ::
        receipts[k] == (if k.device == device then CancelReceiptForRelink(old(receipts)[k]) else old(receipts)[k])
    {
      ghost var was := receipts;
      var all := set k | k in receipts && k.device == device;
      var left := all;
      while left != {}
        invariant left <= all && forall k :: k in receipts <==> k in was
        invariant forall k | k in was ::
          receipts[k] == (if k in all && k !in left then CancelReceiptForRelink(was[k]) else was[k])
        decreases |left|
      {
        var k :| k in left;
        receipts := receipts[k := CancelReceiptForRelink(receipts[k])];
        left := left - {k};
      }
    }

    method CancelSessions(device: DeviceId)
      modifies `sessions
      ensures forall sid :: sid in sessions <==> sid in old(sessions)
      ensures forall sid | sid in sessions ::
        sessions[sid] == (if old(sessions)[sid].device == device && old(sessions)[sid].state.Active?
                          then old(sessions)[sid].(state := SessionCancelled) else old(sessions)[sid])
    {
      ghost var was := sessions;
      var all := set sid | sid in sessions && sessions[sid].device == device && sessions[sid].state.Active?;
      var left := all;
      while left != {}
        invariant left <= all && forall sid :: sid in sessions <==> sid in was
        invariant forall sid | sid in was ::
          sessions[sid] == (if sid in all && sid !in left then was[sid].(state := SessionCancelled) else was[sid])
        decreases |left|
      {
        var sid :| sid in left;
        sessions := sessions[sid := sessions[sid].(state := SessionCancelled)];
        left := left - {sid};
      }
    }

    /** Everything of the previous user is cancelled, then the device changes hands. */
    method Relink(device: DeviceId, user: UserId)
      requires device in devices
      modifies `deliveries, `receipts, `sessions, `devices
      ensures Tables() == RelinkDevice(old(Tables()), device, user)
    {
      ghost var s := Tables();
      CancelDeliveries(device);
      CancelReceipts(device);
      CancelSessions(device);
      devices := devices[device := devices[device].(user := Some(user))];
      RelinkedTablesAre(s, device, user, deliveries, receipts, sessions);
    }

    method Link(device: DeviceId, user: UserId)
      modifies `deliveries, `receipts, `sessions, `devices
      ensures Tables() == LinkDevice(old(Tables()), device, user)
    {
      if device !in devices || devices[device].user == Some(user) {
        return;
      }
      if devices[device].user.None? {
        devices := devices[device := devices[device].(user := Some(user))];
      } else {
        Relink(device, user);
      }
    }

    // ----- every transaction ------------------------------------------------------------------------

    /** Any service transaction on tables in order leaves what the transition function says, in order again. */
    method Run(step: Step, cfg: Settings, ghost clock: Time, now: Time)
      requires Inv(Tables(), clock) && clock <= now && cfg.Valid() && Enabled(Tables(), step, cfg, now)
      modifies this
      ensures Tables() == Apply(old(Tables()), step, cfg, now)
      ensures Inv(Tables(), now)
    {
      StepKeepsInv(Tables(), step, cfg, clock, now);
      match step {
        case PartArrives(req) => var _ := ReceivePart(req, cfg, now);
        case StatusArrives(device, sender, clientId, received) =>
          ReceiveStatus(device, sender, clientId, received, cfg, now, clock);
        case ReadArrives(device, sender, clientId) => var _ := ReceiveRead(device, sender, clientId, cfg, now, clock);
        case ConfirmationArrives(device, recipient, clientId, level) =>
          ReceiveConfirmation(device, recipient, clientId, level);
        case RefreshArrives(device, target, peers) =>
          ClockKeepsInv(Tables(), clock, now);
          var _ := ReceiveRefresh(device, target, peers, cfg, now);
        case PacketPrepared(candidates) => var _ := PrepareNextPacket(candidates, cfg, now);
        case OutcomeRecorded(id, outcome) => RecordSendOutcome(id, outcome, cfg, now);
        case NodeAcknowledges(code) => ReceiveNodeAcknowledgement(code, now);
        case DeadlinePasses(id) => PassDeadline(id);
        case LinkLost => DropAwaitingPackets();
        case WorkerRestarts => RecoverPackets();
        case DeviceLinked(device, user) => Link(device, user);
        case DeviceAdded(device) =>
          if device !in devices {
            devices := devices[device := Device(None, false)];
          }
        case NodeSyncChanges(device, onNode) =>
          if device in devices {
            devices := devices[device := devices[device].(onNode := onNode)];
          }
      }
    }
  }
}
