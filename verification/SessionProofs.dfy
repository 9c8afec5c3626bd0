/** Every step keeps the refresh sessions in order: one head each, no gap, an exact count. */
module SessionProofs {
  import opened Options
  import opened Times
  import opened RetrySchedule
  import opened Tables
  import opened DeliveryRows
  import opened Transitions
  import opened Invariants

  /** For this session, nothing changed but rows that may have left the queue. */
  ghost predicate SessionUntouched(s: State, t: State, sid: SessionId) {
    && sid in s.sessions && sid in t.sessions
    && t.sessions[sid] == s.sessions[sid]
    && (forall k :: Owns(t, sid, k) <==> Owns(s, sid, k))
    && (forall k :: IsHead(t, sid, k) <==> IsHead(s, sid, k))
    && (forall k :: IsQueued(t, sid, k) ==> IsQueued(s, sid, k))
    && (forall k :: Owns(s, sid, k) ==> AcceptedAt(t, k) == AcceptedAt(s, k))
  }

  lemma SessionFrame(s: State, t: State, sid: SessionId)
    requires SessionUntouched(s, t, sid)
    requires SessionOk(s, sid)
    ensures SessionOk(t, sid)
  {
    var h :| IsHead(s, sid, h);
    assert IsHead(t, sid, h);
    assert Owned(t, sid) == Owned(s, sid);
  }

  /** A finite, non-empty queue has a first row in acceptance order. */
  lemma NextHeadExists(s: State, sid: SessionId, k: RowKey)
    requires IsQueued(s, sid, k)
    ensures exists h :: IsNextHead(s, sid, h)
  {
    var queue := set q | q in s.deliveries && IsQueued(s, sid, q);
    assert k in queue;
    var first := FirstOf(s, queue);
    assert IsNextHead(s, sid, first);
  }

  lemma FirstOf(s: State, queue: set<RowKey>) returns (first: RowKey)
    requires queue != {}
    ensures first in queue && forall q | q in queue :: !Before(s, q, first)
    decreases |queue|
  {
    first :| first in queue;
    var rest := queue - {first};
    if rest != {} {
      var other := FirstOf(s, rest);
      var candidate := first;
      if Before(s, other, first) {
        first := other;
      }
      forall q | q in queue ensures !Before(s, q, first) {
        assert q == candidate || q in rest;
      }
    }
  }

  /** A session that lost its head gets the earliest queued row as its only head, or completes. */
  lemma AdvanceGivesHead(s: State, sid: SessionId, cfg: Settings, now: Time)
    requires sid in s.sessions && s.sessions[sid].state.Active?
    requires forall k :: !IsHead(s, sid, k)
    requires s.sessions[sid].messagesTotal == |Owned(s, sid)|
    ensures var t := AdvanceSession(s, sid, cfg, now);
      && sid in t.sessions
      && (t.sessions[sid].state.Active? ==> SessionOk(t, sid))
      && (t.sessions[sid].state.Active? <==> exists k :: IsQueued(s, sid, k))
      && (!t.sessions[sid].state.Active? ==> forall k :: !IsHead(t, sid, k) && !IsQueued(t, sid, k))
  {
    var t := AdvanceSession(s, sid, cfg, now);
    if k :| IsQueued(s, sid, k) {
      NextHeadExists(s, sid, k);
      var h := NextHead(s, sid).value;
      assert IsHead(t, sid, h);
      forall q | IsHead(t, sid, q) ensures q == h {
        assert !IsHead(s, sid, q);
      }
      assert forall q :: IsQueued(t, sid, q) ==> IsQueued(s, sid, q);
      assert forall q :: Owns(t, sid, q) <==> Owns(s, sid, q);
      assert Owned(t, sid) == Owned(s, sid);
      assert forall q :: AcceptedAt(t, q) == AcceptedAt(s, q);
    } else {
      assert NextHead(s, sid).None?;
      assert forall q :: IsHead(t, sid, q) <==> IsHead(s, sid, q);
      assert forall q :: IsQueued(t, sid, q) <==> IsQueued(s, sid, q);
    }
  }

  /** Advancing one session leaves every other session's rows alone. */
  lemma AdvanceLeavesOthers(s: State, sid: SessionId, other: SessionId, cfg: Settings, now: Time)
    requires other != sid && other in s.sessions
    ensures SessionUntouched(s, AdvanceSession(s, sid, cfg, now), other)
  {
    var t := AdvanceSession(s, sid, cfg, now);
    var n := NextHead(s, sid);
    if n.Some? {
      assert IsQueued(s, sid, n.value);
      assert forall k | k != n.value :: k in t.deliveries <==> k in s.deliveries;
    }
  }

  /** Head and queue of every other session stay. */
  lemma AdvanceKeepsPlaces(s: State, sid: SessionId, other: SessionId, cfg: Settings, now: Time, k: RowKey)
    requires other != sid
    ensures var t := AdvanceSession(s, sid, cfg, now);
      (IsHead(t, other, k) <==> IsHead(s, other, k)) && (IsQueued(t, other, k) <==> IsQueued(s, other, k))
  {
    var n := NextHead(s, sid);
    assert n.Some? ==> IsQueued(s, sid, n.value);
  }

  /** Every active session keeps its users, its record and its rows. */
  lemma SessionsFrame(s: State, t: State)
    requires SessionsOk(s)
    requires t.sessions == s.sessions && t.nextSessionId == s.nextSessionId
    requires forall sid | sid in s.sessions && s.sessions[sid].state.Active? :: SessionUntouched(s, t, sid)
    requires forall d | d in s.devices ::
      d in t.devices && (s.devices[d].user.Some? ==> t.devices[d].user == s.devices[d].user)
    ensures SessionsOk(t)
  {
    forall sid | sid in t.sessions && t.sessions[sid].state.Active? ensures SessionOk(t, sid) {
      assert SessionUntouched(s, t, sid);
      SessionFrame(s, t, sid);
    }
    forall sid | sid in t.sessions ensures SessionLinksOk(t, sid) {
      assert SessionLinksOk(s, sid);
    }
  }

  /** A row that keeps its state and owner changes nothing for any session. */
  lemma RowUpdateKeepsSessions(s: State, k: RowKey, d: Delivery)
    requires SessionsOk(s) && k in s.deliveries
    requires d.state == s.deliveries[k].state && d.session == s.deliveries[k].session
    ensures SessionsOk(UpdateDelivery(s, k, d))
  {
    var t := UpdateDelivery(s, k, d);
    forall sid | sid in s.sessions && s.sessions[sid].state.Active? ensures SessionUntouched(s, t, sid) {
    }
    SessionsFrame(s, t);
  }

  lemma OffHeadLeavesSession(s: State, k: RowKey, received: Option<set<nat>>, sid: SessionId)
    requires RowsOk(s) && k in s.deliveries && s.deliveries[k].Live() && sid in s.sessions
    requires s.sessions[sid].state.Active?
    requires s.deliveries[k].state.Pending? ==> HeadSession(s, s.deliveries[k]).None?
    ensures SessionUntouched(s, UpdateDelivery(s, k, MarkDelivered(s.deliveries[k], received)), sid)
  {
    assert RowLinksOk(s, k);
  }

  /** A queued, failed or unowned row may be delivered without touching a head. */
  lemma DeliverOffHeadKeepsSessions(s: State, k: RowKey, received: Option<set<nat>>)
    requires SessionsOk(s) && RowsOk(s) && k in s.deliveries && s.deliveries[k].Live()
    requires s.deliveries[k].state.Pending? ==> HeadSession(s, s.deliveries[k]).None?
    ensures SessionsOk(UpdateDelivery(s, k, MarkDelivered(s.deliveries[k], received)))
  {
    var t := UpdateDelivery(s, k, MarkDelivered(s.deliveries[k], received));
    forall sid | sid in s.sessions && s.sessions[sid].state.Active? ensures SessionUntouched(s, t, sid) {
      OffHeadLeavesSession(s, k, received, sid);
    }
    SessionsFrame(s, t);
  }

  lemma SameRecords(s: State, t: State)
    requires SingleSessions(s) && (forall x | x in s.sessions :: SessionLinksOk(s, x))
    requires t.sessions == s.sessions && t.devices == s.devices && t.nextSessionId == s.nextSessionId
    ensures SingleSessions(t) && (forall x | x in t.sessions :: SessionLinksOk(t, x))
  {
    forall x | x in t.sessions ensures SessionLinksOk(t, x) {
      assert SessionLinksOk(s, x);
    }
  }

  lemma EndedSessionKeepsRecords(s: State, sid: SessionId, st: SessionState)
    requires SingleSessions(s) && (forall x | x in s.sessions :: SessionLinksOk(s, x)) && !st.Active?
    ensures var t := SetSessionState(s, sid, st);
      && SingleSessions(t) && (forall x | x in t.sessions :: SessionLinksOk(t, x))
      && (forall x | x in t.sessions && t.sessions[x].state.Active? :: x in s.sessions && s.sessions[x].state.Active?)
  {
    var t := SetSessionState(s, sid, st);
    forall x | x in t.sessions ensures SessionLinksOk(t, x) {
      assert SessionLinksOk(s, x);
    }
  }

  /** Advancing a session keeps every session record but the state of the one that completes. */
  lemma AdvanceKeepsRecords(s: State, sid: SessionId, cfg: Settings, now: Time)
    requires SingleSessions(s) && (forall x | x in s.sessions :: SessionLinksOk(s, x))
    ensures var t := AdvanceSession(s, sid, cfg, now);
      && SingleSessions(t) && (forall x | x in t.sessions :: SessionLinksOk(t, x))
      && (forall x | x in t.sessions && t.sessions[x].state.Active? :: x in s.sessions && s.sessions[x].state.Active?)
  {
    if NextHead(s, sid).None? {
      EndedSessionKeepsRecords(s, sid, Completed);
    } else {
      SameRecords(s, AdvanceSession(s, sid, cfg, now));
    }
  }

  /** Updating a row that keeps its owner leaves every other session alone. */
  lemma RowUpdateLeavesOthers(s: State, k: RowKey, d: Delivery, other: SessionId)
    requires k in s.deliveries && d.session == s.deliveries[k].session && d.session != Some(other)
    requires other in s.sessions
    ensures SessionUntouched(s, UpdateDelivery(s, k, d), other)
  {
  }

  /** A delivered head leaves its session without a head, still owning the same rows. */
  lemma HeadDelivered(s: State, k: RowKey, sid: SessionId, received: Option<set<nat>>)
    requires sid in s.sessions && SessionOk(s, sid) && IsHead(s, sid, k)
    ensures var s1 := UpdateDelivery(s, k, MarkDelivered(s.deliveries[k], received));
      && (forall q :: !IsHead(s1, sid, q))
      && s1.sessions[sid].messagesTotal == |Owned(s1, sid)|
  {
    var s1 := UpdateDelivery(s, k, MarkDelivered(s.deliveries[k], received));
    assert Owned(s1, sid) == Owned(s, sid) by {
      assert forall q :: Owns(s1, sid, q) <==> Owns(s, sid, q);
    }
    forall q ensures !IsHead(s1, sid, q) {
      assert q != k ==> (IsHead(s1, sid, q) <==> IsHead(s, sid, q));
    }
  }

  /** When the head is delivered, every session is still in order. */
  lemma DeliverHeadKeepsSessions(s: State, k: RowKey, sid: SessionId, received: Option<set<nat>>, cfg: Settings,
                                 now: Time)
    requires SessionsOk(s) && RowsOk(s) && IsHead(s, sid, k)
    ensures SessionsOk(AdvanceSession(UpdateDelivery(s, k, MarkDelivered(s.deliveries[k], received)), sid, cfg, now))
  {
    var s1 := UpdateDelivery(s, k, MarkDelivered(s.deliveries[k], received));
    assert RowLinksOk(s, k);
    HeadDelivered(s, k, sid, received);
    assert forall x | x in s1.sessions :: SessionLinksOk(s, x) ==> SessionLinksOk(s1, x);
    AdvanceGivesHead(s1, sid, cfg, now);
    AdvanceKeepsRecords(s1, sid, cfg, now);
    var t := AdvanceSession(s1, sid, cfg, now);
    forall other | other in t.sessions && t.sessions[other].state.Active? ensures SessionOk(t, other) {
      if other != sid {
        RowUpdateLeavesOthers(s, k, s1.deliveries[k], other);
        SessionFrame(s, s1, other);
        AdvanceLeavesOthers(s1, sid, other, cfg, now);
        SessionFrame(s1, t, other);
      }
    }
  }

  lemma DeliverKeepsSessions(s: State, k: RowKey, received: Option<set<nat>>, cfg: Settings, now: Time)
    requires SessionsOk(s) && RowsOk(s) && k in s.deliveries && s.deliveries[k].Live()
    ensures SessionsOk(Deliver(s, k, received, cfg, now))
  {
    var d := s.deliveries[k];
    var head := if d.state.Pending? then HeadSession(s, d) else None;
    if head.None? {
      DeliverOffHeadKeepsSessions(s, k, received);
    } else {
      DeliverHeadKeepsSessions(s, k, head.value, received, cfg, now);
    }
  }

  /** Confirming a message changes no acceptance time, so no session. */
  lemma ConfirmKeepsSessions(s: State, key: MessageKey, isRead: bool, cfg: Settings, now: Time)
    requires SessionsOk(s) && key in s.messages
    ensures SessionsOk(ConfirmMessage(s, key, isRead, cfg, now))
  {
    var t := ConfirmMessage(s, key, isRead, cfg, now);
    forall sid | sid in s.sessions && s.sessions[sid].state.Active? ensures SessionUntouched(s, t, sid) {
      forall k ensures AcceptedAt(t, k) == AcceptedAt(s, k) {
      }
    }
    SessionsFrame(s, t);
  }

  /** Failing a row of no active session changes nothing for any session. */
  lemma FailUnownedKeepsSessions(s: State, k: RowKey)
    requires SessionsOk(s) && RowsOk(s) && k in s.deliveries && s.deliveries[k].state.Pending?
    requires HeadSession(s, s.deliveries[k]).None?
    ensures SessionsOk(UpdateDelivery(s, k, FailExhausted(s.deliveries[k])))
  {
    assert RowLinksOk(s, k);
    var t := UpdateDelivery(s, k, FailExhausted(s.deliveries[k]));
    forall sid | sid in s.sessions && s.sessions[sid].state.Active? ensures SessionUntouched(s, t, sid) {
    }
    SessionsFrame(s, t);
  }

  lemma StopLeavesOthers(s: State, k: RowKey, sid: SessionId, other: SessionId)
    requires IsHead(s, sid, k) && other in s.sessions && other != sid
    ensures SessionUntouched(s, StopSession(UpdateDelivery(s, k, FailExhausted(s.deliveries[k])), sid), other)
  {
    var s1 := UpdateDelivery(s, k, FailExhausted(s.deliveries[k]));
    var t := StopSession(s1, sid);
    forall q | Owns(s, other, q) || Owns(t, other, q) ensures t.deliveries[q] == s.deliveries[q] {
    }
    assert forall q :: AcceptedAt(t, q) == AcceptedAt(s, q);
  }

  /** A given-up head stops its session; no other session notices. */
  lemma FailKeepsSessions(s: State, k: RowKey)
    requires SessionsOk(s) && RowsOk(s) && k in s.deliveries && s.deliveries[k].state.Pending?
    ensures SessionsOk(FailExhaustedDelivery(s, k))
  {
    assert RowLinksOk(s, k);
    var head := HeadSession(s, s.deliveries[k]);
    if head.None? {
      FailUnownedKeepsSessions(s, k);
    } else {
      var t := FailExhaustedDelivery(s, k);
      forall other | other in t.sessions && t.sessions[other].state.Active? ensures SessionOk(t, other) {
        StopLeavesOthers(s, k, head.value, other);
        SessionFrame(s, t, other);
      }
      forall x | x in t.sessions ensures SessionLinksOk(t, x) {
        assert SessionLinksOk(s, x);
      }
    }
  }

  lemma RelinkLeavesOthers(s: State, device: DeviceId, user: UserId, other: SessionId)
    requires RowsOk(s) && device in s.devices && other in s.sessions && s.sessions[other].device != device
    ensures SessionUntouched(s, RelinkDevice(s, device, user), other)
  {
    var t := RelinkDevice(s, device, user);
    forall k ensures (Owns(t, other, k) <==> Owns(s, other, k))
      && (Owns(s, other, k) ==> t.deliveries[k] == s.deliveries[k]) {
      if k in s.deliveries && s.deliveries[k].session == Some(other) {
        assert RowLinksOk(s, k);
      }
    }
  }

  lemma RelinkKeepsRecords(s: State, device: DeviceId, user: UserId)
    requires SingleSessions(s) && (forall x | x in s.sessions :: SessionLinksOk(s, x)) && device in s.devices
    ensures var t := RelinkDevice(s, device, user);
      SingleSessions(t) && forall x | x in t.sessions :: SessionLinksOk(t, x)
  {
    var t := RelinkDevice(s, device, user);
    forall x | x in t.sessions ensures SessionLinksOk(t, x) {
      assert SessionLinksOk(s, x);
    }
  }

  /** A relink ends the device's sessions; sessions of other devices own none of its rows. */
  lemma RelinkKeepsSessions(s: State, device: DeviceId, user: UserId)
    requires SessionsOk(s) && RowsOk(s) && device in s.devices
    ensures SessionsOk(RelinkDevice(s, device, user))
  {
    var t := RelinkDevice(s, device, user);
    RelinkKeepsRecords(s, device, user);
    forall other | other in t.sessions && t.sessions[other].state.Active? ensures SessionOk(t, other) {
      RelinkLeavesOthers(s, device, user, other);
      SessionFrame(s, t, other);
    }
  }

  /** Fan-out makes one row per device of the recipient and keeps every other row. */
  lemma FanOutRowAt(s: State, key: MessageKey, recipient: UserId, cfg: Settings, now: Time, k: RowKey)
    ensures var rows := FanOut(s, key, recipient, cfg, now).deliveries;
      var isNew := k.message == key && k.device in DevicesOf(s, recipient);
      && (k in rows <==> k in s.deliveries || isNew)
      && (k in rows ==> rows[k] == if isNew then FanOutRow(s, key, k.device, cfg, now) else s.deliveries[k])
  {
    var added := set d | d in DevicesOf(s, recipient) :: RowKey(key, d);
    if k.message == key && k.device in DevicesOf(s, recipient) {
      assert k == RowKey(key, k.device) && k in added;
    }
  }

  lemma FanOutOwner(s: State, key: MessageKey, recipient: UserId, cfg: Settings, now: Time, sid: SessionId, k: RowKey)
    requires SingleSessions(s) && sid in s.sessions && s.sessions[sid].state.Active?
    requires s.sessions[sid].peer == key.sender && s.sessions[sid].device in DevicesOf(s, recipient)
    requires forall q | q in s.deliveries :: q.message != key
    ensures var t := FanOut(s, key, recipient, cfg, now);
      var added := RowKey(key, s.sessions[sid].device);
      && added in t.deliveries && t.deliveries[added] == NewQueued(sid, cfg)
      && (Owns(t, sid, k) <==> Owns(s, sid, k) || k == added)
      && (k != added ==> (IsHead(t, sid, k) <==> IsHead(s, sid, k)) && (IsQueued(t, sid, k) <==> IsQueued(s, sid, k)))
  {
    var added := RowKey(key, s.sessions[sid].device);
    FanOutRowAt(s, key, recipient, cfg, now, added);
    FanOutRowAt(s, key, recipient, cfg, now, k);
    assert IsActiveSession(s, sid, added.device, key.sender);
    assert ActiveSession(s, added.device, key.sender) == Some(sid);
    var a := ActiveSession(s, k.device, key.sender);
    assert a.Some? ==> IsActiveSession(s, a.value, k.device, key.sender);
  }

  lemma FanOutOwned(s: State, key: MessageKey, recipient: UserId, cfg: Settings, now: Time, sid: SessionId)
    requires SingleSessions(s) && sid in s.sessions && s.sessions[sid].state.Active?
    requires s.sessions[sid].peer == key.sender && s.sessions[sid].device in DevicesOf(s, recipient)
    requires forall k | k in s.deliveries :: k.message != key
    ensures var t := FanOut(s, key, recipient, cfg, now);
      var added := RowKey(key, s.sessions[sid].device);
      Owned(t, sid) == Owned(s, sid) + {added} && added !in Owned(s, sid)
  {
    var t := FanOut(s, key, recipient, cfg, now);
    forall k ensures k in Owned(t, sid) <==> k in Owned(s, sid) + {RowKey(key, s.sessions[sid].device)} {
      FanOutOwner(s, key, recipient, cfg, now, sid, k);
    }
  }

  lemma FanOutTimes(s: State, key: MessageKey, recipient: UserId, cfg: Settings, now: Time, k: RowKey)
    ensures AcceptedAt(FanOut(s, key, recipient, cfg, now), k) == AcceptedAt(s, k)
  {
  }

  /** Head and queue of a session fan-out appends to. */
  lemma FanOutQueue(s: State, key: MessageKey, recipient: UserId, cfg: Settings, now: Time, sid: SessionId)
    requires SingleSessions(s) && sid in s.sessions && s.sessions[sid].state.Active?
    requires forall k | k in s.deliveries :: k.message != key
    requires s.sessions[sid].peer == key.sender && s.sessions[sid].device in DevicesOf(s, recipient)
    ensures var t := FanOut(s, key, recipient, cfg, now);
      var added := RowKey(key, s.sessions[sid].device);
      && (forall h :: IsHead(t, sid, h) <==> IsHead(s, sid, h))
      && (forall q :: IsQueued(t, sid, q) <==> IsQueued(s, sid, q) || q == added)
  {
    var t := FanOut(s, key, recipient, cfg, now);
    var added := RowKey(key, s.sessions[sid].device);
    forall k ensures (IsHead(t, sid, k) <==> IsHead(s, sid, k))
      && (IsQueued(t, sid, k) <==> IsQueued(s, sid, k) || k == added) {
      FanOutOwner(s, key, recipient, cfg, now, sid, k);
    }
  }

  lemma FanOutCounts(s: State, key: MessageKey, recipient: UserId, cfg: Settings, now: Time, sid: SessionId)
    requires sid in s.sessions && s.sessions[sid].state.Active?
    requires s.sessions[sid].peer == key.sender && s.sessions[sid].device in DevicesOf(s, recipient)
    ensures var t := FanOut(s, key, recipient, cfg, now);
      sid in t.sessions && t.sessions[sid].messagesTotal == s.sessions[sid].messagesTotal + 1
  {
  }

  /** A session refreshing this conversation keeps its head and gains exactly one row, the new one, behind it. */
  lemma FanOutAppends(s: State, key: MessageKey, recipient: UserId, cfg: Settings, now: Time, sid: SessionId)
    requires SingleSessions(s) && sid in s.sessions && s.sessions[sid].state.Active? && SessionOk(s, sid)
    requires forall k | k in s.deliveries :: k.message != key && AcceptedAt(s, k) <= now
    requires key in s.messages && s.messages[key].acceptedAt == Some(now)
    requires s.sessions[sid].peer == key.sender && s.sessions[sid].device in DevicesOf(s, recipient)
    ensures var t := FanOut(s, key, recipient, cfg, now);
      var added := RowKey(key, s.sessions[sid].device);
      && SessionOk(t, sid)
      && IsQueued(t, sid, added) && added !in Owned(s, sid) && Owned(t, sid) == Owned(s, sid) + {added}
      && t.sessions[sid].messagesTotal == s.sessions[sid].messagesTotal + 1
      && (forall h :: IsHead(t, sid, h) <==> IsHead(s, sid, h))
      && (forall q :: IsQueued(t, sid, q) <==> IsQueued(s, sid, q) || q == added)
  {
    var t := FanOut(s, key, recipient, cfg, now);
    var added := RowKey(key, s.sessions[sid].device);
    FanOutOwned(s, key, recipient, cfg, now, sid);
    FanOutQueue(s, key, recipient, cfg, now, sid);
    FanOutCounts(s, key, recipient, cfg, now, sid);
    forall k ensures AcceptedAt(t, k) == AcceptedAt(s, k) {
      FanOutTimes(s, key, recipient, cfg, now, k);
    }
    assert AcceptedAt(t, added) == now;
    var h :| IsHead(s, sid, h);
    assert IsHead(t, sid, h);
  }

  /** A session of another conversation or device gains nothing. */
  lemma FanOutLeavesOthers(s: State, key: MessageKey, recipient: UserId, cfg: Settings, now: Time, sid: SessionId)
    requires sid in s.sessions
    requires forall k | k in s.deliveries :: k.message != key
    requires !(s.sessions[sid].state.Active? && s.sessions[sid].peer == key.sender
      && s.sessions[sid].device in DevicesOf(s, recipient))
    ensures SessionUntouched(s, FanOut(s, key, recipient, cfg, now), sid)
  {
    var t := FanOut(s, key, recipient, cfg, now);
    forall k ensures
      && (Owns(t, sid, k) <==> Owns(s, sid, k))
      && (Owns(s, sid, k) ==> t.deliveries[k] == s.deliveries[k])
    {
      FanOutRowAt(s, key, recipient, cfg, now, k);
      var a := ActiveSession(s, k.device, key.sender);
      assert a.Some? ==> IsActiveSession(s, a.value, k.device, key.sender);
    }
    assert forall k :: AcceptedAt(t, k) == AcceptedAt(s, k);
  }

  lemma FanOutKeepsRecords(s: State, key: MessageKey, recipient: UserId, cfg: Settings, now: Time)
    requires SingleSessions(s) && (forall x | x in s.sessions :: SessionLinksOk(s, x))
    ensures var t := FanOut(s, key, recipient, cfg, now);
      SingleSessions(t) && forall x | x in t.sessions :: SessionLinksOk(t, x)
  {
    var t := FanOut(s, key, recipient, cfg, now);
    forall x | x in t.sessions ensures SessionLinksOk(t, x) {
      assert SessionLinksOk(s, x);
    }
  }

  lemma FanOutKeepsSession(s: State, key: MessageKey, recipient: UserId, cfg: Settings, now: Time, sid: SessionId)
    requires SingleSessions(s) && sid in s.sessions && s.sessions[sid].state.Active? && SessionOk(s, sid)
    requires forall k | k in s.deliveries :: k.message != key && AcceptedAt(s, k) <= now
    requires key in s.messages && s.messages[key].acceptedAt == Some(now)
    ensures sid in FanOut(s, key, recipient, cfg, now).sessions && SessionOk(FanOut(s, key, recipient, cfg, now), sid)
  {
    if s.sessions[sid].peer == key.sender && s.sessions[sid].device in DevicesOf(s, recipient) {
      FanOutAppends(s, key, recipient, cfg, now, sid);
    } else {
      FanOutLeavesOthers(s, key, recipient, cfg, now, sid);
      SessionFrame(s, FanOut(s, key, recipient, cfg, now), sid);
    }
  }

  lemma FanOutKeepsSessions(s: State, key: MessageKey, recipient: UserId, cfg: Settings, now: Time)
    requires SessionsOk(s)
    requires forall k | k in s.deliveries :: k.message != key && AcceptedAt(s, k) <= now
    requires key in s.messages && s.messages[key].acceptedAt == Some(now)
    ensures SessionsOk(FanOut(s, key, recipient, cfg, now))
  {
    var t := FanOut(s, key, recipient, cfg, now);
    FanOutKeepsRecords(s, key, recipient, cfg, now);
    forall sid | sid in t.sessions && t.sessions[sid].state.Active? ensures SessionOk(t, sid) {
      assert sid in s.sessions && s.sessions[sid].state.Active?;
      FanOutKeepsSession(s, key, recipient, cfg, now, sid);
    }
  }

  /** Changing an incomplete message touches no owned row. */
  lemma IncompleteMessageKeepsSessions(s: State, key: MessageKey, m: Message, nextId: nat)
    requires SessionsOk(s) && RowsOk(s)
    requires key in s.messages ==> s.messages[key].acceptedAt.None? || s.messages[key].acceptedAt == m.acceptedAt
    ensures SessionsOk(s.(messages := s.messages[key := m], nextMessageId := nextId))
  {
    var t := s.(messages := s.messages[key := m], nextMessageId := nextId);
    forall sid | sid in s.sessions && s.sessions[sid].state.Active? ensures SessionUntouched(s, t, sid) {
      forall k | Owns(s, sid, k) ensures AcceptedAt(t, k) == AcceptedAt(s, k) {
        assert RowLinksOk(s, k);
      }
    }
    SessionsFrame(s, t);
  }

  /** What a new session may take: rows no active session owns, and rows that do not exist yet. */
  ghost predicate IsScope(s: State, device: DeviceId, user: UserId, peer: UserId, taken: set<RowKey>,
                          missed: set<RowKey>) {
    && taken <= s.deliveries.Keys
    && missed !! s.deliveries.Keys
    && (forall k | k in taken + missed :: 
          && k.device == device && k.message.sender == peer && k.message in s.messages
          && s.messages[k.message].recipient == user && s.messages[k.message].acceptedAt.Some?)
    && (forall k | k in taken ::
          s.deliveries[k].state.Failed? || s.deliveries[k].state.Cancelled?
            || (s.deliveries[k].state.Pending? && s.deliveries[k].session.None?))
  }

  lemma QueriesGiveScope(s: State, device: DeviceId, user: UserId, peer: UserId)
    ensures IsScope(s, device, user, peer, TakenKeys(s, device, user, peer), MissedKeys(s, device, user, peer))
  {
  }

  /** Nobody owns a row through a session id that was not used yet. */
  lemma FreshSessionOwnsNothing(s: State, k: RowKey)
    requires RowsOk(s) && SessionsOk(s)
    ensures !Owns(s, s.nextSessionId, k)
  {
    if k in s.deliveries {
      assert RowLinksOk(s, k);
      assert s.deliveries[k].session.Some? ==> SessionLinksOk(s, s.deliveries[k].session.value);
    }
  }

  /** The scope is queued behind the new session; every other row is kept. */
  lemma OpenRowAt(s: State, device: DeviceId, user: UserId, peer: UserId, taken: set<RowKey>, missed: set<RowKey>,
                  cfg: Settings, k: RowKey)
    requires IsScope(s, device, user, peer, taken, missed)
    ensures var t := OpenScope(s, device, peer, taken, missed, cfg);
      && (k in t.deliveries <==> k in s.deliveries || k in missed)
      && (k in taken + missed ==> IsQueued(t, s.nextSessionId, k))
      && (k in s.deliveries && k !in taken ==> t.deliveries[k] == s.deliveries[k])
  {
  }

  lemma OpenedSessionOwns(s: State, device: DeviceId, user: UserId, peer: UserId, taken: set<RowKey>,
                          missed: set<RowKey>, cfg: Settings, k: RowKey)
    requires IsScope(s, device, user, peer, taken, missed) && !Owns(s, s.nextSessionId, k)
    ensures var t := OpenScope(s, device, peer, taken, missed, cfg);
      && (Owns(t, s.nextSessionId, k) <==> k in taken + missed)
      && (Owns(t, s.nextSessionId, k) ==> IsQueued(t, s.nextSessionId, k))
  {
    OpenRowAt(s, device, user, peer, taken, missed, cfg, k);
  }

  lemma OwnedIs(t: State, sid: SessionId, scope: set<RowKey>)
    requires forall k :: Owns(t, sid, k) <==> k in scope
    ensures Owned(t, sid) == scope
  {
  }

  /** A new session owns exactly its scope, all of it queued. */
  lemma OpenedSessionOwnsScope(s: State, device: DeviceId, user: UserId, peer: UserId, taken: set<RowKey>,
                               missed: set<RowKey>, cfg: Settings)
    requires IsScope(s, device, user, peer, taken, missed)
    requires forall k :: !Owns(s, s.nextSessionId, k)
    ensures var t := OpenScope(s, device, peer, taken, missed, cfg);
      var sid := s.nextSessionId;
      && Owned(t, sid) == taken + missed
      && t.sessions[sid].messagesTotal == |Owned(t, sid)|
      && (forall k :: !IsHead(t, sid, k))
      && (forall k | k in Owned(t, sid) :: IsQueued(t, sid, k))
  {
    var t := OpenScope(s, device, peer, taken, missed, cfg);
    var sid := s.nextSessionId;
    forall k ensures (Owns(t, sid, k) <==> k in taken + missed) && (Owns(t, sid, k) ==> IsQueued(t, sid, k)) {
      OpenedSessionOwns(s, device, user, peer, taken, missed, cfg, k);
    }
    OwnedIs(t, sid, taken + missed);
    assert |taken + missed| == |taken| + |missed|;
  }

  /** Nothing an active session owns is in the scope of a new one. */
  lemma OpenKeepsOwned(s: State, device: DeviceId, user: UserId, peer: UserId, taken: set<RowKey>,
                       missed: set<RowKey>, cfg: Settings, other: SessionId, k: RowKey)
    requires RowsOk(s) && IsScope(s, device, user, peer, taken, missed)
    requires other in s.sessions && s.sessions[other].state.Active? && other < s.nextSessionId
    ensures var t := OpenScope(s, device, peer, taken, missed, cfg);
      && (Owns(t, other, k) <==> Owns(s, other, k))
      && (Owns(s, other, k) ==> t.deliveries[k] == s.deliveries[k])
  {
    OpenRowAt(s, device, user, peer, taken, missed, cfg, k);
    if Owns(s, other, k) {
      assert RowLinksOk(s, k);
    }
  }

  lemma OpenLeavesOthers(s: State, device: DeviceId, user: UserId, peer: UserId, taken: set<RowKey>,
                         missed: set<RowKey>, cfg: Settings, other: SessionId)
    requires RowsOk(s) && IsScope(s, device, user, peer, taken, missed)
    requires other in s.sessions && s.sessions[other].state.Active? && other < s.nextSessionId
    ensures SessionUntouched(s, OpenScope(s, device, peer, taken, missed, cfg), other)
  {
    var t := OpenScope(s, device, peer, taken, missed, cfg);
    forall k ensures
      && (Owns(t, other, k) <==> Owns(s, other, k))
      && (Owns(s, other, k) ==> t.deliveries[k] == s.deliveries[k])
    {
      OpenKeepsOwned(s, device, user, peer, taken, missed, cfg, other, k);
    }
    assert t.messages == s.messages;
  }

  lemma OpenKeepsRecords(s: State, device: DeviceId, user: UserId, peer: UserId, taken: set<RowKey>,
                         missed: set<RowKey>, cfg: Settings)
    requires SingleSessions(s) && (forall x | x in s.sessions :: SessionLinksOk(s, x))
    requires SignedInUser(s, device) == Some(user) && user != peer
    requires forall x :: !IsActiveSession(s, x, device, peer)
    ensures var t := OpenScope(s, device, peer, taken, missed, cfg);
      SingleSessions(t) && forall x | x in t.sessions :: SessionLinksOk(t, x)
  {
    var t := OpenScope(s, device, peer, taken, missed, cfg);
    forall x | x in t.sessions ensures SessionLinksOk(t, x) {
      assert x != s.nextSessionId ==> SessionLinksOk(s, x);
    }
    forall a, b | a in t.sessions && b in t.sessions && t.sessions[a].state.Active? && t.sessions[b].state.Active?
      && t.sessions[a].device == t.sessions[b].device && t.sessions[a].peer == t.sessions[b].peer
      ensures a == b
    {
      assert !IsActiveSession(s, a, device, peer) && !IsActiveSession(s, b, device, peer);
    }
  }

  lemma OpenKeepsSessions(s: State, device: DeviceId, user: UserId, peer: UserId, taken: set<RowKey>,
                          missed: set<RowKey>, cfg: Settings, now: Time)
    requires RowsOk(s) && SessionsOk(s) && IsScope(s, device, user, peer, taken, missed)
    requires SignedInUser(s, device) == Some(user) && user != peer
    requires forall x :: !IsActiveSession(s, x, device, peer)
    requires |taken| + |missed| > 0
    ensures var t := AdvanceSession(OpenScope(s, device, peer, taken, missed, cfg), s.nextSessionId, cfg, now);
      SessionsOk(t) && t.sessions[s.nextSessionId].state.Active?
  {
    var sid := s.nextSessionId;
    var s1 := OpenScope(s, device, peer, taken, missed, cfg);
    forall k ensures !Owns(s, sid, k) {
      FreshSessionOwnsNothing(s, k);
    }
    OpenedSessionOwnsScope(s, device, user, peer, taken, missed, cfg);
    var k :| k in Owned(s1, sid);
    assert IsQueued(s1, sid, k);
    OpenKeepsRecords(s, device, user, peer, taken, missed, cfg);
    AdvanceGivesHead(s1, sid, cfg, now);
    AdvanceKeepsRecords(s1, sid, cfg, now);
    var t := AdvanceSession(s1, sid, cfg, now);
    forall other | other in t.sessions && t.sessions[other].state.Active? ensures SessionOk(t, other) {
      if other != sid {
        assert SessionLinksOk(s, other);
        OpenLeavesOthers(s, device, user, peer, taken, missed, cfg, other);
        SessionFrame(s, s1, other);
        AdvanceLeavesOthers(s1, sid, other, cfg, now);
        SessionFrame(s1, t, other);
      }
    }
  }
}
