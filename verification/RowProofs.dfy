/** Every step keeps each delivery row consistent with its message, its device, its session and its own counters. */
module RowProofs {
  import opened Options
  import opened Times
  import opened RetrySchedule
  import opened Tables
  import opened DeliveryRows
  import opened Transitions
  import opened Invariants
  import opened SessionProofs

  // ----- one row --------------------------------------------------------------------------------

  lemma NewRowCounters(sid: SessionId, parts: set<nat>, cfg: Settings, now: Time)
    requires cfg.Valid() && parts != {}
    ensures RowCountersOk(NewPending(cfg, now), parts) && RowCountersOk(NewQueued(sid, cfg), parts)
  {
  }

  /** A started round always has a part to send: the received set is never complete. */
  lemma StartRoundCounters(d: Delivery, parts: set<nat>, now: Time)
    requires RowCountersOk(d, parts) && d.state.Pending? && d.attemptCount < d.maximumAttempts
    ensures var e := StartRound(d, parts, now);
      RowCountersOk(e, parts) && PartsLeft(e) != {} && PartsLeft(e) == parts - d.receivedParts
  {
    var e := StartRound(d, parts, now);
    var missing :| missing in parts && missing !in d.receivedParts;
    assert missing in PartsLeft(e);
  }

  lemma PartSentCounters(d: Delivery, parts: set<nat>, part: nat, suggestion: Option<nat>, cfg: Settings, now: Time)
    requires RowCountersOk(d, parts) && d.state.Pending?
    ensures RowCountersOk(PartSent(d, part, suggestion, cfg, now), parts)
  {
  }

  lemma IncompleteStatusCounters(d: Delivery, parts: set<nat>, received: set<nat>, suggestion: Option<nat>,
                                 cfg: Settings, now: Time)
    requires RowCountersOk(d, parts) && d.Live() && received < parts
    ensures var e := IncompleteStatus(d, received, suggestion, cfg, now);
      RowCountersOk(e, parts) && e.state == d.state && e.session == d.session && e.receivedParts == received
  {
  }

  /** Once nothing of a round is left, the parts a status still misses are due within the short delay. */
  lemma MissingPartsSoon(d: Delivery, received: set<nat>, suggestion: Option<nat>, cfg: Settings, now: Time)
    requires d.state.Pending? && d.attemptCount < d.maximumAttempts && d.roundParts - received == {}
    ensures var e := IncompleteStatus(d, received, suggestion, cfg, now);
      && e.state.Pending? && e.receivedParts == received && e.roundParts == {}
      && e.nextAttemptAt.Some? && e.nextAttemptAt.value <= now + cfg.missingPartsDelay
      && e.attemptCount == d.attemptCount
  {
  }

  lemma TakeCounters(d: Delivery, parts: set<nat>, sid: SessionId)
    requires RowCountersOk(d, parts) && parts != {}
    requires d.state.Failed? || d.state.Cancelled? || (d.state.Pending? && d.session.None?)
    ensures RowCountersOk(TakeIntoSession(d, sid), parts)
  {
  }

  lemma ArmCounters(d: Delivery, parts: set<nat>, cfg: Settings, now: Time)
    requires RowCountersOk(d, parts) && d.state.Queued? && cfg.Valid()
    ensures var e := Arm(d, cfg, now);
      RowCountersOk(e, parts) && e.state.Pending? && e.session == d.session && e.roundStartedAt.None?
  {
  }

  lemma RestartCounters(d: Delivery, parts: set<nat>, cfg: Settings, now: Time)
    requires RowCountersOk(d, parts) && d.state.Pending? && cfg.Valid()
    ensures var e := RestartHead(d, cfg, now);
      RowCountersOk(e, parts) && e.state.Pending? && e.session == d.session && e.roundStartedAt == d.roundStartedAt
  {
  }

  // ----- the table ------------------------------------------------------------------------------

  lemma RowUpdateKeepsRows(s: State, k: RowKey, d: Delivery)
    requires RowsOk(s) && k in s.deliveries
    requires RowLinksOk(UpdateDelivery(s, k, d), k) && RowCountersOk(d, s.messages[k.message].Parts())
    ensures RowsOk(UpdateDelivery(s, k, d))
  {
    var t := UpdateDelivery(s, k, d);
    forall q | q in t.deliveries ensures RowLinksOk(t, q)
      && RowCountersOk(t.deliveries[q], t.messages[q.message].Parts()) {
      if q != k {
        assert RowLinksOk(s, q);
      }
    }
  }

  /** A row that keeps its state and owner keeps its links. */
  lemma SameStateKeepsRows(s: State, k: RowKey, d: Delivery)
    requires RowsOk(s) && k in s.deliveries
    requires d.state == s.deliveries[k].state && d.session == s.deliveries[k].session
    requires RowCountersOk(d, s.messages[k.message].Parts())
    ensures RowsOk(UpdateDelivery(s, k, d))
  {
    assert RowLinksOk(s, k);
    RowUpdateKeepsRows(s, k, d);
  }

  lemma DeliverRowKeepsRows(s: State, k: RowKey, received: Option<set<nat>>)
    requires RowsOk(s) && k in s.deliveries && s.deliveries[k].Live()
    ensures RowsOk(UpdateDelivery(s, k, MarkDelivered(s.deliveries[k], received)))
  {
    assert RowLinksOk(s, k);
    RowUpdateKeepsRows(s, k, MarkDelivered(s.deliveries[k], received));
  }

  /** Arming the next head, or completing a session that owns nothing outstanding. */
  lemma AdvanceKeepsRows(s: State, sid: SessionId, cfg: Settings, now: Time)
    requires RowsOk(s) && cfg.Valid()
    requires forall k :: !IsHead(s, sid, k)
    ensures RowsOk(AdvanceSession(s, sid, cfg, now))
  {
    var n := NextHead(s, sid);
    if n.Some? {
      var k := n.value;
      assert IsQueued(s, sid, k) && RowLinksOk(s, k);
      ArmCounters(s.deliveries[k], s.messages[k.message].Parts(), cfg, now);
      RowUpdateKeepsRows(s, k, Arm(s.deliveries[k], cfg, now));
    } else {
      var t := AdvanceSession(s, sid, cfg, now);
      forall q | q in t.deliveries ensures RowLinksOk(t, q)
        && RowCountersOk(t.deliveries[q], t.messages[q.message].Parts()) {
        assert RowLinksOk(s, q);
        if Owns(s, sid, q) {
          assert !IsHead(s, sid, q);
          if IsQueued(s, sid, q) {
            NextHeadExists(s, sid, q);
            assert false;
          }
        }
      }
    }
  }

  lemma DeliverKeepsRows(s: State, k: RowKey, received: Option<set<nat>>, cfg: Settings, now: Time)
    requires RowsOk(s) && SessionsOk(s) && k in s.deliveries && s.deliveries[k].Live() && cfg.Valid()
    ensures RowsOk(Deliver(s, k, received, cfg, now))
  {
    var d := s.deliveries[k];
    DeliverRowKeepsRows(s, k, received);
    var head := if d.state.Pending? then HeadSession(s, d) else None;
    if head.Some? {
      assert SessionOk(s, head.value);
      assert IsHead(s, head.value, k);
      HeadDelivered(s, k, head.value, received);
      AdvanceKeepsRows(UpdateDelivery(s, k, MarkDelivered(d, received)), head.value, cfg, now);
    }
  }

  lemma FailKeepsRows(s: State, k: RowKey)
    requires RowsOk(s) && SessionsOk(s) && k in s.deliveries && s.deliveries[k].state.Pending?
      && s.deliveries[k].roundParts == {}
    ensures RowsOk(FailExhaustedDelivery(s, k))
  {
    assert RowLinksOk(s, k);
    var head := HeadSession(s, s.deliveries[k]);
    if head.None? {
      RowUpdateKeepsRows(s, k, FailExhausted(s.deliveries[k]));
    } else {
      StopKeepsRows(s, k, head.value);
    }
  }

  lemma StopKeepsRows(s: State, k: RowKey, sid: SessionId)
    requires RowsOk(s) && sid in s.sessions && SessionOk(s, sid) && IsHead(s, sid, k)
      && s.deliveries[k].roundParts == {}
    ensures RowsOk(StopSession(UpdateDelivery(s, k, FailExhausted(s.deliveries[k])), sid))
  {
    var s1 := UpdateDelivery(s, k, FailExhausted(s.deliveries[k]));
    var t := StopSession(s1, sid);
    forall q | q in t.deliveries ensures RowLinksOk(t, q)
      && RowCountersOk(t.deliveries[q], t.messages[q.message].Parts()) {
      assert RowLinksOk(s, q);
      StoppedRow(s, k, sid, q);
    }
  }

  /** After a stop, the head and the queue are failed and every other row is kept. */
  lemma StoppedRow(s: State, k: RowKey, sid: SessionId, q: RowKey)
    requires IsHead(s, sid, k) && q in s.deliveries
    requires sid in s.sessions && SessionOk(s, sid)
    ensures var t := StopSession(UpdateDelivery(s, k, FailExhausted(s.deliveries[k])), sid);
      && q in t.deliveries
      && t.deliveries[q]
        == (if IsHead(s, sid, q) || IsQueued(s, sid, q) then s.deliveries[q].(state := Failed) else s.deliveries[q])
  {
    assert IsHead(s, sid, q) ==> q == k;
  }

  lemma RelinkKeepsRows(s: State, device: DeviceId, user: UserId)
    requires RowsOk(s) && device in s.devices
    ensures RowsOk(RelinkDevice(s, device, user))
  {
    var t := RelinkDevice(s, device, user);
    forall q | q in t.deliveries ensures RowLinksOk(t, q)
      && RowCountersOk(t.deliveries[q], t.messages[q.message].Parts()) {
      assert RowLinksOk(s, q) && RowCountersOk(s.deliveries[q], s.messages[q.message].Parts());
    }
  }

  /** A device that belonged to nobody has no live row, so linking it disturbs none. */
  lemma DevicesChangeKeepsRows(s: State, devices: map<DeviceId, Device>)
    requires RowsOk(s) && KeepsUsers(s.devices, devices)
    ensures RowsOk(s.(devices := devices))
  {
    var t := s.(devices := devices);
    forall q | q in t.deliveries ensures RowLinksOk(t, q)
      && RowCountersOk(t.deliveries[q], t.messages[q.message].Parts()) {
      assert RowLinksOk(s, q);
    }
  }

  /** No device disappears, and a device that has a user keeps it. */
  ghost predicate KeepsUsers(before: map<DeviceId, Device>, after: map<DeviceId, Device>) {
    forall d | d in before :: d in after && (before[d].user.Some? ==> after[d].user == before[d].user)
  }

  /** Rows look at a message's acceptance, recipient and part count only. */
  lemma MessageChangeKeepsRows(s: State, t: State)
    requires RowsOk(s)
    requires t.deliveries == s.deliveries && t.devices == s.devices && t.sessions == s.sessions
    requires forall key | key in s.messages && s.messages[key].acceptedAt.Some? ::
      && key in t.messages && t.messages[key].acceptedAt.Some?
      && t.messages[key].recipient == s.messages[key].recipient
      && |t.messages[key].partTexts| == |s.messages[key].partTexts|
    ensures RowsOk(t)
  {
    forall q | q in t.deliveries ensures RowLinksOk(t, q)
      && RowCountersOk(t.deliveries[q], t.messages[q.message].Parts()) {
      assert RowLinksOk(s, q);
    }
  }

  lemma FanOutKeepsRows(s: State, key: MessageKey, recipient: UserId, cfg: Settings, now: Time)
    requires RowsOk(s) && cfg.Valid()
    requires forall k | k in s.deliveries :: k.message != key
    requires key in s.messages && s.messages[key].acceptedAt.Some? && s.messages[key].recipient == recipient
    requires |s.messages[key].partTexts| >= 1
    ensures RowsOk(FanOut(s, key, recipient, cfg, now))
  {
    var t := FanOut(s, key, recipient, cfg, now);
    forall q | q in t.deliveries ensures RowLinksOk(t, q)
      && RowCountersOk(t.deliveries[q], t.messages[q.message].Parts()) {
      FanOutRowAt(s, key, recipient, cfg, now, q);
      if q in s.deliveries {
        assert RowLinksOk(s, q);
      } else {
        var a := ActiveSession(s, q.device, key.sender);
        assert a.Some? ==> IsActiveSession(s, a.value, q.device, key.sender);
        assert 1 in s.messages[key].Parts();
        NewRowCounters(if a.Some? then a.value else 0, s.messages[key].Parts(), cfg, now);
      }
    }
  }

  lemma OpenedRowOk(s: State, device: DeviceId, user: UserId, peer: UserId, taken: set<RowKey>, missed: set<RowKey>,
                    cfg: Settings, q: RowKey)
    requires RowsOk(s) && cfg.Valid() && IsScope(s, device, user, peer, taken, missed)
    requires SignedInUser(s, device) == Some(user) && q in taken + missed && |s.messages[q.message].partTexts| >= 1
    ensures var t := OpenScope(s, device, peer, taken, missed, cfg);
      q in t.deliveries && RowLinksOk(t, q) && RowCountersOk(t.deliveries[q], t.messages[q.message].Parts())
  {
    OpenRowAt(s, device, user, peer, taken, missed, cfg, q);
    assert 1 in s.messages[q.message].Parts();
    NewRowCounters(s.nextSessionId, s.messages[q.message].Parts(), cfg, 0.0);
    if q in taken {
      TakeCounters(s.deliveries[q], s.messages[q.message].Parts(), s.nextSessionId);
    }
  }

  lemma OpenKeepsRows(s: State, device: DeviceId, user: UserId, peer: UserId, taken: set<RowKey>,
                      missed: set<RowKey>, cfg: Settings)
    requires RowsOk(s) && cfg.Valid() && IsScope(s, device, user, peer, taken, missed)
    requires SignedInUser(s, device) == Some(user)
    requires forall k | k in taken + missed :: |s.messages[k.message].partTexts| >= 1
    requires forall x | x in s.sessions :: x < s.nextSessionId
    ensures RowsOk(OpenScope(s, device, peer, taken, missed, cfg))
  {
    var t := OpenScope(s, device, peer, taken, missed, cfg);
    forall q | q in t.deliveries ensures RowLinksOk(t, q)
      && RowCountersOk(t.deliveries[q], t.messages[q.message].Parts()) {
      OpenRowAt(s, device, user, peer, taken, missed, cfg, q);
      if q in taken + missed {
        OpenedRowOk(s, device, user, peer, taken, missed, cfg, q);
      } else {
        assert RowLinksOk(s, q);
      }
    }
  }
}
