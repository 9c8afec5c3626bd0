/**
 The order (acceptance time, then message id) behind a refresh session's head. The engine keeps it
 through every transaction but one: a part that completes an earlier upload at the very time the
 head's message was accepted.
 */
module AcceptanceOrder {
  import opened Options
  import opened Texts
  import opened Times
  import opened RetrySchedule
  import opened Tables
  import opened DeliveryRows
  import opened Transitions
  import opened Invariants
  import opened SessionProofs
  import opened MessageProofs
  import opened StepProofs
  import opened RowEffects
  import opened Runs

  /** Nothing queued in the session comes before its head. */
  ghost predicate HeadComesBeforeQueue(s: State, sid: SessionId) {
    forall h, q :: IsHead(s, sid, h) && IsQueued(s, sid, q) ==> !Before(s, q, h)
  }

  /** Every session is in order; one that ended has neither head nor queue. */
  ghost predicate Ordered(s: State) {
    forall sid :: HeadComesBeforeQueue(s, sid)
  }

  // ----- transactions that only take rows out of sessions -----------------------------------------

  /** A row that is head or queued was just that before. */
  predicate KeepsPlace(s: State, t: State, k: RowKey) {
    k in t.deliveries && t.deliveries[k].session.Some?
      && (t.deliveries[k].state.Pending? || t.deliveries[k].state.Queued?) ==>
      && k in s.deliveries
      && s.deliveries[k].session == t.deliveries[k].session
      && s.deliveries[k].state == t.deliveries[k].state
  }

  ghost predicate PlacesKept(s: State, t: State) {
    forall k :: KeepsPlace(s, t, k)
  }

  /** The row's message was accepted at the same time under the same id. */
  predicate SameTurn(s: State, t: State, k: RowKey) {
    AcceptedAt(t, k) == AcceptedAt(s, k) && RowOrder(t, k) == RowOrder(s, k)
  }

  lemma PlacesKeepOrder(s: State, t: State)
    requires Ordered(s) && PlacesKept(s, t) && forall k | k in s.deliveries :: SameTurn(s, t, k)
    ensures Ordered(t)
  {
    forall sid, h, q | IsHead(t, sid, h) && IsQueued(t, sid, q) ensures !Before(t, q, h) {
      assert KeepsPlace(s, t, h) && KeepsPlace(s, t, q);
      assert IsHead(s, sid, h) && IsQueued(s, sid, q);
      assert HeadComesBeforeQueue(s, sid);
      assert SameTurn(s, t, h) && SameTurn(s, t, q);
    }
  }

  lemma EvolvedTurn(s: State, t: State, k: RowKey)
    requires RowsOk(s) && MessagesEvolve(s, t) && k in s.deliveries
    ensures SameTurn(s, t, k)
  {
    assert RowLinksOk(s, k);
    assert MessageEvolves(s.messages[k.message], t.messages[k.message]);
  }

  lemma KeptPlacesKeepOrder(s: State, t: State)
    requires Ordered(s) && RowsOk(s) && MessagesEvolve(s, t) && PlacesKept(s, t)
    ensures Ordered(t)
  {
    forall k | k in s.deliveries ensures SameTurn(s, t, k) {
      EvolvedTurn(s, t, k);
    }
    PlacesKeepOrder(s, t);
  }

  lemma PlacesTransitive(s: State, t: State, u: State)
    requires PlacesKept(s, t) && PlacesKept(t, u)
    ensures PlacesKept(s, u)
  {
    forall k ensures KeepsPlace(s, u, k) {
      assert KeepsPlace(s, t, k) && KeepsPlace(t, u, k);
    }
  }

  lemma SamePlaces(s: State, t: State)
    requires t.deliveries == s.deliveries
    ensures PlacesKept(s, t)
  {
  }

  lemma UpdateKeepsPlaces(s: State, k: RowKey, d: Delivery)
    requires k in s.deliveries && d.session == s.deliveries[k].session
    requires d.state == s.deliveries[k].state || (!d.state.Pending? && !d.state.Queued?)
    ensures PlacesKept(s, UpdateDelivery(s, k, d))
  {
  }

  lemma FailKeepsPlaces(s: State, k: RowKey)
    requires k in s.deliveries
    ensures PlacesKept(s, FailExhaustedDelivery(s, k))
  {
    forall q ensures KeepsPlace(s, FailExhaustedDelivery(s, k), q) {
    }
  }

  lemma LowestPartKeepsPlaces(s: State, k: RowKey)
    requires k in s.deliveries && k.message in s.messages
    ensures PlacesKept(s, PrepareLowestPart(s, k).0)
  {
    SamePlaces(s, PrepareLowestPart(s, k).0);
  }

  lemma StartKeepsPlaces(s: State, k: RowKey, now: Time)
    requires k in s.deliveries && k.message in s.messages
    ensures PlacesKept(s,
      PrepareLowestPart(UpdateDelivery(s, k, StartRound(s.deliveries[k], s.messages[k.message].Parts(), now)), k).0)
  {
    var s1 := UpdateDelivery(s, k, StartRound(s.deliveries[k], s.messages[k.message].Parts(), now));
    UpdateKeepsPlaces(s, k, s1.deliveries[k]);
    LowestPartKeepsPlaces(s1, k);
    PlacesTransitive(s, s1, PrepareLowestPart(s1, k).0);
  }

  lemma PrepareDeliveryKeepsPlaces(s: State, k: RowKey, cfg: Settings, now: Time)
    ensures PlacesKept(s, PrepareDelivery(s, k, cfg, now).0)
  {
    if k !in s.deliveries || k.message !in s.messages || !s.deliveries[k].state.Pending? {
      SamePlaces(s, s);
    } else if PartsLeft(s.deliveries[k]) != {} {
      LowestPartKeepsPlaces(s, k);
    } else if s.deliveries[k].roundParts != {} {
      UpdateKeepsPlaces(s, k, CompleteRound(s.deliveries[k], RoundSuggestion(s, k, s.deliveries[k]), cfg, now));
    } else if s.deliveries[k].attemptCount >= s.deliveries[k].maximumAttempts {
      FailKeepsPlaces(s, k);
    } else {
      SamePlaces(s, s);
      StartKeepsPlaces(s, k, now);
    }
  }

  lemma PrepareCandidateKeepsPlaces(s: State, c: Candidate, cfg: Settings, now: Time)
    ensures PlacesKept(s, PrepareCandidate(s, c, cfg, now).0)
  {
    if c.DeliveryCandidate? {
      PrepareDeliveryKeepsPlaces(s, c.key, cfg, now);
    } else {
      SamePlaces(s, PrepareReceipt(s, c.key, now).0);
    }
  }

  lemma {:induction false} PrepareKeepsPlaces(s: State, cands: seq<Candidate>, cfg: Settings, now: Time)
    ensures PlacesKept(s, PrepareNext(s, cands, cfg, now).0)
    decreases |cands|
  {
    if cands != [] {
      var first := PrepareCandidate(s, cands[0], cfg, now);
      PrepareCandidateKeepsPlaces(s, cands[0], cfg, now);
      PrepareKeepsPlaces(first.0, cands[1..], cfg, now);
      PlacesTransitive(s, first.0, PrepareNext(first.0, cands[1..], cfg, now).0);
    }
  }

  lemma OutcomeKeepsPlaces(s: State, id: PacketId, outcome: SendOutcome, cfg: Settings, now: Time)
    ensures PlacesKept(s, RecordOutcome(s, id, outcome, cfg, now))
  {
    var t := RecordOutcome(s, id, outcome, cfg, now);
    forall k | k in t.deliveries ensures KeepsPlace(s, t, k) {
      OutcomeAddsNoRow(s, id, outcome, cfg, now, k);
      OutcomeAt(s, id, outcome, cfg, now, k);
      if CountsIn(s, id, outcome, k) {
        PartSentKeeps(s.deliveries[k], s.packets[id].purpose.part, Suggestion(outcome), cfg, now);
      }
    }
  }

  lemma OutcomeAddsNoRow(s: State, id: PacketId, outcome: SendOutcome, cfg: Settings, now: Time, k: RowKey)
    ensures k in RecordOutcome(s, id, outcome, cfg, now).deliveries ==> k in s.deliveries
  {
    if id in s.packets {
      var p := s.packets[id];
      CountingAddsNoRow(s, p, Suggestion(outcome), cfg, now, k);
      CountingAddsNoRow(MarkMissingOnNode(s, p.row.device), p, Suggestion(outcome), cfg, now, k);
    }
  }

  lemma CountingAddsNoRow(s: State, p: Packet, suggestion: Option<nat>, cfg: Settings, now: Time, k: RowKey)
    ensures k in CountAsSent(s, p, suggestion, cfg, now).deliveries ==> k in s.deliveries
  {
  }

  lemma LinkKeepsPlaces(s: State, device: DeviceId, user: UserId)
    ensures PlacesKept(s, LinkDevice(s, device, user))
  {
    forall k ensures KeepsPlace(s, LinkDevice(s, device, user), k) {
    }
  }

  // ----- a new head ---------------------------------------------------------------------------------

  /** Arming picks a head that comes before the whole queue. */
  lemma ArmedHeadComesFirst(s: State, sid: SessionId, cfg: Settings, now: Time)
    requires forall k :: !IsHead(s, sid, k)
    ensures HeadComesBeforeQueue(AdvanceSession(s, sid, cfg, now), sid)
  {
    var t := AdvanceSession(s, sid, cfg, now);
    AdvanceTouches(s, sid, cfg, now);
    forall h, q | IsHead(t, sid, h) && IsQueued(t, sid, q) ensures !Before(t, q, h) {
      ArmedHeadIsNext(s, sid, cfg, now, h);
      StillQueued(s, sid, cfg, now, q);
      assert Before(t, q, h) <==> Before(s, q, h);
    }
  }

  lemma ArmedHeadIsNext(s: State, sid: SessionId, cfg: Settings, now: Time, h: RowKey)
    requires !IsHead(s, sid, h) && IsHead(AdvanceSession(s, sid, cfg, now), sid, h)
    ensures IsNextHead(s, sid, h)
  {
  }

  lemma StillQueued(s: State, sid: SessionId, cfg: Settings, now: Time, q: RowKey)
    requires IsQueued(AdvanceSession(s, sid, cfg, now), sid, q)
    ensures IsQueued(s, sid, q)
  {
  }

  lemma AdvanceKeepsOtherOrder(s: State, sid: SessionId, other: SessionId, cfg: Settings, now: Time)
    requires other != sid && HeadComesBeforeQueue(s, other)
    ensures HeadComesBeforeQueue(AdvanceSession(s, sid, cfg, now), other)
  {
    var t := AdvanceSession(s, sid, cfg, now);
    AdvanceTouches(s, sid, cfg, now);
    forall h, q | IsHead(t, other, h) && IsQueued(t, other, q) ensures !Before(t, q, h) {
      AdvanceKeepsPlaces(s, sid, other, cfg, now, h);
      AdvanceKeepsPlaces(s, sid, other, cfg, now, q);
      assert Before(t, q, h) <==> Before(s, q, h);
    }
  }

  lemma AdvanceKeepsOrder(s: State, sid: SessionId, cfg: Settings, now: Time)
    requires Ordered(s) && forall k :: !IsHead(s, sid, k)
    ensures Ordered(AdvanceSession(s, sid, cfg, now))
  {
    forall other ensures HeadComesBeforeQueue(AdvanceSession(s, sid, cfg, now), other) {
      if other == sid {
        ArmedHeadComesFirst(s, sid, cfg, now);
      } else {
        AdvanceKeepsOtherOrder(s, sid, other, cfg, now);
      }
    }
  }

  lemma DeliverKeepsOrder(s: State, k: RowKey, received: Option<set<nat>>, cfg: Settings, now: Time)
    requires Ordered(s) && RowsOk(s) && SessionsOk(s) && k in s.deliveries && s.deliveries[k].Live()
    ensures Ordered(Deliver(s, k, received, cfg, now))
  {
    var d := s.deliveries[k];
    var s1 := UpdateDelivery(s, k, MarkDelivered(d, received));
    UpdateKeepsPlaces(s, k, MarkDelivered(d, received));
    PlacesKeepOrder(s, s1);
    var head := if d.state.Pending? then HeadSession(s, d) else None;
    if head.Some? {
      HeadDelivered(s, k, head.value, received);
      AdvanceKeepsOrder(s1, head.value, cfg, now);
    }
  }

  lemma ConfirmKeepsOrder(s: State, key: MessageKey, isRead: bool, cfg: Settings, now: Time)
    requires Ordered(s) && key in s.messages
    ensures Ordered(ConfirmMessage(s, key, isRead, cfg, now))
  {
    var t := ConfirmMessage(s, key, isRead, cfg, now);
    SamePlaces(s, t);
    forall k ensures SameTurn(s, t, k) {
    }
    PlacesKeepOrder(s, t);
  }

  lemma RowUpdateKeepsOrder(s: State, k: RowKey, d: Delivery)
    requires Ordered(s) && k in s.deliveries && d.session == s.deliveries[k].session
    requires d.state == s.deliveries[k].state || (!d.state.Pending? && !d.state.Queued?)
    ensures Ordered(UpdateDelivery(s, k, d))
  {
    UpdateKeepsPlaces(s, k, d);
    PlacesKeepOrder(s, UpdateDelivery(s, k, d));
  }

  lemma DeliverAndConfirmKeepsOrder(s: State, k: RowKey, received: Option<set<nat>>, isRead: bool, cfg: Settings,
                                    now: Time)
    requires Ordered(s) && RowsOk(s) && SessionsOk(s) && k in s.deliveries && s.deliveries[k].Live()
      && k.message in s.messages
    ensures k.message in Deliver(s, k, received, cfg, now).messages
    ensures Ordered(ConfirmMessage(Deliver(s, k, received, cfg, now), k.message, isRead, cfg, now))
  {
    DeliverKeepsOrder(s, k, received, cfg, now);
    DeliverTouchesRowsAndSessions(s, k, received, cfg, now);
    ConfirmKeepsOrder(Deliver(s, k, received, cfg, now), k.message, isRead, cfg, now);
  }

  lemma StatusKeepsOrder(s: State, device: DeviceId, sender: Option<UserId>, clientId: nat, received: seq<bool>,
                         cfg: Settings, now: Time)
    requires Ordered(s) && RowsOk(s) && SessionsOk(s)
    ensures Ordered(RecordStatus(s, device, sender, clientId, received, cfg, now))
  {
    if StatusApplies(s, device, sender, clientId, received) {
      var k := RowKey(MessageKey(sender.value, clientId), device);
      var d := s.deliveries[k];
      if Reported(received) != s.messages[k.message].Parts() {
        IncompleteAtItsRow(d, Reported(received), RoundSuggestion(s, k, d), cfg, now);
        RowUpdateKeepsOrder(s, k, IncompleteStatus(d, Reported(received), RoundSuggestion(s, k, d), cfg, now));
      } else {
        DeliverAndConfirmKeepsOrder(s, k, Some(Reported(received)), false, cfg, now);
      }
    }
  }

  lemma ReadKeepsOrder(s: State, device: DeviceId, sender: Option<UserId>, clientId: nat, cfg: Settings, now: Time)
    requires Ordered(s) && RowsOk(s) && SessionsOk(s)
    ensures Ordered(RecordRead(s, device, sender, clientId, cfg, now))
  {
    if sender.Some? && IsIncoming(s, device, MessageKey(sender.value, clientId)) {
      var k := RowKey(MessageKey(sender.value, clientId), device);
      if k in s.deliveries && s.deliveries[k].Live() {
        DeliverAndConfirmKeepsOrder(s, k, None, true, cfg, now);
      } else {
        ConfirmKeepsOrder(s, k.message, true, cfg, now);
      }
    }
  }

  // ----- F ------------------------------------------------------------------------------------------

  /** Opening a session moves no row of another one. */
  lemma OpenKeepsPlace(s: State, device: DeviceId, user: UserId, peer: UserId, taken: set<RowKey>,
                       missed: set<RowKey>, cfg: Settings, other: SessionId, k: RowKey)
    requires IsScope(s, device, user, peer, taken, missed) && other != s.nextSessionId
    ensures var t := OpenScope(s, device, peer, taken, missed, cfg);
      && (IsHead(t, other, k) ==> IsHead(s, other, k)) && (IsQueued(t, other, k) ==> IsQueued(s, other, k))
  {
    OpenRowAt(s, device, user, peer, taken, missed, cfg, k);
  }

  lemma OpenKeepsOtherOrder(s: State, device: DeviceId, user: UserId, peer: UserId, taken: set<RowKey>,
                            missed: set<RowKey>, cfg: Settings, other: SessionId)
    requires HeadComesBeforeQueue(s, other) && IsScope(s, device, user, peer, taken, missed) && other != s.nextSessionId
    ensures HeadComesBeforeQueue(OpenScope(s, device, peer, taken, missed, cfg), other)
  {
    var t := OpenScope(s, device, peer, taken, missed, cfg);
    forall k ensures (IsHead(t, other, k) ==> IsHead(s, other, k))
      && (IsQueued(t, other, k) ==> IsQueued(s, other, k)) {
      OpenKeepsPlace(s, device, user, peer, taken, missed, cfg, other, k);
    }
    assert forall h, q :: Before(t, q, h) <==> Before(s, q, h);
  }

  lemma OpenKeepsOrder(s: State, device: DeviceId, user: UserId, peer: UserId, taken: set<RowKey>,
                       missed: set<RowKey>, cfg: Settings)
    requires Ordered(s) && RowsOk(s) && SessionsOk(s) && IsScope(s, device, user, peer, taken, missed)
    ensures var t := OpenScope(s, device, peer, taken, missed, cfg);
      Ordered(t) && forall k :: !IsHead(t, s.nextSessionId, k)
  {
    forall k ensures !Owns(s, s.nextSessionId, k) {
      FreshSessionOwnsNothing(s, k);
    }
    OpenedSessionOwnsScope(s, device, user, peer, taken, missed, cfg);
    forall other | other != s.nextSessionId ensures HeadComesBeforeQueue(OpenScope(s, device, peer, taken, missed,
      cfg), other) {
      OpenKeepsOtherOrder(s, device, user, peer, taken, missed, cfg, other);
    }
  }

  lemma RestartKeepsOrder(s: State, sid: SessionId, cfg: Settings, now: Time)
    requires Ordered(s)
    ensures Ordered(RestartSession(s, sid, cfg, now))
  {
    var h := Head(s, sid);
    if h.Some? {
      RowUpdateKeepsOrder(s, h.value, RestartHead(s.deliveries[h.value], cfg, now));
    }
  }

  lemma RefreshPeerKeepsOrder(s: State, device: DeviceId, user: UserId, peer: UserId, cfg: Settings, now: Time)
    requires Ordered(s) && RowsOk(s) && SessionsOk(s)
    ensures Ordered(RefreshPeer(s, device, user, peer, cfg, now).0)
  {
    var a := ActiveSession(s, device, peer);
    if a.Some? {
      RestartKeepsOrder(s, a.value, cfg, now);
    } else {
      var taken, missed := TakenKeys(s, device, user, peer), MissedKeys(s, device, user, peer);
      QueriesGiveScope(s, device, user, peer);
      OpenKeepsOrder(s, device, user, peer, taken, missed, cfg);
      AdvanceKeepsOrder(OpenScope(s, device, peer, taken, missed, cfg), s.nextSessionId, cfg, now);
    }
  }

  lemma {:induction false} RefreshPeersKeepsOrder(s: State, device: DeviceId, user: UserId, peers: seq<UserId>,
                                        cfg: Settings, now: Time)
    requires Ordered(s) && Inv(s, now) && cfg.Valid() && SignedInUser(s, device) == Some(user) && user !in peers
    ensures Ordered(RefreshPeers(s, device, user, peers, cfg, now).0)
    decreases |peers|
  {
    if peers != [] {
      RefreshPeerKeepsOrder(s, device, user, peers[0], cfg, now);
      RefreshPeerKeepsInv(s, device, user, peers[0], cfg, now);
      RefreshPeerKeepsDevices(s, device, user, peers[0], cfg, now);
      RefreshPeersKeepsOrder(RefreshPeer(s, device, user, peers[0], cfg, now).0, device, user, peers[1..], cfg, now);
    }
  }

  lemma RefreshOneKeepsOrder(s: State, device: DeviceId, user: UserId, peer: UserId, cfg: Settings, now: Time)
    requires Ordered(s) && Inv(s, now) && cfg.Valid() && SignedInUser(s, device) == Some(user)
    ensures Ordered(RefreshPeer(RearmReceipts(s, device, user, peer, cfg, now), device, user, peer, cfg, now).0)
  {
    var s1 := RearmReceipts(s, device, user, peer, cfg, now);
    RearmKeepsInv(s, device, user, peer, cfg, now);
    SamePlaces(s, s1);
    PlacesKeepOrder(s, s1);
    RefreshPeerKeepsOrder(s1, device, user, peer, cfg, now);
  }

  lemma RefreshKeepsOrder(s: State, device: DeviceId, target: RefreshTarget, peers: seq<UserId>, cfg: Settings,
                          now: Time)
    requires Ordered(s) && Inv(s, now) && cfg.Valid() && Enabled(s, RefreshArrives(device, target, peers), cfg, now)
    ensures Ordered(StartRefresh(s, device, target, peers, cfg, now).0)
  {
    OwnUserNotRefreshed(s, device, target, peers, cfg, now);
    var user := SignedInUser(s, device);
    if user.Some? {
      match target
      case AllPeers => RefreshPeersKeepsOrder(s, device, user.value, peers, cfg, now);
      case OnePeer(peer) =>
        if peer.Some? && peer != user {
          RefreshOneKeepsOrder(s, device, user.value, peer.value, cfg, now);
        }
    }
  }

  // ----- M ------------------------------------------------------------------------------------------

  /** A session that fan-out of the message appends to. */
  predicate Appends(s: State, key: MessageKey, recipient: UserId, sid: SessionId) {
    && sid in s.sessions && s.sessions[sid].state.Active?
    && s.sessions[sid].peer == key.sender && s.sessions[sid].device in DevicesOf(s, recipient)
  }

  /** Accepted now under this id, the message would come before the session's head. */
  ghost predicate Precedes(s: State, sid: SessionId, id: nat, now: Time) {
    exists h :: IsHead(s, sid, h) && AcceptedAt(s, h) == now && id < RowOrder(s, h)
  }

  /** What fan-out adds to a session it appends to. */
  ghost predicate Appended(s: State, t: State, sid: SessionId, added: RowKey) {
    && IsQueued(t, sid, added) && !IsHead(t, sid, added)
    && (forall k | k != added ::
      (IsHead(t, sid, k) <==> IsHead(s, sid, k)) && (IsQueued(t, sid, k) <==> IsQueued(s, sid, k)))
    && (forall k :: SameTurn(s, t, k))
  }

  lemma FanOutAdds(s: State, key: MessageKey, recipient: UserId, cfg: Settings, now: Time, sid: SessionId)
    requires SingleSessions(s) && Appends(s, key, recipient, sid) && forall k | k in s.deliveries :: k.message != key
    ensures Appended(s, FanOut(s, key, recipient, cfg, now), sid, RowKey(key, s.sessions[sid].device))
  {
    var t := FanOut(s, key, recipient, cfg, now);
    var added := RowKey(key, s.sessions[sid].device);
    FanOutOwner(s, key, recipient, cfg, now, sid, added);
    forall k | k != added ensures (IsHead(t, sid, k) <==> IsHead(s, sid, k))
      && (IsQueued(t, sid, k) <==> IsQueued(s, sid, k)) {
      FanOutOwner(s, key, recipient, cfg, now, sid, k);
    }
    forall k ensures SameTurn(s, t, k) {
      FanOutTurns(s, key, recipient, cfg, now, k);
    }
  }

  lemma FanOutTurns(s: State, key: MessageKey, recipient: UserId, cfg: Settings, now: Time, k: RowKey)
    ensures SameTurn(s, FanOut(s, key, recipient, cfg, now), k)
  {
  }

  /**
   A row appended to an ordered session, accepted no earlier than its head, breaks the order
   exactly when it precedes the head by id.
   */
  lemma AppendedOrderIff(s: State, t: State, sid: SessionId, added: RowKey, now: Time)
    requires HeadComesBeforeQueue(s, sid) && Appended(s, t, sid, added) && added !in s.deliveries
      && AcceptedAt(s, added) == now
    requires forall k | k in s.deliveries :: AcceptedAt(s, k) <= now
    ensures HeadComesBeforeQueue(t, sid) <==> !Precedes(s, sid, RowOrder(s, added), now)
  {
    if h :| IsHead(s, sid, h) && AcceptedAt(s, h) == now && RowOrder(s, added) < RowOrder(s, h) {
      assert SameTurn(s, t, h) && SameTurn(s, t, added);
      assert IsHead(t, sid, h) && Before(t, added, h);
    } else {
      forall h, q | IsHead(t, sid, h) && IsQueued(t, sid, q) ensures !Before(t, q, h) {
        assert h != added && IsHead(s, sid, h);
        assert SameTurn(s, t, h) && SameTurn(s, t, q);
        assert q != added ==> IsQueued(s, sid, q);
      }
    }
  }

  /** Fan-out keeps an appending session in order exactly when the message does not precede the head by its id alone. */
  lemma FanOutOrderIff(s: State, key: MessageKey, recipient: UserId, cfg: Settings, now: Time, sid: SessionId)
    requires SingleSessions(s) && Appends(s, key, recipient, sid) && HeadComesBeforeQueue(s, sid)
    requires forall k | k in s.deliveries :: k.message != key && AcceptedAt(s, k) <= now
    requires key in s.messages && s.messages[key].acceptedAt == Some(now)
    ensures HeadComesBeforeQueue(FanOut(s, key, recipient, cfg, now), sid) <==>
      !Precedes(s, sid, s.messages[key].id, now)
  {
    FanOutAdds(s, key, recipient, cfg, now, sid);
    AppendedOrderIff(s, FanOut(s, key, recipient, cfg, now), sid, RowKey(key, s.sessions[sid].device), now);
  }

  /** A session fan-out does not append to keeps its head and queue. */
  lemma FanOutKeepsOtherOrder(s: State, key: MessageKey, recipient: UserId, cfg: Settings, now: Time, sid: SessionId)
    requires HeadComesBeforeQueue(s, sid) && !Appends(s, key, recipient, sid)
    requires forall k | k in s.deliveries :: k.message != key
    ensures HeadComesBeforeQueue(FanOut(s, key, recipient, cfg, now), sid)
  {
    var t := FanOut(s, key, recipient, cfg, now);
    forall h, q | IsHead(t, sid, h) && IsQueued(t, sid, q) ensures !Before(t, q, h) {
      FanOutRowAt(s, key, recipient, cfg, now, h);
      FanOutRowAt(s, key, recipient, cfg, now, q);
      var a := ActiveSession(s, q.device, key.sender);
      assert a.Some? ==> IsActiveSession(s, a.value, q.device, key.sender);
      assert IsHead(s, sid, h) && IsQueued(s, sid, q);
    }
  }

  /**
   The sender's own upload under this id misses exactly the part the request brings, and nothing
   about it conflicts.
   */
  predicate Completes(s: State, req: PartRequest) {
    && SignedInUser(s, req.device).Some? && req.recipient.Some? && req.recipient != SignedInUser(s, req.device)
    && ValidPartNumbering(req.partNumber, req.partCount) && IsValidPartText(req.text)
    && var key := MessageKey(SignedInUser(s, req.device).value, req.clientId);
    && key in s.messages
    && var m := s.messages[key];
    && !Conflicts(m, req.recipient.value, req)
    && m.acceptedAt.None?
    && forall i | 0 <= i < |m.partTexts| && i != req.partNumber - 1 :: m.partTexts[i].Some?
  }

  /** Some session the message is appended to has a head it would precede. */
  ghost predicate PrecedesSomeHead(s: State, key: MessageKey, recipient: UserId, id: nat, now: Time) {
    exists sid :: Appends(s, key, recipient, sid) && Precedes(s, sid, id, now)
  }

  /**
   The request completes an upload that was begun before the head's message, at the very time that
   one was accepted.
   */
  ghost predicate BreaksTie(s: State, step: Step, now: Time) {
    && step.PartArrives?
    && Completes(s, step.request)
    && var key := MessageKey(SignedInUser(s, step.request.device).value, step.request.clientId);
    PrecedesSomeHead(s, key, step.request.recipient.value, s.messages[key].id, now)
  }

  lemma AcceptanceOrderAt(s: State, key: MessageKey, m: Message, cfg: Settings, now: Time, sid: SessionId)
    requires Ordered(s) && SingleSessions(s) && m.acceptedAt == Some(now)
    requires forall k | k in s.deliveries :: k.message != key && AcceptedAt(s, k) <= now
    ensures HeadComesBeforeQueue(FanOut(s.(messages := s.messages[key := m]), key, m.recipient, cfg, now), sid) <==>
      !(Appends(s, key, m.recipient, sid) && Precedes(s, sid, m.id, now))
  {
    var s1 := s.(messages := s.messages[key := m]);
    MessageKeepsTurns(s, key, m);
    assert HeadComesBeforeQueue(s1, sid);
    assert DevicesOf(s1, m.recipient) == DevicesOf(s, m.recipient);
    if Appends(s, key, m.recipient, sid) {
      FanOutOrderIff(s1, key, m.recipient, cfg, now, sid);
      SamePrecedence(s, s1, sid, m.id, now);
    } else {
      FanOutKeepsOtherOrder(s1, key, m.recipient, cfg, now, sid);
    }
  }

  /** A message no row belongs to changes no row's turn. */
  lemma MessageKeepsTurns(s: State, key: MessageKey, m: Message)
    requires Ordered(s) && forall k | k in s.deliveries :: k.message != key
    ensures var s1 := s.(messages := s.messages[key := m]);
      Ordered(s1) && forall k | k in s.deliveries :: SameTurn(s, s1, k) && AcceptedAt(s1, k) == AcceptedAt(s, k)
  {
    var s1 := s.(messages := s.messages[key := m]);
    forall k | k in s.deliveries ensures SameTurn(s, s1, k) {
    }
    SamePlaces(s, s1);
    PlacesKeepOrder(s, s1);
  }

  /**
   Accepting a message keeps every session in order exactly when it precedes no head of a session
   it is appended to.
   */
  lemma AcceptanceOrderIff(s: State, key: MessageKey, m: Message, cfg: Settings, now: Time)
    requires Ordered(s) && SingleSessions(s) && m.acceptedAt == Some(now)
    requires forall k | k in s.deliveries :: k.message != key && AcceptedAt(s, k) <= now
    ensures Ordered(FanOut(s.(messages := s.messages[key := m]), key, m.recipient, cfg, now)) <==>
      forall sid | Appends(s, key, m.recipient, sid) :: !Precedes(s, sid, m.id, now)
  {
    var t := FanOut(s.(messages := s.messages[key := m]), key, m.recipient, cfg, now);
    forall sid
      ensures HeadComesBeforeQueue(t, sid) <==> !(Appends(s, key, m.recipient, sid) && Precedes(s, sid, m.id, now))
    {
      AcceptanceOrderAt(s, key, m, cfg, now, sid);
    }
    if Ordered(t) {
      forall sid | Appends(s, key, m.recipient, sid) ensures !Precedes(s, sid, m.id, now) {
        assert HeadComesBeforeQueue(t, sid);
      }
    }
  }

  lemma SamePrecedence(s: State, t: State, sid: SessionId, id: nat, now: Time)
    requires t.deliveries == s.deliveries && forall k | k in s.deliveries :: SameTurn(s, t, k)
    ensures Precedes(t, sid, id, now) <==> Precedes(s, sid, id, now)
  {
    if h :| IsHead(s, sid, h) && AcceptedAt(s, h) == now && id < RowOrder(s, h) {
      assert SameTurn(s, t, h) && IsHead(t, sid, h);
    }
    if h :| IsHead(t, sid, h) && AcceptedAt(t, h) == now && id < RowOrder(t, h) {
      assert SameTurn(s, t, h) && IsHead(s, sid, h);
    }
  }

  /** The part is stored and is the last one missing. */
  predicate IsLastPart(m: Message, recipient: UserId, req: PartRequest) {
    !Conflicts(m, recipient, req) && m.acceptedAt.None? && AllHeld(StorePart(m, req))
  }

  lemma LastPartOrderIff(s: State, key: MessageKey, m: Message, cfg: Settings, clock: Time, now: Time)
    requires Ordered(s) && Inv(s, clock) && clock <= now && key in s.messages && s.messages[key].acceptedAt.None?
    requires m.acceptedAt == Some(now)
    ensures Ordered(FanOut(s.(messages := s.messages[key := m]), key, m.recipient, cfg, now)) <==>
      !PrecedesSomeHead(s, key, m.recipient, m.id, now)
  {
    NoRowsBeforeAcceptance(s, key);
    forall k | k in s.deliveries ensures AcceptedAt(s, k) <= now {
      AcceptedBefore(s, clock, k);
    }
    AcceptanceOrderIff(s, key, m, cfg, now);
  }

  lemma OtherPartKeepsOrder(s: State, key: MessageKey, recipient: UserId, req: PartRequest, cfg: Settings,
                            clock: Time, now: Time)
    requires Ordered(s) && RowsOk(s) && key in s.messages
      && MessageOk(key.sender, s.messages[key], s.nextMessageId, clock) && clock <= now
    requires !IsLastPart(s.messages[key], recipient, req) && IsValidPartText(req.text)
    ensures Ordered(PlacePart(s, key, recipient, req, cfg, now).0)
  {
    var m := s.messages[key];
    if !Conflicts(m, recipient, req) {
      PlacedTables(s, key, recipient, req, cfg, now);
      PlacedMessageOk(key.sender, m, req, s.nextMessageId, clock, now);
      StoreKeepsOrder(s, key, Placed(m, req, now));
    }
  }

  lemma PlacedOrderIff(s: State, key: MessageKey, recipient: UserId, req: PartRequest, cfg: Settings, clock: Time,
                       now: Time)
    requires Ordered(s) && Inv(s, clock) && clock <= now && key in s.messages && IsValidPartText(req.text)
    ensures Ordered(PlacePart(s, key, recipient, req, cfg, now).0) <==>
      !(IsLastPart(s.messages[key], recipient, req) && PrecedesSomeHead(s, key, recipient, s.messages[key].id, now))
  {
    var m := s.messages[key];
    if IsLastPart(m, recipient, req) {
      PlacedTables(s, key, recipient, req, cfg, now);
      LastPartOrderIff(s, key, Placed(m, req, now), cfg, clock, now);
    } else {
      assert MessageOk(key.sender, m, s.nextMessageId, clock);
      OtherPartKeepsOrder(s, key, recipient, req, cfg, clock, now);
    }
  }

  lemma StoreKeepsOrder(s: State, key: MessageKey, m: Message)
    requires Ordered(s) && RowsOk(s) && key in s.messages && MessageEvolves(s.messages[key], m)
    ensures Ordered(s.(messages := s.messages[key := m]))
  {
    var t := s.(messages := s.messages[key := m]);
    SamePlaces(s, t);
    MessageUpdateEvolves(s, key, m, s.nextMessageId);
    KeptPlacesKeepOrder(s, t);
  }

  /** A message that begins with this part has a later id than every head's. */
  lemma NewestPrecedesNothing(s: State, sid: SessionId, clock: Time, now: Time)
    requires Inv(s, clock)
    ensures !Precedes(s, sid, s.nextMessageId, now)
  {
    forall h | IsHead(s, sid, h) ensures RowOrder(s, h) < s.nextMessageId {
      assert RowLinksOk(s, h);
      assert MessageOk(h.message.sender, s.messages[h.message], s.nextMessageId, clock);
    }
  }

  lemma NewMessageKeepsOrder(s: State, key: MessageKey, recipient: UserId, req: PartRequest, cfg: Settings,
                             clock: Time, now: Time)
    requires Ordered(s) && Inv(s, clock) && clock <= now && cfg.Valid() && key !in s.messages
    requires recipient != key.sender && ValidPartNumbering(req.partNumber, req.partCount) && IsValidPartText(req.text)
    ensures Ordered(PlacePart(FindOrCreateMessage(s, key, recipient, req), key, recipient, req, cfg, now).0)
  {
    var s1 := FindOrCreateMessage(s, key, recipient, req);
    CreateKeepsInv(s, key, recipient, req, clock);
    SamePlaces(s, s1);
    KeptPlacesKeepOrder(s, s1);
    forall sid ensures !Precedes(s1, sid, s.nextMessageId, now) {
      NewestPrecedesNothing(s, sid, clock, now);
      forall k | k in s.deliveries ensures SameTurn(s, s1, k) {
        EvolvedTurn(s, s1, k);
      }
      SamePrecedence(s, s1, sid, s.nextMessageId, now);
    }
    PlacedOrderIff(s1, key, recipient, req, cfg, clock, now);
  }

  lemma CompletesIsLastPart(s: State, req: PartRequest)
    requires SignedInUser(s, req.device).Some? && req.recipient.Some? && req.recipient != SignedInUser(s, req.device)
    requires ValidPartNumbering(req.partNumber, req.partCount) && IsValidPartText(req.text)
    ensures var key := MessageKey(SignedInUser(s, req.device).value, req.clientId);
      Completes(s, req) <==> key in s.messages && IsLastPart(s.messages[key], req.recipient.value, req)
  {
    var key := MessageKey(SignedInUser(s, req.device).value, req.clientId);
    if key in s.messages && !Conflicts(s.messages[key], req.recipient.value, req) {
      var m := s.messages[key];
      var stored := StorePart(m, req);
      assert stored.partTexts[req.partNumber - 1].Some?;
      assert forall i | 0 <= i < |m.partTexts| && i != req.partNumber - 1 :: stored.partTexts[i] == m.partTexts[i];
    }
  }

  lemma PartOrderIff(s: State, req: PartRequest, cfg: Settings, clock: Time, now: Time)
    requires Ordered(s) && Inv(s, clock) && clock <= now && cfg.Valid()
    ensures Ordered(AcceptPart(s, req, cfg, now).0) <==> !BreaksTie(s, PartArrives(req), now)
  {
    var user := SignedInUser(s, req.device);
    if user.Some? && req.recipient.Some? && req.recipient != user
       && ValidPartNumbering(req.partNumber, req.partCount) && IsValidPartText(req.text)
    {
      var key := MessageKey(user.value, req.clientId);
      CompletesIsLastPart(s, req);
      if key in s.messages {
        PlacedOrderIff(s, key, req.recipient.value, req, cfg, clock, now);
      } else {
        NewMessageKeepsOrder(s, key, req.recipient.value, req, cfg, clock, now);
      }
    }
  }

  // ----- every step and every run -------------------------------------------------------------------

  lemma StepKeepsPlaces(s: State, step: Step, cfg: Settings, now: Time)
    requires !step.PartArrives? && !step.StatusArrives? && !step.ReadArrives? && !step.RefreshArrives?
    ensures PlacesKept(s, Apply(s, step, cfg, now))
  {
    match step
    case PacketPrepared(cands) => PrepareKeepsPlaces(s, cands, cfg, now);
    case OutcomeRecorded(id, outcome) => OutcomeKeepsPlaces(s, id, outcome, cfg, now);
    case DeviceLinked(device, user) => LinkKeepsPlaces(s, device, user);
    case _ => SamePlaces(s, Apply(s, step, cfg, now));
  }

  lemma OtherStepKeepsOrder(s: State, step: Step, cfg: Settings, clock: Time, now: Time)
    requires Ordered(s) && Inv(s, clock) && clock <= now && cfg.Valid() && Enabled(s, step, cfg, now)
    requires !step.PartArrives? && !step.StatusArrives? && !step.ReadArrives? && !step.RefreshArrives?
    ensures Ordered(Apply(s, step, cfg, now))
  {
    StepKeepsPlaces(s, step, cfg, now);
    StepKeepsInv(s, step, cfg, clock, now);
    KeptPlacesKeepOrder(s, Apply(s, step, cfg, now));
  }

  lemma ReportStepKeepsOrder(s: State, step: Step, cfg: Settings, now: Time)
    requires Ordered(s) && RowsOk(s) && SessionsOk(s) && (step.StatusArrives? || step.ReadArrives?)
    ensures Ordered(Apply(s, step, cfg, now))
  {
    match step
    case StatusArrives(device, sender, clientId, received) =>
      StatusKeepsOrder(s, device, sender, clientId, received, cfg, now);
    case ReadArrives(device, sender, clientId) => ReadKeepsOrder(s, device, sender, clientId, cfg, now);
  }

  lemma RefreshStepKeepsOrder(s: State, step: Step, cfg: Settings, clock: Time, now: Time)
    requires Ordered(s) && Inv(s, clock) && clock <= now && cfg.Valid() && Enabled(s, step, cfg, now)
    requires step.RefreshArrives?
    ensures Ordered(Apply(s, step, cfg, now))
  {
    ClockKeepsInv(s, clock, now);
    RefreshKeepsOrder(s, step.device, step.target, step.peers, cfg, now);
  }

  /**
   A transaction keeps every session in order if and only if it does not complete an earlier
   upload at a head's own time.
   */
  lemma StepKeepsOrderIff(s: State, step: Step, cfg: Settings, clock: Time, now: Time)
    requires Ordered(s) && Inv(s, clock) && clock <= now && cfg.Valid() && Enabled(s, step, cfg, now)
    ensures Ordered(Apply(s, step, cfg, now)) <==> !BreaksTie(s, step, now)
  {
    if step.PartArrives? {
      PartOrderIff(s, step.request, cfg, clock, now);
    } else if step.StatusArrives? || step.ReadArrives? {
      ReportStepKeepsOrder(s, step, cfg, now);
    } else if step.RefreshArrives? {
      RefreshStepKeepsOrder(s, step, cfg, clock, now);
    } else {
      OtherStepKeepsOrder(s, step, cfg, clock, now);
    }
  }

  lemma EventKeepsOrderIff(v: Snapshot, e: Event)
    requires InOrder(v) && Ordered(v.tables) && CanHappen(v, e)
    ensures Ordered(Next()(v, e).tables) <==> !BreaksTie(v.tables, e.step, e.now)
  {
    StepKeepsOrderIff(v.tables, e.step, e.cfg, v.clock, e.now);
  }

  /** The sessions are in order after the first i events. */
  ghost predicate OrderedAfter(w: Snapshot, events: seq<Event>, i: nat)
    requires i <= |events|
  {
    Ordered(Final(w, events[..i]).tables)
  }

  /** The event with this index breaks a tie in the state it meets. */
  ghost predicate TieAt(w: Snapshot, events: seq<Event>, i: nat)
    requires i < |events|
  {
    BreaksTie(Final(w, events[..i]).tables, events[i].step, events[i].now)
  }

  lemma OneMoreOrderIff(w: Snapshot, events: seq<Event>, i: nat)
    requires InOrder(w) && IsRun(w, events) && i < |events| && OrderedAfter(w, events, i)
    ensures OrderedAfter(w, events, i + 1) <==> !TieAt(w, events, i)
  {
    SplitRun(w, events, i + 1);
    assert events[..i + 1][..i] == events[..i];
    LastEvent(w, events[..i + 1]);
    RunKeepsInv(w, events[..i]);
    EventKeepsOrderIff(Final(w, events[..i]), events[i]);
  }

  lemma {:induction false} OrderedUpTo(w: Snapshot, events: seq<Event>, i: nat)
    requires InOrder(w) && Ordered(w.tables) && IsRun(w, events) && i <= |events|
    requires forall j | 0 <= j < i :: !TieAt(w, events, j)
    ensures OrderedAfter(w, events, i)
  {
    if i == 0 {
      assert events[..0] == [];
      assert Final(w, []) == w;
    } else {
      OrderedUpTo(w, events, i - 1);
      OneMoreOrderIff(w, events, i - 1);
    }
  }

  /** Over every run: the sessions are in order after each event if and only if no event breaks a tie. */
  lemma RunKeepsOrderIff(w: Snapshot, events: seq<Event>)
    requires InOrder(w) && Ordered(w.tables) && IsRun(w, events)
    ensures (forall i | 0 <= i <= |events| :: OrderedAfter(w, events, i)) <==>
      (forall i | 0 <= i < |events| :: !TieAt(w, events, i))
  {
    if forall i | 0 <= i < |events| :: !TieAt(w, events, i) {
      forall i | 0 <= i <= |events| ensures OrderedAfter(w, events, i) {
        OrderedUpTo(w, events, i);
      }
    } else {
      var i :| 0 <= i < |events| && TieAt(w, events, i);
      if OrderedAfter(w, events, i) {
        OneMoreOrderIff(w, events, i);
      }
    }
  }

  /** A head accepted before now ties with nothing accepted now. */
  lemma TieNeedsEqualTimes(s: State, step: Step, clock: Time, now: Time)
    requires Inv(s, clock) && clock < now
    ensures !BreaksTie(s, step, now)
  {
    forall sid, id ensures !Precedes(s, sid, id, now) {
      forall h | IsHead(s, sid, h) ensures AcceptedAt(s, h) < now {
        AcceptedBefore(s, clock, h);
      }
    }
  }

  /** The clock moved on before every event of the run. */
  ghost predicate NoEqualTimes(w: Snapshot, events: seq<Event>) {
    forall i | 0 <= i < |events| :: Final(w, events[..i]).clock < events[i].now
  }

  /** While no two transactions share a time, the strict order holds after every run. */
  lemma DistinctTimesKeepOrder(w: Snapshot, events: seq<Event>)
    requires InOrder(w) && Ordered(w.tables) && IsRun(w, events) && NoEqualTimes(w, events)
    ensures Ordered(Final(w, events).tables)
  {
    forall i | 0 <= i < |events| ensures !TieAt(w, events, i) {
      SplitRun(w, events, i);
      RunKeepsInv(w, events[..i]);
      TieNeedsEqualTimes(Final(w, events[..i]).tables, events[i].step, Final(w, events[..i]).clock, events[i].now);
    }
    OrderedUpTo(w, events, |events|);
    assert events[..|events|] == events;
  }
}
