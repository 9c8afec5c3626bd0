/** What an F leaves behind: everything the device lacks of the conversation is on its way, and nothing else moved. */
module RefreshScope {
  import opened Options
  import opened Times
  import opened RetrySchedule
  import opened Tables
  import opened DeliveryRows
  import opened Transitions
  import opened Invariants
  import opened SessionProofs
  import opened StepProofs
  import opened MessageEffects
  import opened RefreshReplies

  /** Nobody is sending this row: it was given up, cancelled, or is pending without a session. */
  predicate IsIdle(d: Delivery) {
    d.state.Failed? || d.state.Cancelled? || (d.state.Pending? && d.session.None?)
  }

  /** The row belongs to the conversation of the device's user with the peer. */
  predicate IsOfConversation(s: State, device: DeviceId, user: UserId, peer: UserId, k: RowKey) {
    && k.device == device && k.message.sender == peer
    && k.message in s.messages && s.messages[k.message].recipient == user
  }

  /** An accepted message of the conversation that was delivered nowhere, or whose row here is idle. */
  predicate Lacks(s: State, device: DeviceId, user: UserId, peer: UserId, key: MessageKey) {
    && key in s.messages && key.sender == peer
    && s.messages[key].recipient == user && s.messages[key].acceptedAt.Some?
    && (|| s.messages[key].deliveredAt.None?
        || (RowKey(key, device) in s.deliveries && IsIdle(s.deliveries[RowKey(key, device)])))
  }

  function Lacking(s: State, device: DeviceId, user: UserId, peer: UserId): set<MessageKey> {
    set key | key in s.messages && Lacks(s, device, user, peer, key)
  }

  predicate NoSession(s: State, device: DeviceId, peer: UserId) {
    forall sid | sid in s.sessions :: !IsActiveSession(s, sid, device, peer)
  }

  /** The row is on its way under an active session of the conversation. */
  predicate IsOnItsWay(t: State, device: DeviceId, peer: UserId, k: RowKey) {
    && k in t.deliveries
    && (t.deliveries[k].state.Pending? || t.deliveries[k].state.Queued?)
    && t.deliveries[k].session.Some? && IsActiveSession(t, t.deliveries[k].session.value, device, peer)
  }

  /** No attempt made, in a new arm; what the device reported is still known, unless the row had been cancelled. */
  predicate BeginsAgain(s: State, t: State, k: RowKey) {
    && k in t.deliveries
    && var e := t.deliveries[k];
    && e.attemptCount == 0 && e.roundParts == {} && e.roundStartedAt.None?
    && (k in s.deliveries ==>
          && s.deliveries[k].armGeneration < e.armGeneration
          && e.receivedParts == (if s.deliveries[k].state.Cancelled? then {} else s.deliveries[k].receivedParts))
    && (k !in s.deliveries ==> e.receivedParts == {})
  }

  /** From s to t: whatever the device lacked begins again and is on its way, and no row of the conversation is idle. */
  ghost predicate TookAll(s: State, t: State, device: DeviceId, user: UserId, peer: UserId) {
    && (forall key | Lacks(s, device, user, peer, key) ::
          IsOnItsWay(t, device, peer, RowKey(key, device)) && BeginsAgain(s, t, RowKey(key, device)))
    && (forall k | k in t.deliveries && IsOfConversation(t, device, user, peer, k) :: !IsIdle(t.deliveries[k]))
  }

  // ----- the queries find exactly what is lacking -----------------------------------------------------------

  /** Without a session of the conversation, an owned row is not live. */
  lemma UnownedWithoutSession(s: State, device: DeviceId, peer: UserId, k: RowKey)
    requires RowsOk(s) && NoSession(s, device, peer) && k in s.deliveries && k.device == device
      && k.message.sender == peer
    ensures s.deliveries[k].state.Delivered? || IsIdle(s.deliveries[k])
  {
    assert RowLinksOk(s, k) && RowCountersOk(s.deliveries[k], s.messages[k.message].Parts());
  }

  lemma LackingIsScope(s: State, device: DeviceId, user: UserId, peer: UserId, k: RowKey)
    requires RowsOk(s) && DeliveredOk(s) && NoSession(s, device, peer)
    ensures k in TakenKeys(s, device, user, peer) + MissedKeys(s, device, user, peer) <==>
      k.device == device && Lacks(s, device, user, peer, k.message)
  {
    if k in s.deliveries {
      if k.device == device && k.message.sender == peer {
        UnownedWithoutSession(s, device, peer, k);
      }
    } else {
      MissedIs(s, device, user, peer, k);
    }
  }

  lemma MissedIs(s: State, device: DeviceId, user: UserId, peer: UserId, k: RowKey)
    ensures k in MissedKeys(s, device, user, peer) <==>
      && k.device == device && k.message in s.messages && k.message.sender == peer
      && s.messages[k.message].recipient == user && s.messages[k.message].acceptedAt.Some?
      && s.messages[k.message].deliveredAt.None? && k !in s.deliveries
  {
    if k.device == device {
      assert k == RowKey(k.message, device);
    }
  }

  lemma {:induction false} RowsOfKeys(keys: set<MessageKey>, rows: set<RowKey>, device: DeviceId)
    requires forall k :: k in rows <==> k.device == device && k.message in keys
    ensures |rows| == |keys|
  {
    if keys == {} {
      assert rows == {};
    } else {
      var key :| key in keys;
      assert RowKey(key, device) in rows;
      RowsOfKeys(keys - {key}, rows - {RowKey(key, device)}, device);
    }
  }

  lemma LackingCount(s: State, device: DeviceId, user: UserId, peer: UserId)
    requires RowsOk(s) && DeliveredOk(s) && NoSession(s, device, peer)
    ensures |Lacking(s, device, user, peer)| ==
      |TakenKeys(s, device, user, peer)| + |MissedKeys(s, device, user, peer)|
  {
    var taken, missed := TakenKeys(s, device, user, peer), MissedKeys(s, device, user, peer);
    forall k: RowKey ensures k in taken + missed <==>
      k.device == device && k.message in Lacking(s, device, user, peer) {
      LackingIsScope(s, device, user, peer, k);
    }
    RowsOfKeys(Lacking(s, device, user, peer), taken + missed, device);
    QueriesGiveScope(s, device, user, peer);
    assert |taken + missed| == |taken| + |missed|;
  }

  // ----- one conversation -----------------------------------------------------------------------------------

  /** Outside the scope, opening a session and arming its head keeps every row. */
  lemma AdvanceKeepsForeignRow(s: State, sid: SessionId, cfg: Settings, now: Time, k: RowKey)
    requires !Owns(s, sid, k)
    ensures var t := AdvanceSession(s, sid, cfg, now);
      (k in t.deliveries <==> k in s.deliveries) && (k in s.deliveries ==> t.deliveries[k] == s.deliveries[k])
  {
    var n := NextHead(s, sid);
    assert n.Some? ==> IsQueued(s, sid, n.value);
  }

  lemma RowsOutsideScope(s: State, device: DeviceId, user: UserId, peer: UserId, cfg: Settings, now: Time, k: RowKey)
    requires RowsOk(s) && SessionsOk(s)
    requires k !in TakenKeys(s, device, user, peer) && k !in MissedKeys(s, device, user, peer)
    ensures var t := AdvanceSession(OpenSession(s, device, user, peer, cfg), s.nextSessionId, cfg, now);
      (k in t.deliveries <==> k in s.deliveries) && (k in s.deliveries ==> t.deliveries[k] == s.deliveries[k])
  {
    var taken, missed := TakenKeys(s, device, user, peer), MissedKeys(s, device, user, peer);
    QueriesGiveScope(s, device, user, peer);
    OpenRowAt(s, device, user, peer, taken, missed, cfg, k);
    FreshSessionOwnsNothing(s, k);
    AdvanceKeepsForeignRow(OpenScope(s, device, peer, taken, missed, cfg), s.nextSessionId, cfg, now, k);
  }

  lemma OutstandingIsOnItsWay(t: State, device: DeviceId, peer: UserId, sid: SessionId, k: RowKey)
    requires IsActiveSession(t, sid, device, peer) && k in Outstanding(t, sid)
    ensures IsOnItsWay(t, device, peer, k)
  {
  }

  lemma ScopeIsOnItsWay(s: State, device: DeviceId, user: UserId, peer: UserId, cfg: Settings, now: Time, k: RowKey)
    requires RowsOk(s) && SessionsOk(s)
    requires k in TakenKeys(s, device, user, peer) + MissedKeys(s, device, user, peer)
    ensures IsOnItsWay(AdvanceSession(OpenSession(s, device, user, peer, cfg), s.nextSessionId, cfg, now), device,
      peer, k)
  {
    var taken, missed := TakenKeys(s, device, user, peer), MissedKeys(s, device, user, peer);
    QueriesGiveScope(s, device, user, peer);
    assert taken != {} || missed != {};
    OpenedScopeIsOutstanding(s, device, user, peer, taken, missed, cfg, now);
    OutstandingIsOnItsWay(AdvanceSession(OpenScope(s, device, peer, taken, missed, cfg), s.nextSessionId, cfg, now),
      device, peer, s.nextSessionId, k);
  }

  lemma OpenedRowBeginsAgain(s: State, device: DeviceId, user: UserId, peer: UserId, cfg: Settings, k: RowKey)
    requires k in TakenKeys(s, device, user, peer) + MissedKeys(s, device, user, peer)
    ensures var t := OpenSession(s, device, user, peer, cfg);
      BeginsAgain(s, t, k) && t.deliveries[k].state.Queued?
  {
    MissedIs(s, device, user, peer, k);
  }

  lemma ArmedRowBeginsAgain(s: State, t: State, sid: SessionId, cfg: Settings, now: Time, k: RowKey)
    requires BeginsAgain(s, t, k) && t.deliveries[k].state.Queued?
    ensures BeginsAgain(s, AdvanceSession(t, sid, cfg, now), k)
  {
  }

  lemma OpeningTakesAll(s: State, device: DeviceId, user: UserId, peer: UserId, cfg: Settings, now: Time)
    requires RowsOk(s) && DeliveredOk(s) && SessionsOk(s) && NoSession(s, device, peer)
    ensures TookAll(s, AdvanceSession(OpenSession(s, device, user, peer, cfg), s.nextSessionId, cfg, now), device,
      user, peer)
  {
    var t := AdvanceSession(OpenSession(s, device, user, peer, cfg), s.nextSessionId, cfg, now);
    forall key | Lacks(s, device, user, peer, key)
      ensures IsOnItsWay(t, device, peer, RowKey(key, device)) && BeginsAgain(s, t, RowKey(key, device))
    {
      LackingIsScope(s, device, user, peer, RowKey(key, device));
      ScopeIsOnItsWay(s, device, user, peer, cfg, now, RowKey(key, device));
      OpenedRowBeginsAgain(s, device, user, peer, cfg, RowKey(key, device));
      ArmedRowBeginsAgain(s, OpenSession(s, device, user, peer, cfg), s.nextSessionId, cfg, now, RowKey(key, device));
    }
    AdvanceTouches(OpenSession(s, device, user, peer, cfg), s.nextSessionId, cfg, now);
    forall k | k in t.deliveries && IsOfConversation(t, device, user, peer, k) ensures !IsIdle(t.deliveries[k]) {
      ConversationRowMoves(s, device, user, peer, cfg, now, k);
    }
  }

  lemma ConversationRowMoves(s: State, device: DeviceId, user: UserId, peer: UserId, cfg: Settings, now: Time,
                             k: RowKey)
    requires RowsOk(s) && DeliveredOk(s) && SessionsOk(s) && NoSession(s, device, peer)
    requires IsOfConversation(s, device, user, peer, k)
    ensures var t := AdvanceSession(OpenSession(s, device, user, peer, cfg), s.nextSessionId, cfg, now);
      k in t.deliveries ==> !IsIdle(t.deliveries[k])
  {
    LackingIsScope(s, device, user, peer, k);
    if k in TakenKeys(s, device, user, peer) + MissedKeys(s, device, user, peer) {
      ScopeIsOnItsWay(s, device, user, peer, cfg, now, k);
    } else {
      RowsOutsideScope(s, device, user, peer, cfg, now, k);
      if k in s.deliveries {
        assert RowLinksOk(s, k);
      }
    }
  }

  lemma NothingLacking(s: State, device: DeviceId, user: UserId, peer: UserId)
    requires RowsOk(s) && DeliveredOk(s) && NoSession(s, device, peer)
    requires |TakenKeys(s, device, user, peer)| + |MissedKeys(s, device, user, peer)| == 0
    ensures TookAll(s, s, device, user, peer)
  {
    assert TakenKeys(s, device, user, peer) == {} && MissedKeys(s, device, user, peer) == {};
    forall key ensures !Lacks(s, device, user, peer, key) {
      LackingIsScope(s, device, user, peer, RowKey(key, device));
    }
    forall k | k in s.deliveries && IsOfConversation(s, device, user, peer, k) ensures !IsIdle(s.deliveries[k]) {
      assert RowLinksOk(s, k);
      assert !Lacks(s, device, user, peer, k.message);
      assert k == RowKey(k.message, device);
    }
  }

  /**
   Refreshing a conversation that has no session: everything the device lacks of it is on its way
   under one active session, no row of it is idle, and the count tells how many messages were lacking.
   */
  lemma RefreshTakesAll(s: State, device: DeviceId, user: UserId, peer: UserId, cfg: Settings, now: Time)
    requires Inv(s, now) && NoSession(s, device, peer)
    ensures var r := RefreshPeer(s, device, user, peer, cfg, now);
      TookAll(s, r.0, device, user, peer) && r.1 == |Lacking(s, device, user, peer)|
  {
    LackingCount(s, device, user, peer);
    var a := ActiveSession(s, device, peer);
    assert a.Some? ==> IsActiveSession(s, a.value, device, peer);
    if |TakenKeys(s, device, user, peer)| + |MissedKeys(s, device, user, peer)| == 0 {
      NothingLacking(s, device, user, peer);
    } else {
      OpeningTakesAll(s, device, user, peer, cfg, now);
    }
  }

  /** The head of a session that is refreshed again: due, and from its first attempt on. */
  predicate StartsOver(d: Delivery, e: Delivery, cfg: Settings, now: Time) {
    && e.state.Pending? && e.session == d.session && e.receivedParts == d.receivedParts
    && e.attemptCount == 0 && e.roundParts == {}
    && e.nextAttemptAt.Some? && e.nextAttemptAt.value <= now
    && (d.attemptCount > 0 ==> e.armGeneration == d.armGeneration + 1 && e.maximumAttempts == cfg.maximumAttempts)
    && (d.attemptCount == 0 ==> e.armGeneration == d.armGeneration)
  }

  lemma RestartedHead(d: Delivery, parts: set<nat>, cfg: Settings, now: Time)
    requires RowCountersOk(d, parts) && d.state.Pending? && d.session.Some?
    ensures StartsOver(d, RestartHead(d, cfg, now), cfg, now)
  {
  }

  lemma RestartedSession(s: State, sid: SessionId, head: RowKey, cfg: Settings, now: Time, k: RowKey)
    requires sid in s.sessions && SessionOk(s, sid) && IsHead(s, sid, head)
    ensures var t := RestartSession(s, sid, cfg, now);
      && head in t.deliveries && t.deliveries[head] == RestartHead(s.deliveries[head], cfg, now)
      && (k != head ==> (k in t.deliveries <==> k in s.deliveries)
                        && (k in s.deliveries ==> t.deliveries[k] == s.deliveries[k]))
  {
    assert Head(s, sid) == Some(head);
  }

  /** Refreshing a conversation whose session is active starts its head over and leaves every other row. */
  lemma RefreshStartsHeadOver(s: State, device: DeviceId, user: UserId, peer: UserId, cfg: Settings, now: Time,
                              sid: SessionId, head: RowKey, k: RowKey)
    requires Inv(s, now) && IsActiveSession(s, sid, device, peer) && IsHead(s, sid, head)
    ensures var r := RefreshPeer(s, device, user, peer, cfg, now);
      && head in r.0.deliveries && StartsOver(s.deliveries[head], r.0.deliveries[head], cfg, now)
      && (k != head ==> (k in r.0.deliveries <==> k in s.deliveries)
                        && (k in s.deliveries ==> r.0.deliveries[k] == s.deliveries[k]))
      && r.1 == |Outstanding(s, sid)|
  {
    OnlyActiveSession(s, device, peer, sid);
    RestartedSession(s, sid, head, cfg, now, k);
    assert RowCountersOk(s.deliveries[head], s.messages[head.message].Parts());
    RestartedHead(s.deliveries[head], s.messages[head.message].Parts(), cfg, now);
    RestartKeepsOutstanding(s, sid, cfg, now, sid);
  }

  lemma RestartKeepsOtherRow(s: State, sid: SessionId, cfg: Settings, now: Time, k: RowKey)
    requires !IsHead(s, sid, k)
    ensures var t := RestartSession(s, sid, cfg, now);
      (k in t.deliveries <==> k in s.deliveries) && (k in s.deliveries ==> t.deliveries[k] == s.deliveries[k])
  {
    var h := Head(s, sid);
    assert h.Some? ==> IsHead(s, sid, h.value);
  }

  /** The head of an active session is of its conversation. */
  lemma HeadIsOfConversation(s: State, device: DeviceId, user: UserId, peer: UserId, sid: SessionId, k: RowKey)
    requires RowsOk(s) && IsActiveSession(s, sid, device, peer) && IsHead(s, sid, k)
    requires SignedInUser(s, device) == Some(user)
    ensures IsOfConversation(s, device, user, peer, k)
  {
    assert RowLinksOk(s, k);
  }

  /** Refreshing one conversation changes no row of another. */
  lemma OtherRowsStay(s: State, device: DeviceId, user: UserId, peer: UserId, cfg: Settings, now: Time, k: RowKey)
    requires RowsOk(s) && SessionsOk(s) && SignedInUser(s, device) == Some(user)
    requires !IsOfConversation(s, device, user, peer, k)
    ensures var t := RefreshPeer(s, device, user, peer, cfg, now).0;
      (k in t.deliveries <==> k in s.deliveries) && (k in s.deliveries ==> t.deliveries[k] == s.deliveries[k])
  {
    var a := ActiveSession(s, device, peer);
    if a.Some? {
      if IsHead(s, a.value, k) {
        HeadIsOfConversation(s, device, user, peer, a.value, k);
        assert false;
      }
      RestartKeepsOtherRow(s, a.value, cfg, now, k);
    } else {
      MissedIs(s, device, user, peer, k);
      RowsOutsideScope(s, device, user, peer, cfg, now, k);
    }
  }

  // ----- every conversation ---------------------------------------------------------------------------------

  /** The count a refresh of the conversation must announce. */
  ghost function Expected(s: State, device: DeviceId, user: UserId, peer: UserId): nat {
    match ActiveSession(s, device, peer)
    case Some(sid) => |Outstanding(s, sid)|
    case None => |Lacking(s, device, user, peer)|
  }

  ghost function AllExpected(s: State, device: DeviceId, user: UserId, peers: seq<UserId>): nat {
    if peers == [] then 0 else Expected(s, device, user, peers[0]) + AllExpected(s, device, user, peers[1..])
  }

  /** Both tables agree on the conversation. */
  ghost predicate SameTalk(s: State, t: State, device: DeviceId, peer: UserId) {
    && t.messages == s.messages
    && (forall k: RowKey | k.device == device && k.message.sender == peer ::
          (k in t.deliveries <==> k in s.deliveries) && (k in s.deliveries ==> t.deliveries[k] == s.deliveries[k]))
    && (forall sid :: IsActiveSession(t, sid, device, peer) <==> IsActiveSession(s, sid, device, peer))
  }

  lemma OtherTalkStays(s: State, device: DeviceId, user: UserId, peer: UserId, cfg: Settings, now: Time, other: UserId)
    requires RowsOk(s) && SessionsOk(s) && other != peer && SignedInUser(s, device) == Some(user)
    ensures SameTalk(s, RefreshPeer(s, device, user, peer, cfg, now).0, device, other)
  {
    var t := RefreshPeer(s, device, user, peer, cfg, now).0;
    RefreshPeerKeepsMessages(s, device, user, peer, cfg, now);
    forall k: RowKey | k.device == device && k.message.sender == other
      ensures (k in t.deliveries <==> k in s.deliveries) && (k in s.deliveries ==> t.deliveries[k] == s.deliveries[k])
    {
      OtherRowsStay(s, device, user, peer, cfg, now, k);
    }
    forall sid ensures IsActiveSession(t, sid, device, other) <==> IsActiveSession(s, sid, device, other) {
      OtherSessionsStay(s, device, user, peer, cfg, now, other, sid);
    }
  }

  lemma SameTalkLacksSame(s: State, t: State, device: DeviceId, user: UserId, peer: UserId)
    requires SameTalk(s, t, device, peer)
    ensures Lacking(t, device, user, peer) == Lacking(s, device, user, peer)
    ensures NoSession(t, device, peer) <==> NoSession(s, device, peer)
  {
    forall key ensures Lacks(t, device, user, peer, key) <==> Lacks(s, device, user, peer, key) {
      assert RowKey(key, device).device == device;
    }
    NoSessionIs(s, device, peer);
    NoSessionIs(t, device, peer);
  }

  lemma NoSessionIs(s: State, device: DeviceId, peer: UserId)
    ensures NoSession(s, device, peer) <==> forall sid :: !IsActiveSession(s, sid, device, peer)
  {
  }

  lemma OtherExpectedStays(s: State, device: DeviceId, user: UserId, peer: UserId, cfg: Settings, now: Time,
                           other: UserId)
    requires Inv(s, now) && cfg.Valid() && SignedInUser(s, device) == Some(user) && user != peer && other != peer
    ensures Expected(RefreshPeer(s, device, user, peer, cfg, now).0, device, user, other)
      == Expected(s, device, user, other)
  {
    var t := RefreshPeer(s, device, user, peer, cfg, now).0;
    RefreshPeerKeepsInv(s, device, user, peer, cfg, now);
    OtherTalkStays(s, device, user, peer, cfg, now, other);
    SameTalkLacksSame(s, t, device, user, other);
    SameConversation(s, t, device, other);
    if ActiveSession(s, device, other).Some? {
      OtherOutstandingStays(s, device, user, peer, cfg, now, other, ActiveSession(s, device, other).value);
    }
  }

  lemma {:induction false} ListedExpectedStays(s: State, device: DeviceId, user: UserId, peer: UserId, cfg: Settings,
                                               now: Time, peers: seq<UserId>)
    requires Inv(s, now) && cfg.Valid() && SignedInUser(s, device) == Some(user) && user != peer && peer !in peers
    ensures AllExpected(RefreshPeer(s, device, user, peer, cfg, now).0, device, user, peers) ==
      AllExpected(s, device, user, peers)
  {
    if peers != [] {
      OtherExpectedStays(s, device, user, peer, cfg, now, peers[0]);
      ListedExpectedStays(s, device, user, peer, cfg, now, peers[1..]);
    }
  }

  /** One conversation's count, whether its session is new or running. */
  lemma RefreshCounts(s: State, device: DeviceId, user: UserId, peer: UserId, cfg: Settings, now: Time)
    requires Inv(s, now)
    ensures RefreshPeer(s, device, user, peer, cfg, now).1 == Expected(s, device, user, peer)
  {
    var a := ActiveSession(s, device, peer);
    NoSessionIs(s, device, peer);
    if a.Some? {
      RestartKeepsOutstanding(s, a.value, cfg, now, a.value);
    } else {
      RefreshTakesAll(s, device, user, peer, cfg, now);
    }
  }

  lemma {:induction false} UnlistedTalkStays(s: State, device: DeviceId, user: UserId, peers: seq<UserId>,
                                        cfg: Settings,
                                             now: Time, other: UserId)
    requires Inv(s, now) && cfg.Valid() && SignedInUser(s, device) == Some(user) && user !in peers && other !in peers
    ensures SameTalk(s, RefreshPeers(s, device, user, peers, cfg, now).0, device, other)
    decreases |peers|
  {
    if peers != [] {
      var s1 := RefreshPeer(s, device, user, peers[0], cfg, now).0;
      OtherTalkStays(s, device, user, peers[0], cfg, now, other);
      RefreshPeerKeepsInv(s, device, user, peers[0], cfg, now);
      RefreshPeerKeepsDevices(s, device, user, peers[0], cfg, now);
      UnlistedTalkStays(s1, device, user, peers[1..], cfg, now, other);
      SameTalkTransitive(s, s1, RefreshPeers(s1, device, user, peers[1..], cfg, now).0, device, other);
    }
  }

  lemma SameTalkTransitive(s: State, t: State, u: State, device: DeviceId, peer: UserId)
    requires SameTalk(s, t, device, peer) && SameTalk(t, u, device, peer)
    ensures SameTalk(s, u, device, peer)
  {
  }

  /** What was taken stays taken while the conversation stays the same, and counts from when it began to. */
  lemma TookAllStays(s: State, s1: State, t: State, u: State, device: DeviceId, user: UserId, peer: UserId)
    requires SameTalk(s, s1, device, peer) && TookAll(s1, t, device, user, peer) && SameTalk(t, u, device, peer)
    ensures TookAll(s, u, device, user, peer)
  {
    forall key | Lacks(s, device, user, peer, key)
      ensures IsOnItsWay(u, device, peer, RowKey(key, device)) && BeginsAgain(s, u, RowKey(key, device))
    {
      assert RowKey(key, device).device == device;
      assert Lacks(s1, device, user, peer, key);
      assert IsOnItsWay(t, device, peer, RowKey(key, device));
    }
    forall k | k in u.deliveries && IsOfConversation(u, device, user, peer, k) ensures !IsIdle(u.deliveries[k]) {
      assert k in t.deliveries && IsOfConversation(t, device, user, peer, k);
    }
  }

  lemma SameTalkReflexive(s: State, device: DeviceId, peer: UserId)
    ensures SameTalk(s, s, device, peer)
  {
  }

  predicate Distinct(peers: seq<UserId>) {
    forall i, j | 0 <= i < j < |peers| :: peers[i] != peers[j]
  }

  /** A listed conversation is refreshed once, and nothing before or after changes it. */
  lemma {:induction false} ListedTalk(s: State, device: DeviceId, user: UserId, peers: seq<UserId>, cfg: Settings,
                                      now: Time, peer: UserId) returns (s1: State)
    requires Inv(s, now) && cfg.Valid() && SignedInUser(s, device) == Some(user) && user !in peers
    requires Distinct(peers) && peer in peers
    ensures Inv(s1, now) && SignedInUser(s1, device) == Some(user) && SameTalk(s, s1, device, peer)
    ensures SameTalk(RefreshPeer(s1, device, user, peer, cfg, now).0,
                     RefreshPeers(s, device, user, peers, cfg, now).0, device, peer)
    decreases |peers|
  {
    var first := RefreshPeer(s, device, user, peers[0], cfg, now).0;
    RefreshPeerKeepsInv(s, device, user, peers[0], cfg, now);
    RefreshPeerKeepsDevices(s, device, user, peers[0], cfg, now);
    if peer == peers[0] {
      s1 := s;
      SameTalkReflexive(s, device, peer);
      UnlistedTalkStays(first, device, user, peers[1..], cfg, now, peer);
    } else {
      s1 := ListedTalk(first, device, user, peers[1..], cfg, now, peer);
      OtherTalkStays(s, device, user, peers[0], cfg, now, peer);
      SameTalkTransitive(s, first, s1, device, peer);
    }
  }

  /** Every conversation of the list that has no session yet is taken as a whole. */
  lemma AllTookAll(s: State, device: DeviceId, user: UserId, peers: seq<UserId>, cfg: Settings, now: Time, peer: UserId)
    requires Inv(s, now) && cfg.Valid() && SignedInUser(s, device) == Some(user) && user !in peers
    requires Distinct(peers) && peer in peers && NoSession(s, device, peer)
    ensures TookAll(s, RefreshPeers(s, device, user, peers, cfg, now).0, device, user, peer)
  {
    var s1 := ListedTalk(s, device, user, peers, cfg, now, peer);
    SameTalkLacksSame(s, s1, device, user, peer);
    RefreshTakesAll(s1, device, user, peer, cfg, now);
    TookAllStays(s, s1, RefreshPeer(s1, device, user, peer, cfg, now).0,
      RefreshPeers(s, device, user, peers, cfg, now).0, device, user, peer);
  }

  lemma CountOneOfAll(s: State, device: DeviceId, user: UserId, peers: seq<UserId>, cfg: Settings, now: Time)
    requires Inv(s, now) && cfg.Valid() && SignedInUser(s, device) == Some(user) && user !in peers && peers != []
    requires peers[0] !in peers[1..]
    ensures var r := RefreshPeer(s, device, user, peers[0], cfg, now);
      r.1 + AllExpected(r.0, device, user, peers[1..]) == AllExpected(s, device, user, peers)
  {
    RefreshCounts(s, device, user, peers[0], cfg, now);
    ListedExpectedStays(s, device, user, peers[0], cfg, now, peers[1..]);
  }

  lemma {:induction false} AllCounted(s: State, device: DeviceId, user: UserId, peers: seq<UserId>, cfg: Settings,
                                      now: Time)
    requires Inv(s, now) && cfg.Valid() && SignedInUser(s, device) == Some(user) && user !in peers && Distinct(peers)
    ensures RefreshPeers(s, device, user, peers, cfg, now).1 == AllExpected(s, device, user, peers)
    decreases |peers|
  {
    if peers != [] {
      var s1 := RefreshPeer(s, device, user, peers[0], cfg, now).0;
      CountOneOfAll(s, device, user, peers, cfg, now);
      RefreshPeerKeepsInv(s, device, user, peers[0], cfg, now);
      RefreshPeerKeepsDevices(s, device, user, peers[0], cfg, now);
      AllCounted(s1, device, user, peers[1..], cfg, now);
    }
  }

  // ----- the requests ---------------------------------------------------------------------------------------

  /** "F peer" in a conversation without a session. */
  lemma RefreshOfOneTakesAll(s: State, device: DeviceId, peer: UserId, peers: seq<UserId>, cfg: Settings, clock: Time,
                             now: Time)
    requires Inv(s, clock) && clock <= now && cfg.Valid()
    requires SignedInUser(s, device).Some? && SignedInUser(s, device) != Some(peer) && NoSession(s, device, peer)
    ensures var user, r := SignedInUser(s, device).value, StartRefresh(s, device, OnePeer(Some(peer)), peers, cfg, now);
      TookAll(s, r.0, device, user, peer) && r.1 == |Lacking(s, device, user, peer)|
  {
    var user := SignedInUser(s, device).value;
    ClockKeepsInv(s, clock, now);
    RearmKeepsInv(s, device, user, peer, cfg, now);
    var s1 := RearmReceipts(s, device, user, peer, cfg, now);
    RefreshTakesAll(s1, device, user, peer, cfg, now);
    var t := RefreshPeer(s1, device, user, peer, cfg, now).0;
    RearmKeepsTalk(s, device, user, peer, cfg, now);
    SameTalkLacksSame(s, s1, device, user, peer);
    SameTalkReflexive(t, device, peer);
    TookAllStays(s, s1, t, t, device, user, peer);
  }

  lemma RearmKeepsTalk(s: State, device: DeviceId, user: UserId, peer: UserId, cfg: Settings, now: Time)
    ensures SameTalk(s, RearmReceipts(s, device, user, peer, cfg, now), device, peer)
  {
  }

  /**
   "F *": the conversations listed are those that run a session or lack something; without a
   session, all that is lacking is taken; and the total counts what each of them has to come.
   */
  lemma RefreshOfAllTakesAll(s: State, device: DeviceId, peers: seq<UserId>, cfg: Settings, clock: Time, now: Time,
                             peer: UserId)
    requires Inv(s, clock) && clock <= now && cfg.Valid() && SignedInUser(s, device).Some?
    requires Enabled(s, RefreshArrives(device, AllPeers, peers), cfg, now)
    ensures var user, r := SignedInUser(s, device).value, StartRefresh(s, device, AllPeers, peers, cfg, now);
      && (peer in peers <==> peer != user && (!NoSession(s, device, peer) || Lacking(s, device, user, peer) != {}))
      && (peer in peers && NoSession(s, device, peer) ==> TookAll(s, r.0, device, user, peer))
      && r.1 == AllExpected(s, device, user, peers)
  {
    var user := SignedInUser(s, device).value;
    ClockKeepsInv(s, clock, now);
    OwnUserNotRefreshed(s, device, AllPeers, peers, cfg, now);
    AllCounted(s, device, user, peers, cfg, now);
    ListedPeersAre(s, device, user, peer);
    if NoSession(s, device, peer) && peer in peers {
      AllTookAll(s, device, user, peers, cfg, now, peer);
    }
  }

  lemma LackingPeerIsListed(s: State, device: DeviceId, user: UserId, peer: UserId)
    requires RowsOk(s) && DeliveredOk(s) && NoSession(s, device, peer) && peer != user
    requires Lacking(s, device, user, peer) != {}
    ensures peer in PeersWithMissedMessages(s, device, user)
  {
    var key :| key in Lacking(s, device, user, peer);
    LackingIsScope(s, device, user, peer, RowKey(key, device));
    if RowKey(key, device) in s.deliveries {
      assert TakenOver(s, device, user, RowKey(key, device));
    } else {
      assert Missed(s, device, user, key);
    }
  }

  lemma ListedPeerLacks(s: State, device: DeviceId, user: UserId, peer: UserId)
    requires RowsOk(s) && DeliveredOk(s) && NoSession(s, device, peer)
      && peer in PeersWithMissedMessages(s, device, user)
    ensures Lacking(s, device, user, peer) != {} && peer != user
  {
    if k :| k in s.deliveries && TakenOver(s, device, user, k) && k.message.sender == peer {
      LackingIsScope(s, device, user, peer, k);
      assert k.message in Lacking(s, device, user, peer);
    } else {
      var key :| key in s.messages && Missed(s, device, user, key) && key.sender == peer;
      LackingIsScope(s, device, user, peer, RowKey(key, device));
      assert key in Lacking(s, device, user, peer);
    }
  }

  lemma SessionPeerIsListed(s: State, device: DeviceId, user: UserId, peer: UserId)
    requires !NoSession(s, device, peer) && peer != user
    ensures peer in PeersWithMissedMessages(s, device, user)
  {
    var sid :| sid in s.sessions && IsActiveSession(s, sid, device, peer);
    assert s.sessions[sid].peer == peer;
  }

  /** "F *" lists exactly the conversations that run a session or lack something. */
  lemma ListedPeersAre(s: State, device: DeviceId, user: UserId, peer: UserId)
    requires RowsOk(s) && DeliveredOk(s)
    ensures peer in PeersWithMissedMessages(s, device, user) <==>
      peer != user && (!NoSession(s, device, peer) || Lacking(s, device, user, peer) != {})
  {
    if peer != user && !NoSession(s, device, peer) {
      SessionPeerIsListed(s, device, user, peer);
    } else if peer != user && Lacking(s, device, user, peer) != {} {
      LackingPeerIsListed(s, device, user, peer);
    } else if peer in PeersWithMissedMessages(s, device, user) {
      ListedPeerLacks(s, device, user, peer);
    }
  }

  predicate HeadStartsOver(s: State, t: State, head: RowKey, cfg: Settings, now: Time) {
    head in s.deliveries && head in t.deliveries && StartsOver(s.deliveries[head], t.deliveries[head], cfg, now)
  }

  lemma SameTalkKeepsHead(s: State, t: State, device: DeviceId, peer: UserId, sid: SessionId, head: RowKey)
    requires SameTalk(s, t, device, peer) && IsActiveSession(s, sid, device, peer) && IsHead(s, sid, head)
    requires head.device == device && head.message.sender == peer
    ensures IsActiveSession(t, sid, device, peer) && IsHead(t, sid, head) && t.deliveries[head] == s.deliveries[head]
  {
  }

  lemma ListedHeadStartsOver(s: State, device: DeviceId, user: UserId, peers: seq<UserId>, cfg: Settings, now: Time,
                             peer: UserId, sid: SessionId, head: RowKey)
    requires Inv(s, now) && cfg.Valid() && SignedInUser(s, device) == Some(user) && user !in peers
    requires Distinct(peers) && peer in peers && IsActiveSession(s, sid, device, peer) && IsHead(s, sid, head)
    ensures HeadStartsOver(s, RefreshPeers(s, device, user, peers, cfg, now).0, head, cfg, now)
  {
    var s1 := ListedTalk(s, device, user, peers, cfg, now, peer);
    HeadIsOfConversation(s, device, user, peer, sid, head);
    SameTalkKeepsHead(s, s1, device, peer, sid, head);
    RefreshStartsHeadOver(s1, device, user, peer, cfg, now, sid, head, head);
  }

  /** "F *" starts the head of every session of the device over. */
  lemma RefreshOfAllStartsHeadsOver(s: State, device: DeviceId, peers: seq<UserId>, cfg: Settings, clock: Time,
                                    now: Time, peer: UserId, sid: SessionId, head: RowKey)
    requires Inv(s, clock) && clock <= now && cfg.Valid() && SignedInUser(s, device).Some?
    requires Enabled(s, RefreshArrives(device, AllPeers, peers), cfg, now)
    requires IsActiveSession(s, sid, device, peer) && IsHead(s, sid, head) && SignedInUser(s, device) != Some(peer)
    ensures HeadStartsOver(s, StartRefresh(s, device, AllPeers, peers, cfg, now).0, head, cfg, now)
  {
    var user := SignedInUser(s, device).value;
    ClockKeepsInv(s, clock, now);
    OwnUserNotRefreshed(s, device, AllPeers, peers, cfg, now);
    SessionPeerIsListed(s, device, user, peer);
    ListedHeadStartsOver(s, device, user, peers, cfg, now, peer, sid, head);
  }

  // ----- receipts of the conversation -----------------------------------------------------------------------

  /** A receipt of what this device itself sent to the peer. */
  predicate IsOwnReceipt(s: State, device: DeviceId, user: UserId, peer: UserId, k: RowKey) {
    && k in s.receipts && k.device == device && k.message.sender == user
    && k.message in s.messages && s.messages[k.message].recipient == peer
      && s.messages[k.message].senderDevice == device
  }

  /**
   What an F makes of such a receipt: one not fully confirmed starts over, at the message's level
   if it was cancelled.
   */
  predicate ReceiptStartsOver(r: Receipt, q: Receipt, level: nat, cfg: Settings, now: Time) {
    var target := if r.state.ReceiptCancelled? && r.targetLevel < level then level else r.targetLevel;
    && q.targetLevel == target && q.confirmedLevel == r.confirmedLevel
    && (if r.state.Confirmed? then q == r
        else if r.state.ReceiptCancelled? && r.confirmedLevel == target then q.state.Confirmed?
        else q.state.ReceiptPending? && q.attemptCount == 0 && !q.roundPending && q.nextAttemptAt == Some(now)
             && q.armGeneration == r.armGeneration + 1 && q.maximumAttempts == cfg.maximumAttempts)
  }

  lemma RestartKeepsReceipts(s: State, sid: SessionId, cfg: Settings, now: Time)
    ensures RestartSession(s, sid, cfg, now).receipts == s.receipts
  {
  }

  lemma RefreshPeerKeepsReceipts(s: State, device: DeviceId, user: UserId, peer: UserId, cfg: Settings, now: Time)
    ensures RefreshPeer(s, device, user, peer, cfg, now).0.receipts == s.receipts
  {
    var a := ActiveSession(s, device, peer);
    if a.Some? {
      RestartKeepsReceipts(s, a.value, cfg, now);
    } else {
      AdvanceTouches(OpenSession(s, device, user, peer, cfg), s.nextSessionId, cfg, now);
    }
  }

  lemma {:induction false} RefreshPeersKeepsReceipts(s: State, device: DeviceId, user: UserId, peers: seq<UserId>,
                                                     cfg: Settings, now: Time)
    ensures RefreshPeers(s, device, user, peers, cfg, now).0.receipts == s.receipts
    decreases |peers|
  {
    if peers != [] {
      RefreshPeerKeepsReceipts(s, device, user, peers[0], cfg, now);
      RefreshPeersKeepsReceipts(RefreshPeer(s, device, user, peers[0], cfg, now).0, device, user, peers[1..], cfg, now);
    }
  }

  lemma RearmedReceipt(s: State, device: DeviceId, user: UserId, peer: UserId, cfg: Settings, now: Time, k: RowKey)
    requires k in s.receipts
    ensures var t := RearmReceipts(s, device, user, peer, cfg, now);
      && k in t.receipts
      && (if IsOwnReceipt(s, device, user, peer, k)
          then ReceiptStartsOver(s.receipts[k], t.receipts[k], s.messages[k.message].Level(), cfg, now)
          else t.receipts[k] == s.receipts[k])
  {
  }

  /**
   An F for one peer starts exactly the device's own receipts of that conversation over; no other F
   touches a receipt.
   */
  lemma RefreshStartsReceiptsOver(s: State, device: DeviceId, target: RefreshTarget, peers: seq<UserId>, cfg: Settings,
                                  now: Time, k: RowKey)
    requires k in s.receipts
    ensures var user := SignedInUser(s, device);
      var t := StartRefresh(s, device, target, peers, cfg, now).0;
      && k in t.receipts
      && (if user.Some? && target.OnePeer? && target.peer.Some? && target.peer != user
             && IsOwnReceipt(s, device, user.value, target.peer.value, k)
          then ReceiptStartsOver(s.receipts[k], t.receipts[k], s.messages[k.message].Level(), cfg, now)
          else t.receipts[k] == s.receipts[k])
  {
    var user := SignedInUser(s, device);
    if user.Some? && target.AllPeers? {
      RefreshPeersKeepsReceipts(s, device, user.value, peers, cfg, now);
    } else if user.Some? && target.peer.Some? && target.peer != user {
      RearmedReceipt(s, device, user.value, target.peer.value, cfg, now, k);
      RefreshPeerKeepsReceipts(RearmReceipts(s, device, user.value, target.peer.value, cfg, now), device, user.value,
        target.peer.value, cfg, now);
    }
  }
}
