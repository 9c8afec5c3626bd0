/** What an F announces. */
module RefreshReplies {
  import opened Options
  import opened Times
  import opened RetrySchedule
  import opened Tables
  import opened Transitions
  import opened Invariants
  import opened SessionProofs
  import opened StepProofs

  /** The messages a device still waits for in its refresh of a conversation. */
  ghost function StillToCome(s: State, device: DeviceId, peer: UserId): nat {
    match ActiveSession(s, device, peer)
    case None => 0
    case Some(sid) => |Outstanding(s, sid)|
  }

  lemma OnlyActiveSession(s: State, device: DeviceId, peer: UserId, sid: SessionId)
    requires SingleSessions(s) && IsActiveSession(s, sid, device, peer)
    ensures ActiveSession(s, device, peer) == Some(sid)
  {
  }

  lemma RestartKeepsSessionTable(s: State, sid: SessionId, cfg: Settings, now: Time)
    ensures RestartSession(s, sid, cfg, now).sessions == s.sessions
  {
  }

  /** A new session's whole scope is outstanding once its first head is armed. */
  lemma OpenedScopeIsOutstanding(s: State, device: DeviceId, user: UserId, peer: UserId, taken: set<RowKey>,
                                 missed: set<RowKey>, cfg: Settings, now: Time)
    requires RowsOk(s) && SessionsOk(s) && IsScope(s, device, user, peer, taken, missed) && |taken| + |missed| > 0
    ensures var t := AdvanceSession(OpenScope(s, device, peer, taken, missed, cfg), s.nextSessionId, cfg, now);
      && IsActiveSession(t, s.nextSessionId, device, peer)
      && Outstanding(t, s.nextSessionId) == taken + missed
      && |Outstanding(t, s.nextSessionId)| == |taken| + |missed|
  {
    var sid := s.nextSessionId;
    var s1 := OpenScope(s, device, peer, taken, missed, cfg);
    forall k ensures !Owns(s, sid, k) {
      FreshSessionOwnsNothing(s, k);
    }
    OpenedSessionOwnsScope(s, device, user, peer, taken, missed, cfg);
    var k :| k in Owned(s1, sid);
    NextHeadExists(s1, sid, k);
    var t := AdvanceSession(s1, sid, cfg, now);
    ArmedScope(s1, sid, cfg, now);
    assert |taken + missed| == |taken| + |missed|;
  }

  lemma ArmedScope(s: State, sid: SessionId, cfg: Settings, now: Time)
    requires NextHead(s, sid).Some? && forall k | k in Owned(s, sid) :: IsQueued(s, sid, k)
    ensures Outstanding(AdvanceSession(s, sid, cfg, now), sid) == Owned(s, sid)
  {
    var t := AdvanceSession(s, sid, cfg, now);
    var h := NextHead(s, sid).value;
    assert IsQueued(s, sid, h);
    forall k ensures k in Outstanding(t, sid) <==> k in Owned(s, sid) {
      assert k != h ==> (k in t.deliveries <==> k in s.deliveries);
    }
  }

  /**
   "f peer count" announces exactly the messages that are still to come in the conversation's
   session, new or running.
   */
  lemma RefreshAnnouncesWhatFollows(s: State, device: DeviceId, user: UserId, peer: UserId, cfg: Settings, now: Time)
    requires Inv(s, now) && cfg.Valid() && SignedInUser(s, device) == Some(user) && user != peer
    ensures var r := RefreshPeer(s, device, user, peer, cfg, now);
      r.1 == StillToCome(r.0, device, peer)
  {
    RefreshPeerKeepsInv(s, device, user, peer, cfg, now);
    var r := RefreshPeer(s, device, user, peer, cfg, now);
    var a := ActiveSession(s, device, peer);
    if a.Some? {
      RestartKeepsSessionTable(s, a.value, cfg, now);
      OnlyActiveSession(r.0, device, peer, a.value);
    } else {
      var taken, missed := TakenKeys(s, device, user, peer), MissedKeys(s, device, user, peer);
      if |taken| + |missed| > 0 {
        QueriesGiveScope(s, device, user, peer);
        OpenedScopeIsOutstanding(s, device, user, peer, taken, missed, cfg, now);
        OnlyActiveSession(r.0, device, peer, s.nextSessionId);
      }
    }
  }

  // ----- every conversation of a device -----------------------------------------------------------

  lemma SameOutstanding(s: State, t: State, sid: SessionId)
    requires forall k :: IsHead(t, sid, k) || IsQueued(t, sid, k) <==> IsHead(s, sid, k) || IsQueued(s, sid, k)
    ensures Outstanding(t, sid) == Outstanding(s, sid)
  {
  }

  lemma AdvanceKeepsOutstanding(s: State, sid: SessionId, other: SessionId, cfg: Settings, now: Time)
    requires other != sid
    ensures Outstanding(AdvanceSession(s, sid, cfg, now), other) == Outstanding(s, other)
  {
    var t := AdvanceSession(s, sid, cfg, now);
    forall k ensures IsHead(t, other, k) || IsQueued(t, other, k) <==> IsHead(s, other, k) || IsQueued(s, other, k) {
      AdvanceKeepsPlaces(s, sid, other, cfg, now, k);
    }
    SameOutstanding(s, t, other);
  }

  lemma OpenKeepsPlaces(s: State, device: DeviceId, user: UserId, peer: UserId, taken: set<RowKey>, missed: set<RowKey>,
                        cfg: Settings, other: SessionId, k: RowKey)
    requires RowsOk(s) && IsScope(s, device, user, peer, taken, missed)
    requires other in s.sessions && s.sessions[other].state.Active? && other < s.nextSessionId
    ensures var t := OpenScope(s, device, peer, taken, missed, cfg);
      (IsHead(t, other, k) <==> IsHead(s, other, k)) && (IsQueued(t, other, k) <==> IsQueued(s, other, k))
  {
    OpenKeepsOwned(s, device, user, peer, taken, missed, cfg, other, k);
  }

  lemma OpenKeepsOutstanding(s: State, device: DeviceId, user: UserId, peer: UserId, cfg: Settings, other: SessionId)
    requires RowsOk(s) && SessionsOk(s) && other in s.sessions && s.sessions[other].state.Active?
    ensures Outstanding(OpenSession(s, device, user, peer, cfg), other) == Outstanding(s, other)
  {
    var taken, missed := TakenKeys(s, device, user, peer), MissedKeys(s, device, user, peer);
    QueriesGiveScope(s, device, user, peer);
    assert SessionLinksOk(s, other);
    var t := OpenScope(s, device, peer, taken, missed, cfg);
    forall k ensures IsHead(t, other, k) || IsQueued(t, other, k) <==> IsHead(s, other, k) || IsQueued(s, other, k) {
      OpenKeepsPlaces(s, device, user, peer, taken, missed, cfg, other, k);
    }
    SameOutstanding(s, t, other);
  }

  lemma RestartKeepsOutstanding(s: State, sid: SessionId, cfg: Settings, now: Time, other: SessionId)
    ensures Outstanding(RestartSession(s, sid, cfg, now), other) == Outstanding(s, other)
  {
    var t := RestartSession(s, sid, cfg, now);
    forall k ensures k in Outstanding(t, other) <==> k in Outstanding(s, other) {
    }
  }

  lemma AdvanceKeepsOtherRecords(s: State, sid: SessionId, cfg: Settings, now: Time, other: SessionId)
    ensures var t := AdvanceSession(s, sid, cfg, now);
      && (other in t.sessions <==> other in s.sessions)
      && (other in s.sessions && other != sid ==> t.sessions[other] == s.sessions[other])
      && (other in s.sessions ==> t.sessions[other].peer == s.sessions[other].peer)
  {
  }

  /** Opening a session leaves the records of all others. */
  lemma OpenedRecords(s: State, device: DeviceId, user: UserId, peer: UserId, cfg: Settings, now: Time, sid: SessionId)
    requires s.nextSessionId !in s.sessions
    ensures var t := AdvanceSession(OpenSession(s, device, user, peer, cfg), s.nextSessionId, cfg, now);
      && (sid != s.nextSessionId ==> (sid in t.sessions <==> sid in s.sessions))
      && (sid in s.sessions ==> t.sessions[sid] == s.sessions[sid])
      && (s.nextSessionId in t.sessions ==> t.sessions[s.nextSessionId].peer == peer)
  {
    AdvanceKeepsOtherRecords(OpenSession(s, device, user, peer, cfg), s.nextSessionId, cfg, now, sid);
    AdvanceKeepsOtherRecords(OpenSession(s, device, user, peer, cfg), s.nextSessionId, cfg, now, s.nextSessionId);
  }

  /** Refreshing one conversation starts or ends no session of another. */
  lemma OtherSessionsStay(s: State, device: DeviceId, user: UserId, peer: UserId, cfg: Settings, now: Time,
                          other: UserId, sid: SessionId)
    requires SessionsOk(s) && other != peer
    ensures IsActiveSession(s, sid, device, other) <==>
      IsActiveSession(RefreshPeer(s, device, user, peer, cfg, now).0, sid, device, other)
  {
    var a := ActiveSession(s, device, peer);
    if a.Some? {
      RestartKeepsSessionTable(s, a.value, cfg, now);
    } else {
      assert s.nextSessionId in s.sessions ==> SessionLinksOk(s, s.nextSessionId);
      OpenedRecords(s, device, user, peer, cfg, now, sid);
    }
  }

  /** Refreshing one conversation leaves what is outstanding in another. */
  lemma OtherOutstandingStays(s: State, device: DeviceId, user: UserId, peer: UserId, cfg: Settings, now: Time,
                              other: UserId, sid: SessionId)
    requires RowsOk(s) && SessionsOk(s) && other != peer && IsActiveSession(s, sid, device, other)
    ensures Outstanding(RefreshPeer(s, device, user, peer, cfg, now).0, sid) == Outstanding(s, sid)
  {
    var a := ActiveSession(s, device, peer);
    if a.Some? {
      RestartKeepsOutstanding(s, a.value, cfg, now, sid);
    } else {
      assert SessionLinksOk(s, sid);
      OpenKeepsOutstanding(s, device, user, peer, cfg, sid);
      AdvanceKeepsOutstanding(OpenSession(s, device, user, peer, cfg), s.nextSessionId, sid, cfg, now);
    }
  }

  /** Refreshing one conversation leaves the device's other conversations alone. */
  lemma OtherConversationKept(s: State, device: DeviceId, user: UserId, peer: UserId, cfg: Settings, now: Time,
                              other: UserId)
    requires Inv(s, now) && cfg.Valid() && SignedInUser(s, device) == Some(user) && user != peer && other != peer
    ensures StillToCome(RefreshPeer(s, device, user, peer, cfg, now).0, device, other) == StillToCome(s, device, other)
  {
    var t := RefreshPeer(s, device, user, peer, cfg, now).0;
    RefreshPeerKeepsInv(s, device, user, peer, cfg, now);
    forall sid ensures IsActiveSession(s, sid, device, other) <==> IsActiveSession(t, sid, device, other) {
      OtherSessionsStay(s, device, user, peer, cfg, now, other, sid);
    }
    SameConversation(s, t, device, other);
    if ActiveSession(s, device, other).Some? {
      OtherOutstandingStays(s, device, user, peer, cfg, now, other, ActiveSession(s, device, other).value);
    }
  }

  /** A conversation has the same session in both tables. */
  lemma SameConversation(s: State, t: State, device: DeviceId, peer: UserId)
    requires SingleSessions(s) && SingleSessions(t)
    requires forall sid :: IsActiveSession(s, sid, device, peer) <==> IsActiveSession(t, sid, device, peer)
    ensures ActiveSession(s, device, peer) == ActiveSession(t, device, peer)
  {
  }

  lemma {:induction false} UnlistedConversationKept(s: State, device: DeviceId, user: UserId, peers: seq<UserId>,
                                                    cfg: Settings, now: Time, other: UserId)
    requires Inv(s, now) && cfg.Valid() && SignedInUser(s, device) == Some(user) && user !in peers && other !in peers
    ensures StillToCome(RefreshPeers(s, device, user, peers, cfg, now).0, device, other)
      == StillToCome(s, device, other)
    decreases |peers|
  {
    if peers != [] {
      OtherConversationKept(s, device, user, peers[0], cfg, now, other);
      RefreshPeerKeepsInv(s, device, user, peers[0], cfg, now);
      RefreshPeerKeepsDevices(s, device, user, peers[0], cfg, now);
      UnlistedConversationKept(RefreshPeer(s, device, user, peers[0], cfg, now).0, device, user, peers[1..], cfg,
        now, other);
    }
  }

  /** The messages a device still waits for in all these conversations. */
  ghost function AllStillToCome(s: State, device: DeviceId, peers: seq<UserId>): nat {
    if peers == [] then 0 else StillToCome(s, device, peers[0]) + AllStillToCome(s, device, peers[1..])
  }

  lemma {:induction false} RefreshingAllAnnounces(s: State, device: DeviceId, user: UserId, peers: seq<UserId>,
                                                  cfg: Settings, now: Time)
    requires Inv(s, now) && cfg.Valid() && SignedInUser(s, device) == Some(user) && user !in peers
    requires forall i, j | 0 <= i < j < |peers| :: peers[i] != peers[j]
    ensures var r := RefreshPeers(s, device, user, peers, cfg, now);
      r.1 == AllStillToCome(r.0, device, peers)
    decreases |peers|
  {
    if peers != [] {
      var first := RefreshPeer(s, device, user, peers[0], cfg, now);
      RefreshAnnouncesWhatFollows(s, device, user, peers[0], cfg, now);
      RefreshPeerKeepsInv(s, device, user, peers[0], cfg, now);
      RefreshPeerKeepsDevices(s, device, user, peers[0], cfg, now);
      RefreshingAllAnnounces(first.0, device, user, peers[1..], cfg, now);
      UnlistedConversationKept(first.0, device, user, peers[1..], cfg, now, peers[0]);
    }
  }

  /** "f * total" announces exactly what is still to come, over all conversations, once every one was refreshed. */
  lemma RefreshOfAllAnnouncesWhatFollows(s: State, device: DeviceId, peers: seq<UserId>, cfg: Settings, clock: Time,
                                         now: Time)
    requires Inv(s, clock) && clock <= now && cfg.Valid() && SignedInUser(s, device).Some?
    requires Enabled(s, RefreshArrives(device, AllPeers, peers), cfg, now)
    ensures var r := StartRefresh(s, device, AllPeers, peers, cfg, now);
      r.1 == AllStillToCome(r.0, device, peers)
  {
    ClockKeepsInv(s, clock, now);
    OwnUserNotRefreshed(s, device, AllPeers, peers, cfg, now);
    RefreshingAllAnnounces(s, device, SignedInUser(s, device).value, peers, cfg, now);
  }
}
