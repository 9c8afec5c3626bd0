/** When rows are due, what is prepared for whom, and who a device belongs to, said about the tables alone. */
module DueWork {
  import opened Options
  import opened Times
  import opened RetrySchedule
  import opened Tables
  import opened DeliveryRows
  import opened Transitions
  import opened Invariants
  import opened SessionProofs

  // ----- new rows ---------------------------------------------------------------------------------------

  /** A row before its first attempt, with the attempts the settings of now allow, due at this time or not at all. */
  predicate IsNewRow(d: Delivery, cfg: Settings, due: Option<Time>) {
    && d.attemptCount == 0 && d.maximumAttempts == cfg.maximumAttempts && d.armGeneration == 1
    && d.receivedParts == {} && d.roundParts == {} && d.roundStartedAt.None? && d.lastSentAt.None?
    && d.nextAttemptAt == due
  }

  /**
   An accepted message is due at once on every device of the recipient, or waits in the session
   that refreshes it there.
   */
  lemma AcceptedMessageIsDue(s: State, key: MessageKey, recipient: UserId, cfg: Settings, now: Time, device: DeviceId)
    requires SingleSessions(s) && device in s.devices && s.devices[device].user == Some(recipient)
    ensures var t := FanOut(s, key, recipient, cfg, now);
      && RowKey(key, device) in t.deliveries
      && var d := t.deliveries[RowKey(key, device)];
      if exists sid | sid in s.sessions :: IsActiveSession(s, sid, device, key.sender)
      then d.state.Queued? && IsNewRow(d, cfg, None) && d.session.Some?
        && IsActiveSession(s, d.session.value, device, key.sender)
      else d.state.Pending? && IsNewRow(d, cfg, Some(now)) && d.session.None?
  {
    FanOutRowAt(s, key, recipient, cfg, now, RowKey(key, device));
    var a := ActiveSession(s, device, key.sender);
    assert a.Some? ==> IsActiveSession(s, a.value, device, key.sender);
  }

  /** The row that turns head starts over, due at once, in a new arm. */
  lemma NewHeadIsDue(s: State, sid: SessionId, cfg: Settings, now: Time, k: RowKey)
    requires IsQueued(s, sid, k) && IsHead(AdvanceSession(s, sid, cfg, now), sid, k)
    ensures var d, e := s.deliveries[k], AdvanceSession(s, sid, cfg, now).deliveries[k];
      && e.nextAttemptAt == Some(now) && e.attemptCount == 0 && e.roundParts == {}
      && e.maximumAttempts == cfg.maximumAttempts && e.armGeneration == d.armGeneration + 1
      && e.receivedParts == d.receivedParts
  {
    assert NextHead(s, sid) == Some(k);
    assert AdvanceSession(s, sid, cfg, now).deliveries[k] == Arm(s.deliveries[k], cfg, now);
  }

  // ----- who gets a packet --------------------------------------------------------------------------------

  /** The device is on the node, and the row was pending and due, with a place for its device if it needs one. */
  predicate MayBePrepared(s: State, p: Packet, cfg: Settings, now: Time) {
    && p.row.device in s.devices && s.devices[p.row.device].onNode
    && match p.purpose
       case DeliveryPart(_) =>
         && p.row in s.deliveries && s.deliveries[p.row].state.Pending?
         && s.deliveries[p.row].nextAttemptAt.Some? && s.deliveries[p.row].nextAttemptAt.value <= now
         && (s.deliveries[p.row].roundStartedAt.Some? || |InProgress(s, p.row.device)| < cfg.activeLimit)
       case ReceiptPush(_) =>
         && p.row in s.receipts && s.receipts[p.row].state.ReceiptPending?
         && s.receipts[p.row].nextAttemptAt.Some? && s.receipts[p.row].nextAttemptAt.value <= now
  }

  /** The packet was prepared for this candidate. */
  predicate IsFor(r: (State, Option<PacketId>), c: Candidate) {
    && r.1.Some? && r.1.value in r.0.packets
    && r.0.packets[r.1.value].row == c.key
    && (r.0.packets[r.1.value].purpose.DeliveryPart? <==> c.DeliveryCandidate?)
  }

  lemma LowestPartIsFor(s: State, k: RowKey)
    requires k in s.deliveries && k.message in s.messages && PrepareLowestPart(s, k).1.Some?
    ensures IsFor(PrepareLowestPart(s, k), DeliveryCandidate(k))
  {
  }

  lemma CandidatePacketIsFor(s: State, c: Candidate, cfg: Settings, now: Time)
    requires PrepareCandidate(s, c, cfg, now).1.Some?
    ensures IsFor(PrepareCandidate(s, c, cfg, now), c)
  {
    if c.DeliveryCandidate? {
      var d := s.deliveries[c.key];
      if PartsLeft(d) != {} {
        LowestPartIsFor(s, c.key);
      } else {
        LowestPartIsFor(UpdateDelivery(s, c.key, StartRound(d, s.messages[c.key.message].Parts(), now)), c.key);
      }
    }
  }

  lemma {:induction false} WalkPacketIsFor(s: State, cands: seq<Candidate>, cfg: Settings, now: Time)
    returns (c: Candidate)
    requires PrepareNext(s, cands, cfg, now).1.Some?
    ensures c in cands && IsFor(PrepareNext(s, cands, cfg, now), c)
    decreases |cands|
  {
    var first := PrepareCandidate(s, cands[0], cfg, now);
    if first.1.Some? {
      c := cands[0];
      CandidatePacketIsFor(s, c, cfg, now);
    } else {
      c := WalkPacketIsFor(first.0, cands[1..], cfg, now);
    }
  }

  /** A packet is prepared only for a device the node knows, of a row that was pending and due. */
  lemma OnlyDueWorkIsPrepared(s: State, cands: seq<Candidate>, cfg: Settings, now: Time)
    requires IsCandidateList(s, cands, cfg, now) && PrepareNext(s, cands, cfg, now).1.Some?
    ensures var r := PrepareNext(s, cands, cfg, now);
      r.1.value in r.0.packets && MayBePrepared(s, r.0.packets[r.1.value], cfg, now)
  {
    var c := WalkPacketIsFor(s, cands, cfg, now);
    assert IsDue(s, c, cfg, now);
  }

  /** Whatever may be prepared is a candidate, or twenty others of its kind were due no later. */
  lemma DueWorkIsListed(s: State, cands: seq<Candidate>, cfg: Settings, now: Time, p: Packet)
    requires IsCandidateList(s, cands, cfg, now) && MayBePrepared(s, p, cfg, now)
    ensures var c := if p.purpose.DeliveryPart? then DeliveryCandidate(p.row) else ReceiptCandidate(p.row);
      || c in cands
      || (CountKind(cands, p.purpose.DeliveryPart?) == 20
          && forall l | l in cands && l.DeliveryCandidate? == p.purpose.DeliveryPart? :: DueTime(s, l) <= DueTime(s, c))
  {
    var c := if p.purpose.DeliveryPart? then DeliveryCandidate(p.row) else ReceiptCandidate(p.row);
    assert IsDue(s, c, cfg, now);
  }

  // ----- giving up ----------------------------------------------------------------------------------------

  /** The session that is refreshing the row, if it still runs. */
  predicate IsRefreshedBy(s: State, k: RowKey, sid: SessionId) {
    k in s.deliveries && s.deliveries[k].session == Some(sid) && sid in s.sessions && s.sessions[sid].state.Active?
  }

  lemma StoppedRows(s: State, stopped: SessionId, k: RowKey)
    ensures var t := StopSession(s, stopped);
      && (k in t.deliveries <==> k in s.deliveries)
      && (k in s.deliveries ==>
            t.deliveries[k] == (if s.deliveries[k].state.Queued? && s.deliveries[k].session == Some(stopped)
                                then s.deliveries[k].(state := Failed) else s.deliveries[k]))
      && t == s.(deliveries := t.deliveries, sessions := t.sessions)
  {
  }

  lemma StoppedSessions(s: State, stopped: SessionId, sid: SessionId)
    ensures var t := StopSession(s, stopped);
      && (sid in t.sessions <==> sid in s.sessions)
      && (sid in s.sessions ==>
            t.sessions[sid] == (if sid == stopped then s.sessions[sid].(state := Stopped) else s.sessions[sid]))
  {
  }

  /**
   A row with every attempt spent fails. If it was the head of a refresh, that session stops and
   what was queued in it fails unsent; every other row and session stays.
   */
  lemma GivingUpStopsTheSession(s: State, k: RowKey, other: RowKey, sid: SessionId)
    requires k in s.deliveries && s.deliveries[k].state.Pending?
    ensures var t := FailExhaustedDelivery(s, k);
      && k in t.deliveries && t.deliveries[k] == s.deliveries[k].(state := Failed)
      && (other in t.deliveries <==> other in s.deliveries)
      && (other in s.deliveries && other != k ==>
            t.deliveries[other] ==
              (if s.deliveries[other].state.Queued? && s.deliveries[other].session == s.deliveries[k].session
                  && s.deliveries[k].session.Some? && IsRefreshedBy(s, k, s.deliveries[k].session.value)
               then s.deliveries[other].(state := Failed) else s.deliveries[other]))
      && (sid in t.sessions <==> sid in s.sessions)
      && (sid in s.sessions ==>
            t.sessions[sid]
              == (if IsRefreshedBy(s, k, sid) then s.sessions[sid].(state := Stopped) else s.sessions[sid]))
      && t == s.(deliveries := t.deliveries, sessions := t.sessions)
  {
    var head := HeadSession(s, s.deliveries[k]);
    if head.Some? {
      var s1 := UpdateDelivery(s, k, FailExhausted(s.deliveries[k]));
      StoppedRows(s1, head.value, k);
      StoppedRows(s1, head.value, other);
      StoppedSessions(s1, head.value, sid);
    }
  }

  // ----- devices ------------------------------------------------------------------------------------------

  /** Signing in makes the device its user's, and no other device changes hands. */
  lemma LinkedDeviceIsUsers(s: State, device: DeviceId, user: UserId, other: DeviceId)
    requires device in s.devices
    ensures var t := LinkDevice(s, device, user);
      && device in t.devices && t.devices[device].user == Some(user)
        && t.devices[device].onNode == s.devices[device].onNode
      && (other != device ==> (other in t.devices <==> other in s.devices)
                              && (other in s.devices ==> t.devices[other] == s.devices[other]))
      && t.messages == s.messages && t.packets == s.packets
  {
    if s.devices[device].user.Some? && s.devices[device].user != Some(user) {
      RelinkMovesDevice(s, device, user);
    }
  }

  lemma RelinkMovesDevice(s: State, device: DeviceId, user: UserId)
    requires device in s.devices
    ensures var t := RelinkDevice(s, device, user);
      && t.devices == s.devices[device := s.devices[device].(user := Some(user))]
      && t.messages == s.messages && t.packets == s.packets
  {
  }

  /** What a change of hands leaves of a delivery: delivered ones stay, whatever was still to come is cancelled. */
  predicate IsLeftOfDelivery(d: Delivery, e: Delivery) {
    if d.state.Delivered? || d.state.Cancelled? then e == d else e == d.(state := Cancelled)
  }

  /** What it leaves of a receipt: one whose read was confirmed stays, any other is cancelled. */
  predicate IsLeftOfReceipt(r: Receipt, q: Receipt) {
    if r.state.Confirmed? && r.confirmedLevel == 2 then q == r else q == r.(state := ReceiptCancelled)
  }

  /** A change of hands cancels what was still open on the device, row by row, and nothing on another device. */
  lemma RelinkCancelsOpenRows(s: State, device: DeviceId, user: UserId, k: RowKey, sid: SessionId)
    requires device in s.devices && s.devices[device].user.Some? && s.devices[device].user != Some(user)
    ensures var t := LinkDevice(s, device, user);
      && (k in t.deliveries <==> k in s.deliveries) && (k in t.receipts <==> k in s.receipts)
      && (sid in t.sessions <==> sid in s.sessions)
      && (k in s.deliveries ==>
            if k.device == device then IsLeftOfDelivery(s.deliveries[k], t.deliveries[k])
            else t.deliveries[k] == s.deliveries[k])
      && (k in s.receipts ==>
            if k.device == device then IsLeftOfReceipt(s.receipts[k], t.receipts[k])
              else t.receipts[k] == s.receipts[k])
      && (sid in s.sessions ==>
            t.sessions[sid] == (if s.sessions[sid].device == device && s.sessions[sid].state.Active?
                                then s.sessions[sid].(state := SessionCancelled) else s.sessions[sid]))
  {
  }

  /** Only a change of hands cancels anything: a first sign-in, or one as the same user, leaves every row. */
  lemma FirstLinkCancelsNothing(s: State, device: DeviceId, user: UserId)
    requires device in s.devices ==> s.devices[device].user.None? || s.devices[device].user == Some(user)
    ensures var t := LinkDevice(s, device, user);
      t.deliveries == s.deliveries && t.receipts == s.receipts && t.sessions == s.sessions
  {
  }

  /** A new contact is nobody's and not on the node yet; syncing changes only whether the node knows it. */
  lemma DevicesComeAndSync(s: State, device: DeviceId, onNode: bool)
    ensures var t := AddDevice(s, device);
      && t == s.(devices := t.devices) && device in t.devices
      && t.devices == (if device in s.devices then s.devices else s.devices[device := Device(None, false)])
    ensures var t := SetOnNode(s, device, onNode);
      && t == s.(devices := t.devices)
      && (device in s.devices ==>
            device in t.devices && t.devices == s.devices[device := Device(s.devices[device].user, onNode)])
      && (device !in s.devices ==> t.devices == s.devices)
  {
  }
}
