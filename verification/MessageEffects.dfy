/** What a step does to messages, and what follows when one rises to a new level. */
module MessageEffects {
  import opened Options
  import opened Times
  import opened RetrySchedule
  import opened Tables
  import opened Transitions
  import opened Invariants
  import opened ReceiptProofs
  import opened MessageProofs
  import opened StepProofs
  import opened RowEffects

  // ----- steps that leave messages alone --------------------------------------------------------------

  lemma RestartKeepsMessages(s: State, sid: SessionId, cfg: Settings, now: Time)
    ensures RestartSession(s, sid, cfg, now).messages == s.messages
  {
  }

  lemma OpenAndAdvanceKeepsMessages(s: State, device: DeviceId, user: UserId, peer: UserId, cfg: Settings, now: Time)
    ensures AdvanceSession(OpenSession(s, device, user, peer, cfg), s.nextSessionId, cfg, now).messages == s.messages
  {
    AdvanceTouches(OpenSession(s, device, user, peer, cfg), s.nextSessionId, cfg, now);
  }

  lemma RefreshPeerKeepsMessages(s: State, device: DeviceId, user: UserId, peer: UserId, cfg: Settings, now: Time)
    ensures RefreshPeer(s, device, user, peer, cfg, now).0.messages == s.messages
  {
    var a := ActiveSession(s, device, peer);
    if a.Some? {
      RestartKeepsMessages(s, a.value, cfg, now);
    } else {
      OpenAndAdvanceKeepsMessages(s, device, user, peer, cfg, now);
    }
  }

  lemma {:induction false} RefreshPeersKeepsMessages(s: State, device: DeviceId, user: UserId, peers: seq<UserId>,
                                        cfg: Settings, now: Time)
    ensures RefreshPeers(s, device, user, peers, cfg, now).0.messages == s.messages
    decreases |peers|
  {
    if peers != [] {
      RefreshPeerKeepsMessages(s, device, user, peers[0], cfg, now);
      RefreshPeersKeepsMessages(RefreshPeer(s, device, user, peers[0], cfg, now).0, device, user, peers[1..], cfg, now);
    }
  }

  lemma RefreshKeepsMessages(s: State, device: DeviceId, target: RefreshTarget, peers: seq<UserId>, cfg: Settings,
                             now: Time)
    ensures StartRefresh(s, device, target, peers, cfg, now).0.messages == s.messages
  {
    var user := SignedInUser(s, device);
    if user.Some? {
      if target.AllPeers? {
        RefreshPeersKeepsMessages(s, device, user.value, peers, cfg, now);
      } else if target.peer.Some? {
        RefreshPeerKeepsMessages(RearmReceipts(s, device, user.value, target.peer.value, cfg, now), device,
          user.value, target.peer.value, cfg, now);
      }
    }
  }

  lemma {:induction false} PrepareKeepsMessages(s: State, cands: seq<Candidate>, cfg: Settings, now: Time)
    ensures PrepareNext(s, cands, cfg, now).0.messages == s.messages
    decreases |cands|
  {
    if cands != [] {
      CandidateTouches(s, cands[0], cfg, now);
      PrepareKeepsMessages(PrepareCandidate(s, cands[0], cfg, now).0, cands[1..], cfg, now);
    }
  }

  lemma CountingKeepsMessages(s: State, p: Packet, suggestion: Option<nat>, cfg: Settings, now: Time)
    ensures CountAsSent(s, p, suggestion, cfg, now).messages == s.messages
  {
  }

  lemma OutcomeKeepsMessages(s: State, id: PacketId, outcome: SendOutcome, cfg: Settings, now: Time)
    ensures RecordOutcome(s, id, outcome, cfg, now).messages == s.messages
  {
    if id in s.packets && s.packets[id].state.Prepared? {
      var p := s.packets[id];
      CountingKeepsMessages(s, p, Suggestion(outcome), cfg, now);
      CountingKeepsMessages(MarkMissingOnNode(s, p.row.device), p, Suggestion(outcome), cfg, now);
    }
  }

  lemma LinkKeepsMessages(s: State, device: DeviceId, user: UserId)
    ensures LinkDevice(s, device, user).messages == s.messages
  {
  }

  // ----- levels ---------------------------------------------------------------------------------------

  /** How far the message got, as far as the tables know. */
  function LevelOf(s: State, key: MessageKey): nat {
    if key in s.messages then s.messages[key].Level() else 0
  }

  /** A receipt still to be confirmed at this level, before its first attempt; a mere delivery is held back. */
  predicate IsToBeTold(r: Receipt, level: nat, cfg: Settings, now: Time) {
    && r.state.ReceiptPending? && r.targetLevel == level && r.attemptCount == 0 && !r.roundPending
    && r.maximumAttempts == cfg.maximumAttempts
    && r.nextAttemptAt == Some(if level == 1 then now + cfg.deliveredReceiptDelay else now)
  }

  /** The device, if it is one of the sender's, owns such a receipt at the message's level. */
  predicate SenderIsTold(t: State, key: MessageKey, device: DeviceId, cfg: Settings, now: Time) {
    device in DevicesOf(t, key.sender) ==>
      RowKey(key, device) in t.receipts && IsToBeTold(t.receipts[RowKey(key, device)], LevelOf(t, key), cfg, now)
  }

  lemma FannedOutLevel(s: State, key: MessageKey, recipient: UserId, cfg: Settings, now: Time, other: MessageKey)
    ensures LevelOf(FanOut(s, key, recipient, cfg, now), other) == LevelOf(s, other)
  {
  }

  lemma PlacedLevel(s: State, key: MessageKey, recipient: UserId, req: PartRequest, cfg: Settings, now: Time,
                    other: MessageKey)
    requires key in s.messages
    ensures LevelOf(PlacePart(s, key, recipient, req, cfg, now).0, other) == LevelOf(s, other)
  {
    if !Conflicts(s.messages[key], recipient, req) {
      var s1 := s.(messages := s.messages[key := Placed(s.messages[key], req, now)]);
      PlacedTables(s, key, recipient, req, cfg, now);
      FannedOutLevel(s1, key, s.messages[key].recipient, cfg, now, other);
    }
  }

  lemma PartKeepsLevels(s: State, req: PartRequest, cfg: Settings, now: Time, key: MessageKey)
    ensures LevelOf(AcceptPart(s, req, cfg, now).0, key) == LevelOf(s, key)
  {
    var user := SignedInUser(s, req.device);
    if user.Some? && req.recipient.Some? {
      var placed := MessageKey(user.value, req.clientId);
      PlacedLevel(FindOrCreateMessage(s, placed, req.recipient.value, req), placed, req.recipient.value, req, cfg,
        now, key);
    }
  }

  lemma OtherStepsKeepLevels(s: State, step: Step, cfg: Settings, now: Time, key: MessageKey)
    requires !step.StatusArrives? && !step.ReadArrives?
    ensures LevelOf(Apply(s, step, cfg, now), key) == LevelOf(s, key)
  {
    match step
    case PartArrives(req) => PartKeepsLevels(s, req, cfg, now, key);
    case RefreshArrives(device, target, peers) => RefreshKeepsMessages(s, device, target, peers, cfg, now);
    case PacketPrepared(cands) => PrepareKeepsMessages(s, cands, cfg, now);
    case OutcomeRecorded(id, outcome) => OutcomeKeepsMessages(s, id, outcome, cfg, now);
    case DeviceLinked(device, user) => LinkKeepsMessages(s, device, user);
    case _ =>
  }

  /** Confirming a message raises its own level alone, and then tells its sender. */
  lemma ConfirmTellsSender(s: State, confirmed: MessageKey, isRead: bool, cfg: Settings, now: Time, key: MessageKey,
                           device: DeviceId)
    requires ReceiptsOk(s) && cfg.Valid() && confirmed in s.messages
    requires s.messages[confirmed].readAt.Some? ==> s.messages[confirmed].deliveredAt.Some?
    requires LevelOf(ConfirmMessage(s, confirmed, isRead, cfg, now), key) > LevelOf(s, key)
    ensures SenderIsTold(ConfirmMessage(s, confirmed, isRead, cfg, now), key, device, cfg, now)
  {
    var t := ConfirmMessage(s, confirmed, isRead, cfg, now);
    if device in DevicesOf(t, key.sender) {
      assert key == confirmed && LevelRises(s.messages[key], isRead);
      assert device in DevicesOf(s, key.sender);
      RiseReachesEverySenderDevice(s, key, isRead, cfg, now, device);
    }
  }

  lemma DeliverAndConfirmTellsSender(s: State, k: RowKey, received: Option<set<nat>>, isRead: bool, cfg: Settings,
                                     clock: Time, now: Time, key: MessageKey, device: DeviceId)
    requires Inv(s, clock) && cfg.Valid() && k in s.deliveries && s.deliveries[k].Live()
    requires k.message in s.messages && k.message in Deliver(s, k, received, cfg, now).messages
    requires LevelOf(ConfirmMessage(Deliver(s, k, received, cfg, now), k.message, isRead, cfg, now),
      key) > LevelOf(s, key)
    ensures SenderIsTold(ConfirmMessage(Deliver(s, k, received, cfg, now), k.message, isRead, cfg, now), key, device,
      cfg, now)
  {
    DeliverKeepsTables(s, k, received, cfg, now);
    assert MessageOk(k.message.sender, s.messages[k.message], s.nextMessageId, clock);
    ConfirmTellsSender(Deliver(s, k, received, cfg, now), k.message, isRead, cfg, now, key, device);
  }

  lemma StatusTellsSender(s: State, step: Step, cfg: Settings, clock: Time, now: Time, key: MessageKey,
                          device: DeviceId)
    requires Inv(s, clock) && cfg.Valid() && step.StatusArrives?
    requires LevelOf(Apply(s, step, cfg, now), key) > LevelOf(s, key)
    ensures SenderIsTold(Apply(s, step, cfg, now), key, device, cfg, now)
  {
    if StatusApplies(s, step.device, step.sender, step.clientId, step.received) {
      var k := RowKey(MessageKey(step.sender.value, step.clientId), step.device);
      if Reported(step.received) == s.messages[k.message].Parts() {
        DeliverTouchesRowsAndSessions(s, k, Some(Reported(step.received)), cfg, now);
        DeliverAndConfirmTellsSender(s, k, Some(Reported(step.received)), false, cfg, clock, now, key, device);
      }
    }
  }

  lemma ReadTellsSender(s: State, step: Step, cfg: Settings, clock: Time, now: Time, key: MessageKey, device: DeviceId)
    requires Inv(s, clock) && cfg.Valid() && step.ReadArrives?
    requires LevelOf(Apply(s, step, cfg, now), key) > LevelOf(s, key)
    ensures SenderIsTold(Apply(s, step, cfg, now), key, device, cfg, now)
  {
    if step.sender.Some? && IsIncoming(s, step.device, MessageKey(step.sender.value, step.clientId)) {
      var k := RowKey(MessageKey(step.sender.value, step.clientId), step.device);
      if k in s.deliveries && s.deliveries[k].Live() {
        DeliverTouchesRowsAndSessions(s, k, None, cfg, now);
        DeliverAndConfirmTellsSender(s, k, None, true, cfg, clock, now, key, device);
      } else {
        assert MessageOk(k.message.sender, s.messages[k.message], s.nextMessageId, clock);
        ConfirmTellsSender(s, k.message, true, cfg, now, key, device);
      }
    }
  }

  /**
   Whatever transaction raises a message's level: right afterwards every device its sender has owns
   a receipt, still to be confirmed, that targets exactly that level and is due at once, or after
   the hold-back if the message was only delivered.
   */
  lemma RiseTellsEverySenderDevice(s: State, step: Step, cfg: Settings, clock: Time, now: Time, key: MessageKey,
                                   device: DeviceId)
    requires Inv(s, clock) && clock <= now && cfg.Valid() && Enabled(s, step, cfg, now)
    requires LevelOf(Apply(s, step, cfg, now), key) > LevelOf(s, key)
    requires device in DevicesOf(Apply(s, step, cfg, now), key.sender)
    ensures var t, k := Apply(s, step, cfg, now), RowKey(key, device);
      k in t.receipts && IsToBeTold(t.receipts[k], LevelOf(t, key), cfg, now)
  {
    if step.StatusArrives? {
      StatusTellsSender(s, step, cfg, clock, now, key, device);
    } else if step.ReadArrives? {
      ReadTellsSender(s, step, cfg, clock, now, key, device);
    } else {
      OtherStepsKeepLevels(s, step, cfg, now, key);
    }
  }
}
