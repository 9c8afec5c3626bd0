/** Receipts: ordered levels that only grow, and a receipt for every current device of the sender when a level rises. */
module ReceiptProofs {
  import opened Options
  import opened Times
  import opened RetrySchedule
  import opened Tables
  import opened ReceiptRows
  import opened Transitions
  import opened Invariants

  // ----- one receipt ----------------------------------------------------------------------------

  lemma RaiseToReadOk(r: Receipt, level: nat, cfg: Settings, now: Time)
    requires ReceiptOk(r, level) && level <= READ_LEVEL && cfg.Valid()
    ensures var q := RaiseToRead(r, cfg, now);
      && ReceiptOk(q, READ_LEVEL) && ReceiptEvolves(r, q) && q.targetLevel == READ_LEVEL
      && (level < READ_LEVEL ==> q.state.ReceiptPending?)
  {
  }

  lemma ConfirmOk(r: Receipt, messageLevel: nat, level: nat)
    requires ReceiptOk(r, messageLevel)
    ensures var q := Confirm(r, level);
      && ReceiptOk(q, messageLevel) && ReceiptEvolves(r, q) && q.targetLevel == r.targetLevel
      && (q != r ==> q.confirmedLevel == (if level < r.targetLevel then level else r.targetLevel))
  {
  }

  lemma RearmForRefreshOk(r: Receipt, messageLevel: nat, cfg: Settings, now: Time)
    requires ReceiptOk(r, messageLevel) && messageLevel <= READ_LEVEL && cfg.Valid()
    ensures var q := RearmForRefresh(r, messageLevel, cfg, now);
      && ReceiptOk(q, messageLevel) && ReceiptEvolves(r, q) && !q.state.ReceiptCancelled?
  {
  }

  // ----- the table ------------------------------------------------------------------------------

  lemma ReceiptUpdateKeepsReceipts(s: State, k: RowKey, r: Receipt)
    requires ReceiptsOk(s) && k in s.receipts
    requires ReceiptOk(r, s.messages[k.message].Level())
    requires !r.state.ReceiptCancelled? && r.confirmedLevel < READ_LEVEL ==>
      s.devices[k.device].user == Some(k.message.sender)
    ensures ReceiptsOk(s.(receipts := s.receipts[k := r]))
  {
    var t := s.(receipts := s.receipts[k := r]);
    forall q | q in t.receipts ensures ReceiptLinksOk(t, q) && ReceiptOk(t.receipts[q], t.messages[q.message].Level()) {
      if q == k {
        assert ReceiptLinksOk(s, k);
      } else {
        assert ReceiptLinksOk(s, q);
      }
    }
  }

  /** Messages may gain a level and devices a first user without breaking any receipt. */
  lemma ReceiptsFrame(s: State, t: State)
    requires ReceiptsOk(s) && t.receipts == s.receipts
    requires forall key | key in s.messages :: key in t.messages && s.messages[key].Level() <= t.messages[key].Level()
    requires forall d | d in s.devices ::
      d in t.devices && (s.devices[d].user.Some? ==> t.devices[d].user == s.devices[d].user)
    ensures ReceiptsOk(t)
  {
    forall q | q in t.receipts ensures ReceiptLinksOk(t, q) && ReceiptOk(t.receipts[q], t.messages[q.message].Level()) {
      assert ReceiptLinksOk(s, q);
    }
  }

  /** Receipts look at their own table, the messages and the devices only. */
  lemma ReceiptsSame(s: State, t: State)
    requires ReceiptsOk(s) && t.receipts == s.receipts && t.messages == s.messages && t.devices == s.devices
    ensures ReceiptsOk(t)
  {
    ReceiptsFrame(s, t);
  }

  lemma RelinkKeepsReceipts(s: State, device: DeviceId, user: UserId)
    requires ReceiptsOk(s) && device in s.devices
    ensures ReceiptsOk(RelinkDevice(s, device, user))
  {
    var t := RelinkDevice(s, device, user);
    forall q | q in t.receipts ensures ReceiptLinksOk(t, q) && ReceiptOk(t.receipts[q], t.messages[q.message].Level()) {
      assert ReceiptLinksOk(s, q);
    }
  }

  lemma RearmKeepsReceipts(s: State, device: DeviceId, user: UserId, peer: UserId, cfg: Settings, now: Time)
    requires ReceiptsOk(s) && cfg.Valid() && SignedInUser(s, device) == Some(user)
    ensures ReceiptsOk(RearmReceipts(s, device, user, peer, cfg, now))
    ensures ReceiptsEvolve(s, RearmReceipts(s, device, user, peer, cfg, now))
  {
    var t := RearmReceipts(s, device, user, peer, cfg, now);
    forall q | q in t.receipts
      ensures ReceiptLinksOk(t, q) && ReceiptOk(t.receipts[q], t.messages[q.message].Level())
        && ReceiptEvolves(s.receipts[q], t.receipts[q])
    {
      assert ReceiptLinksOk(s, q);
      RearmForRefreshOk(s.receipts[q], s.messages[q.message].Level(), cfg, now);
    }
  }

  /** The receipt of one device once the message's level has risen. */
  lemma RaisedReceiptAt(s: State, key: MessageKey, level: nat, cfg: Settings, now: Time, k: RowKey)
    ensures var t := RaiseReceipts(s, key, level, cfg, now);
      && (k in t.receipts <==> k in s.receipts || (k.message == key && k.device in DevicesOf(s, key.sender)))
      && (k.message == key && k.device in DevicesOf(s, key.sender) ==>
        t.receipts[k] == RaisedReceipt(s, k, level, cfg, now))
      && (k in s.receipts && !(k.message == key && k.device in DevicesOf(s, key.sender)) ==>
        t.receipts[k] == s.receipts[k])
  {
    var raised := set d | d in DevicesOf(s, key.sender) :: RowKey(key, d);
    assert k in raised <==> k.message == key && k.device in DevicesOf(s, key.sender) by {
      if k.message == key && k.device in DevicesOf(s, key.sender) {
        assert k == RowKey(key, k.device);
      }
    }
  }

  /**
   Once a message's level has risen, each device its sender has now owns a receipt that targets
   exactly that level and is still to be confirmed.
   */
  lemma RiseReachesEverySenderDevice(s: State, key: MessageKey, isRead: bool, cfg: Settings, now: Time,
                                     device: DeviceId)
    requires ReceiptsOk(s) && cfg.Valid() && key in s.messages
    requires s.messages[key].readAt.Some? ==> s.messages[key].deliveredAt.Some?
    requires LevelRises(s.messages[key], isRead) && device in DevicesOf(s, key.sender)
    ensures var t := ConfirmMessage(s, key, isRead, cfg, now);
      var k := RowKey(key, device);
      && t.messages[key].Level() > s.messages[key].Level()
      && k in t.receipts
      && t.receipts[k].targetLevel == t.messages[key].Level()
      && t.receipts[k].state.ReceiptPending?
      && t.receipts[k].attemptCount == 0 && !t.receipts[k].roundPending
      && t.receipts[k].maximumAttempts == cfg.maximumAttempts
      && t.receipts[k].nextAttemptAt ==
           Some(if t.messages[key].Level() == DELIVERED_LEVEL then now + cfg.deliveredReceiptDelay else now)
  {
    var m1 := ConfirmedMessage(s.messages[key], isRead, now);
    var s1 := s.(messages := s.messages[key := m1]);
    var k := RowKey(key, device);
    assert device in DevicesOf(s1, key.sender);
    RaisedReceiptAt(s1, key, m1.Level(), cfg, now, k);
    if k in s.receipts {
      assert ReceiptLinksOk(s, k);
      RaiseToReadOk(s.receipts[k], s.messages[key].Level(), cfg, now);
    }
  }

  lemma ConfirmKeepsReceipts(s: State, key: MessageKey, isRead: bool, cfg: Settings, now: Time)
    requires ReceiptsOk(s) && cfg.Valid() && key in s.messages
    requires s.messages[key].readAt.Some? ==> s.messages[key].deliveredAt.Some?
    ensures ReceiptsOk(ConfirmMessage(s, key, isRead, cfg, now))
    ensures ReceiptsEvolve(s, ConfirmMessage(s, key, isRead, cfg, now))
  {
    if LevelRises(s.messages[key], isRead) {
      var m1 := ConfirmedMessage(s.messages[key], isRead, now);
      var s1 := s.(messages := s.messages[key := m1]);
      ReceiptsFrame(s, s1);
      RaiseKeepsReceipts(s1, key, m1.Level(), cfg, now);
    }
  }

  lemma RaiseKeepsReceipts(s: State, key: MessageKey, level: nat, cfg: Settings, now: Time)
    requires ReceiptsOk(s) && cfg.Valid() && key in s.messages && s.messages[key].Level() == level && 1 <= level
    ensures ReceiptsOk(RaiseReceipts(s, key, level, cfg, now))
    ensures ReceiptsEvolve(s, RaiseReceipts(s, key, level, cfg, now))
  {
    var t := RaiseReceipts(s, key, level, cfg, now);
    forall q | q in t.receipts
      ensures ReceiptLinksOk(t, q) && ReceiptOk(t.receipts[q], t.messages[q.message].Level())
      ensures q in s.receipts ==> ReceiptEvolves(s.receipts[q], t.receipts[q])
    {
      RaisedReceiptAt(s, key, level, cfg, now, q);
      if q in s.receipts {
        assert ReceiptLinksOk(s, q);
        RaiseToReadOk(s.receipts[q], s.messages[q.message].Level(), cfg, now);
      }
    }
    forall q | q in s.receipts ensures q in t.receipts {
      RaisedReceiptAt(s, key, level, cfg, now, q);
    }
  }
}
