/** Assembling and confirming messages keeps the message table, and what it says about deliveries. */
module MessageProofs {
  import opened Options
  import opened Texts
  import opened Times
  import opened RetrySchedule
  import opened Tables
  import opened Transitions
  import opened Invariants

  /** The message once a part found its place: with the part, and accepted if none is missing any more. */
  function Placed(m: Message, req: PartRequest, now: Time): Message {
    var stored := StorePart(m, req);
    if stored.acceptedAt.None? && AllHeld(stored)
    then stored.(text := Some(Join(HeldTexts(stored.partTexts))), acceptedAt := Some(now))
    else stored
  }

  lemma PlacedMessageOk(sender: UserId, m: Message, req: PartRequest, nextId: nat, clock: Time, now: Time)
    requires PartsValid(m.partTexts) && m.id < nextId && m.recipient != sender && clock <= now
    requires MessageOk(sender, m, nextId, clock)
    requires IsValidPartText(req.text)
    ensures MessageOk(sender, Placed(m, req, now), nextId, now)
    ensures MessageEvolves(m, Placed(m, req, now))
    ensures m.acceptedAt.Some? ==> Placed(m, req, now) == m
  {
    var stored := StorePart(m, req);
    if m.acceptedAt.Some? {
      assert AllHeld(m);
    }
  }

  lemma FreshMessageOk(s: State, sender: UserId, recipient: UserId, req: PartRequest, clock: Time)
    requires recipient != sender && ValidPartNumbering(req.partNumber, req.partCount)
    ensures MessageOk(sender, NewMessage(s, recipient, req), s.nextMessageId + 1, clock)
  {
    var m := NewMessage(s, recipient, req);
    assert m.partTexts[0].None?;
  }

  lemma MessageUpdateKeepsMessages(s: State, key: MessageKey, m: Message, clock: Time, now: Time)
    requires MessagesOk(s, clock) && clock <= now && key in s.messages
    requires m.id == s.messages[key].id && MessageOk(key.sender, m, s.nextMessageId, now)
    ensures MessagesOk(s.(messages := s.messages[key := m]), now)
  {
    var t := s.(messages := s.messages[key := m]);
    forall x | x in t.messages ensures MessageOk(x.sender, t.messages[x], t.nextMessageId, now) {
      if x != key {
        assert MessageOk(x.sender, s.messages[x], s.nextMessageId, clock);
      }
    }
  }

  lemma CreateKeepsMessages(s: State, key: MessageKey, recipient: UserId, req: PartRequest, clock: Time)
    requires MessagesOk(s, clock) && recipient != key.sender && ValidPartNumbering(req.partNumber, req.partCount)
    ensures MessagesOk(FindOrCreateMessage(s, key, recipient, req), clock)
  {
    if key !in s.messages {
      var t := FindOrCreateMessage(s, key, recipient, req);
      FreshMessageOk(s, key.sender, recipient, req, clock);
      forall x | x in t.messages ensures MessageOk(x.sender, t.messages[x], t.nextMessageId, clock) {
        if x != key {
          assert MessageOk(x.sender, s.messages[x], s.nextMessageId, clock);
        }
      }
      assert forall x | x in s.messages :: s.messages[x].id < s.nextMessageId by {
        assert forall x | x in s.messages :: MessageOk(x.sender, s.messages[x], s.nextMessageId, clock);
      }
    }
  }

  lemma ConfirmedMessageOk(sender: UserId, m: Message, isRead: bool, nextId: nat, clock: Time, now: Time)
    requires MessageOk(sender, m, nextId, clock) && m.acceptedAt.Some? && clock <= now
    ensures var n := ConfirmedMessage(m, isRead, now);
      MessageOk(sender, n, nextId, now) && MessageEvolves(m, n) && n.Level() >= m.Level()
  {
  }

  lemma ClockKeepsMessages(s: State, clock: Time, now: Time)
    requires MessagesOk(s, clock) && clock <= now
    ensures MessagesOk(s, now)
  {
    forall x | x in s.messages ensures MessageOk(x.sender, s.messages[x], s.nextMessageId, now) {
      assert MessageOk(x.sender, s.messages[x], s.nextMessageId, clock);
    }
  }

  lemma ConfirmKeepsMessages(s: State, key: MessageKey, isRead: bool, cfg: Settings, clock: Time, now: Time)
    requires MessagesOk(s, clock) && clock <= now && key in s.messages && s.messages[key].acceptedAt.Some?
    ensures MessagesOk(ConfirmMessage(s, key, isRead, cfg, now), now)
    ensures MessagesEvolve(s, ConfirmMessage(s, key, isRead, cfg, now))
    ensures ConfirmMessage(s, key, isRead, cfg, now).messages[key].deliveredAt.Some?
  {
    ClockKeepsMessages(s, clock, now);
    if LevelRises(s.messages[key], isRead) {
      ConfirmedMessageOk(key.sender, s.messages[key], isRead, s.nextMessageId, clock, now);
      MessageUpdateKeepsMessages(s, key, ConfirmedMessage(s.messages[key], isRead, now), clock, now);
    }
  }
}
