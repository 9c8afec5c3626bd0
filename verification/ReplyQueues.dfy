/**
 Replies waiting in memory for the sender loop. The queue carries, as ghost state, the history of
 its calls: the clock, the newest reply queued for every request, the contacts dropped, the texts
 recorded as sent, and the one reply the sender holds. What it promises over every sequence of
 calls is what Valid() keeps and TakeNextReadyReply ensures.
 */
module ReplyQueues {
  import opened Options
  import opened Times

  type Contact = nat
  type ReplyKey = nat
  type ReplyText = nat

  datatype Identity = Identity(contact: Contact, key: ReplyKey)
  datatype SentText = SentText(contact: Contact, text: ReplyText)

  datatype PendingReply = PendingReply(
    contact: Contact,
    key: ReplyKey,
    text: ReplyText,
    readyAt: Time,
    createdAt: Time,
    expiresAt: Time,
    sequence: nat,
    bypassesSuppression: bool)
  {
    function Id(): Identity { Identity(contact, key) }
    function Sent(): SentText { SentText(contact, text) }
  }

  datatype Timing = Timing(coalescing: Time, lifetime: Time, suppression: Time)
  {
    predicate Valid() { 0.0 <= coalescing && 0.0 < lifetime && 0.0 < suppression }
  }

  /** Ready earlier, or queued earlier at the same time. */
  predicate Precedes(a: PendingReply, b: PendingReply) {
    a.readyAt < b.readyAt || (a.readyAt == b.readyAt && a.sequence < b.sequence)
  }

  /** The text went to the same contact too short a time ago. */
  predicate IsRepeat(r: PendingReply, sent: map<SentText, Time>, now: Time, timing: Timing) {
    !r.bypassesSuppression && r.Sent() in sent && now - sent[r.Sent()] < timing.suppression
  }

  function Unexpired(pending: map<Identity, PendingReply>, now: Time): map<Identity, PendingReply> {
    map id | id in pending && pending[id].expiresAt > now :: pending[id]
  }

  lemma UnexpiredAre(pending: map<Identity, PendingReply>, left: map<Identity, PendingReply>, now: Time)
    requires forall id :: id in left <==> id in pending && pending[id].expiresAt > now
    requires forall id | id in left :: left[id] == pending[id]
    ensures left == Unexpired(pending, now)
  {
  }

  /** A reply the sender may get now. */
  predicate MayTake(r: PendingReply, pending: map<Identity, PendingReply>, sent: map<SentText, Time>, now: Time,
                    timing: Timing) {
    && r.Id() in pending && pending[r.Id()] == r
    && r.expiresAt > now
    && r.readyAt <= now
    && !IsRepeat(r, sent, now, timing)
  }

  // ----- what the history says ----------------------------------------------------------------------------

  /** A reply carries the lifetime it was created with, and was created in the past. */
  predicate ReplyOk(r: PendingReply, clock: Time, next: nat, timing: Timing) {
    r.createdAt <= clock && r.expiresAt == r.createdAt + timing.lifetime && r.sequence < next
  }

  /** No reply queued later answers the same request, unless the contact was dropped meanwhile. */
  predicate IsNewest(r: PendingReply, newest: map<Identity, nat>, dropped: set<Contact>) {
    r.contact in dropped || (r.Id() in newest && newest[r.Id()] == r.sequence)
  }

  /**
   The reply the sender holds: still the newest, or the newer one waits and outlives it, or its own
   time is over.
   */
  predicate HeldOk(r: PendingReply, pending: map<Identity, PendingReply>, newest: map<Identity, nat>,
                   dropped: set<Contact>, clock: Time) {
    || IsNewest(r, newest, dropped)
    || (r.Id() in pending && pending[r.Id()].expiresAt >= r.expiresAt)
    || r.expiresAt <= clock
  }

  /** A text recorded as sent at some time. */
  datatype Recorded = Recorded(what: SentText, at: Time)

  /** Every recorded text is still remembered, or its window is over. */
  predicate Remembered(log: set<Recorded>, sent: map<SentText, Time>, clock: Time, timing: Timing) {
    forall e | e in log ::
      e.at <= clock && ((e.what in sent && sent[e.what] >= e.at) || clock - e.at >= timing.suppression)
  }

  /** Nothing is remembered that was not recorded. */
  predicate IsLogged(sent: map<SentText, Time>, log: set<Recorded>) {
    forall what | what in sent :: Recorded(what, sent[what]) in log
  }

  /** The text was recorded as sent to the contact within the suppression window. */
  predicate WentOutLately(r: PendingReply, log: set<Recorded>, now: Time, timing: Timing) {
    exists e | e in log :: e.what == r.Sent() && now - e.at < timing.suppression
  }

  /** By what was recorded, the reply may go out now. */
  predicate MayGo(r: PendingReply, log: set<Recorded>, now: Time, timing: Timing) {
    r.expiresAt > now && r.readyAt <= now && (r.bypassesSuppression || !WentOutLately(r, log, now, timing))
  }

  /**
   Of all that may go now, this reply became ready first, or was queued first at the same time;
   without one, none may.
   */
  predicate IsNextToGo(r: Option<PendingReply>, was: map<Identity, PendingReply>, log: set<Recorded>, now: Time,
                       timing: Timing) {
    && (r.Some? ==> r.value.Id() in was && was[r.value.Id()] == r.value && MayGo(r.value, log, now, timing))
    && forall id | id in was && MayGo(was[id], log, now, timing) ::
      && r.Some?
      && (r.value.readyAt < was[id].readyAt
        || (r.value.readyAt == was[id].readyAt && r.value.sequence <= was[id].sequence))
  }

  predicate AllOk(pending: map<Identity, PendingReply>, clock: Time, next: nat, timing: Timing) {
    && (forall id | id in pending :: pending[id].Id() == id && ReplyOk(pending[id], clock, next, timing))
    && (forall a, b | a in pending && b in pending && pending[a].sequence == pending[b].sequence :: a == b)
  }

  /** Whatever waits is the newest of its request, or its time is over. */
  predicate AllNewest(pending: map<Identity, PendingReply>, newest: map<Identity, nat>, dropped: set<Contact>,
                      clock: Time) {
    forall id | id in pending :: IsNewest(pending[id], newest, dropped) || pending[id].expiresAt <= clock
  }

  predicate NewestOk(newest: map<Identity, nat>, next: nat) {
    forall id | id in newest :: newest[id] < next
  }

  /** A subset of a queue in order is in order. */
  lemma FewerStayOk(pending: map<Identity, PendingReply>, fewer: map<Identity, PendingReply>, clock: Time, now: Time,
                    next: nat, timing: Timing,
                    newest: map<Identity, nat>, dropped: set<Contact>)
    requires AllOk(pending, clock, next, timing) && AllNewest(pending, newest, dropped, clock) && clock <= now
    requires forall id | id in fewer :: id in pending && fewer[id] == pending[id]
    ensures AllOk(fewer, now, next, timing) && AllNewest(fewer, newest, dropped, now)
  {
  }

  /** Dropping what expired cannot make the held reply stale without its own time being over. */
  lemma HeldSurvivesExpiry(r: PendingReply, pending: map<Identity, PendingReply>, newest: map<Identity, nat>,
                           dropped: set<Contact>, clock: Time, now: Time)
    requires HeldOk(r, pending, newest, dropped, clock) && clock <= now
    ensures HeldOk(r, Unexpired(pending, now), newest, dropped, now)
  {
  }

  /** How far a walk over the sorted replies got: what it removed is ready, repeats a sent text, and came first. */
  predicate Walked(was: map<Identity, PendingReply>, left: map<Identity, PendingReply>, sent: map<SentText, Time>,
                   now: Time, timing: Timing) {
    && (forall id | id in left :: id in was && left[id] == was[id])
    && (forall id | id in was && id !in left :: was[id].readyAt <= now && IsRepeat(was[id], sent, now, timing))
    && (forall a, b | a in was && a !in left && b in left :: Precedes(was[a], was[b]))
  }

  predicate IsFirst(pending: map<Identity, PendingReply>, id: Identity) {
    id in pending && forall other | other in pending && other != id :: Precedes(pending[id], pending[other])
  }

  lemma WalkOn(was: map<Identity, PendingReply>, left: map<Identity, PendingReply>, sent: map<SentText, Time>,
               now: Time, timing: Timing, first: Identity)
    requires Walked(was, left, sent, now, timing) && IsFirst(left, first) && left[first].readyAt <= now
      && IsRepeat(left[first], sent, now, timing)
    ensures Walked(was, left - {first}, sent, now, timing)
  {
  }

  /** What a reply taken, or none, says about all that waited. */
  predicate TakenFrom(r: Option<PendingReply>, was: map<Identity, PendingReply>, sent: map<SentText, Time>,
                      now: Time, timing: Timing) {
    && (r.Some? ==> MayTake(r.value, was, sent, now, timing))
    && (r.Some? ==>
      forall id | id in was && MayTake(was[id], was, sent, now, timing) ::
        id == r.value.Id() || Precedes(r.value, was[id]))
    && (r.None? ==> forall id | id in was :: !MayTake(was[id], was, sent, now, timing))
  }

  /** What stays: unexpired and not ready yet, or after the reply taken. */
  predicate Stays(id: Identity, r: Option<PendingReply>, was: map<Identity, PendingReply>, now: Time) {
    id in was && was[id].expiresAt > now && (was[id].readyAt > now || (r.Some? && Precedes(r.value, was[id])))
  }

  lemma WalkEndsTaking(was: map<Identity, PendingReply>, left: map<Identity, PendingReply>,
                       sent: map<SentText, Time>, now: Time, timing: Timing, first: Identity)
    requires Walked(was, left, sent, now, timing) && IsFirst(left, first) && left[first].readyAt <= now
      && !IsRepeat(left[first], sent, now, timing)
    requires forall id | id in was :: was[id].Id() == id && was[id].expiresAt > now
    ensures TakenFrom(Some(left[first]), was, sent, now, timing)
    ensures forall id :: id in left - {first} <==> Stays(id, Some(left[first]), was, now)
  {
    var r := left[first];
    forall id ensures id in left - {first} <==> Stays(id, Some(r), was, now) {
      if id in was && id !in left {
        assert Precedes(was[id], was[first]);
      }
    }
  }

  lemma WalkEndsEmpty(was: map<Identity, PendingReply>, left: map<Identity, PendingReply>, sent: map<SentText, Time>,
                      now: Time, timing: Timing)
    requires Walked(was, left, sent, now, timing) && forall id | id in left :: left[id].readyAt > now
    requires forall id | id in was :: was[id].Id() == id && was[id].expiresAt > now
    ensures TakenFrom(None, was, sent, now, timing)
    ensures forall id :: id in left <==> Stays(id, None, was, now)
  {
  }

  /** Expired replies make no difference to what is taken. */
  lemma TakenFromUnexpired(r: Option<PendingReply>, pending: map<Identity, PendingReply>, sent: map<SentText, Time>,
                           now: Time, timing: Timing)
    requires TakenFrom(r, Unexpired(pending, now), sent, now, timing) && forall id | id in pending ::
      pending[id].Id() == id
    ensures TakenFrom(r, pending, sent, now, timing)
    ensures forall id :: Stays(id, r, Unexpired(pending, now), now) <==> Stays(id, r, pending, now)
  {
    var fewer := Unexpired(pending, now);
    forall id | id in pending ensures MayTake(pending[id], pending, sent, now, timing) <==>
      id in fewer && MayTake(fewer[id], fewer, sent, now, timing) {
    }
  }

  lemma RememberedLater(log: set<Recorded>, sent: map<SentText, Time>, clock: Time, now: Time, timing: Timing)
    requires Remembered(log, sent, clock, timing) && clock <= now
    ensures Remembered(log, sent, now, timing)
  {
  }

  /** What the queue remembers tells exactly what was recorded within the window. */
  lemma RepeatIsRecorded(r: PendingReply, log: set<Recorded>, sent: map<SentText, Time>, now: Time, timing: Timing)
    requires Remembered(log, sent, now, timing) && IsLogged(sent, log)
    ensures IsRepeat(r, sent, now, timing) <==> !r.bypassesSuppression && WentOutLately(r, log, now, timing)
  {
    if IsRepeat(r, sent, now, timing) {
      assert Recorded(r.Sent(), sent[r.Sent()]) in log;
    }
  }

  lemma TakenIsNextToGo(r: Option<PendingReply>, was: map<Identity, PendingReply>, log: set<Recorded>,
                        sent: map<SentText, Time>, now: Time, timing: Timing)
    requires Remembered(log, sent, now, timing) && IsLogged(sent, log) && TakenFrom(r, was, sent, now, timing)
    requires forall id | id in was :: was[id].Id() == id
    ensures IsNextToGo(r, was, log, now, timing)
  {
    forall id | id in was ensures MayGo(was[id], log, now, timing) <==> MayTake(was[id], was, sent, now, timing) {
      RepeatIsRecorded(was[id], log, sent, now, timing);
    }
  }

  ghost function StaleContacts(pending: map<Identity, PendingReply>, existing: set<Contact>): set<Contact> {
    set id | id in pending && id.contact !in existing :: id.contact
  }

  lemma DroppedStayOk(pending: map<Identity, PendingReply>, fewer: map<Identity, PendingReply>,
                      existing: set<Contact>, clock: Time, next: nat, timing: Timing,
                      newest: map<Identity, nat>, dropped: set<Contact>)
    requires AllOk(pending, clock, next, timing) && AllNewest(pending, newest, dropped, clock)
    requires forall id | id in fewer :: id in pending && fewer[id] == pending[id]
    ensures AllOk(fewer, clock, next, timing)
    ensures AllNewest(fewer, newest, dropped + StaleContacts(pending, existing), clock)
  {
  }

  /** The held reply's newer replacement goes only with its contact. */
  lemma HeldSurvivesDrop(r: PendingReply, pending: map<Identity, PendingReply>, fewer: map<Identity, PendingReply>,
                         existing: set<Contact>,
                         newest: map<Identity, nat>, dropped: set<Contact>, clock: Time)
    requires HeldOk(r, pending, newest, dropped, clock)
    requires forall id :: id in fewer <==> id in pending && id.contact in existing
    requires forall id | id in fewer :: fewer[id] == pending[id]
    ensures HeldOk(r, fewer, newest, dropped + StaleContacts(pending, existing), clock)
  {
    if r.Id() in pending && r.Id() !in fewer {
      assert r.Id().contact in StaleContacts(pending, existing);
    }
  }

  class ReplyQueue {
    const timing: Timing
    var pending: map<Identity, PendingReply>
    var sent: map<SentText, Time>
    var nextSequence: nat

    ghost var clock: Time
    ghost var newest: map<Identity, nat>
    ghost var dropped: set<Contact>
    ghost var log: set<Recorded>
    ghost var held: Option<PendingReply>

    ghost predicate Valid()
      reads this
    {
      && timing.Valid()
      && AllOk(pending, clock, nextSequence, timing)
      && AllNewest(pending, newest, dropped, clock)
      && NewestOk(newest, nextSequence)
      && Remembered(log, sent, clock, timing)
      && IsLogged(sent, log)
      && (held.Some? ==>
        ReplyOk(held.value, clock, nextSequence, timing) && HeldOk(held.value, pending, newest, dropped, clock)
                         && forall id | id in pending :: pending[id].sequence != held.value.sequence)
    }

    constructor (timing: Timing)
      requires timing.Valid()
      ensures Valid() && this.timing == timing && pending == map[] && held.None? && log == {} && dropped == {}
    {
      this.timing := timing;
      pending, sent, nextSequence := map[], map[], 0;
      clock, newest, dropped, log, held := 0.0, map[], {}, {}, None;
    }

    /** Queues a reply in place of any older one to the same request. */
    method Enqueue(reply: PendingReply, now: Time)
      requires Valid() && clock <= now
      requires reply.sequence == nextSequence && reply.createdAt == now && reply.expiresAt == now + timing.lifetime
      modifies this
      ensures Valid() && clock == now
      ensures pending == old(pending)[reply.Id() := reply] && nextSequence == old(nextSequence) + 1
      ensures newest == old(newest)[reply.Id() := reply.sequence]
      ensures sent == old(sent) && dropped == old(dropped) && log == old(log) && held == old(held)
    {
      pending := pending[reply.Id() := reply];
      nextSequence := nextSequence + 1;
      newest := newest[reply.Id() := reply.sequence];
      clock := now;
    }

    /** A reply of the services: an incomplete status waits for further parts, anything else is ready at once. */
    method AddReply(contact: Contact, key: ReplyKey, text: ReplyText, coalesced: bool, now: Time)
      returns (reply: PendingReply)
      requires Valid() && clock <= now
      modifies this
      ensures Valid() && clock == now
      ensures reply.contact == contact && reply.key == key && reply.text == text && !reply.bypassesSuppression
      ensures reply.readyAt == now + (if coalesced then timing.coalescing else 0.0)
        && reply.sequence == old(nextSequence)
      ensures pending == old(pending)[reply.Id() := reply] && newest == old(newest)[reply.Id() := reply.sequence]
      ensures sent == old(sent) && dropped == old(dropped) && log == old(log) && held == old(held)
    {
      var delay := if coalesced then timing.coalescing else 0.0;
      reply := PendingReply(contact, key, text, now + delay, now, now + timing.lifetime, nextSequence, false);
      Enqueue(reply, now);
    }

    /** A repeat by flood: ready now and exempt from suppression. */
    method AddFloodResend(contact: Contact, key: ReplyKey, text: ReplyText, now: Time) returns (reply: PendingReply)
      requires Valid() && clock <= now
      modifies this
      ensures Valid() && clock == now
      ensures reply.contact == contact && reply.key == key && reply.text == text && reply.bypassesSuppression
      ensures reply.readyAt == now && reply.sequence == old(nextSequence)
      ensures pending == old(pending)[reply.Id() := reply] && newest == old(newest)[reply.Id() := reply.sequence]
      ensures sent == old(sent) && dropped == old(dropped) && log == old(log) && held == old(held)
    {
      reply := PendingReply(contact, key, text, now, now, now + timing.lifetime, nextSequence, true);
      Enqueue(reply, now);
    }

    /**
     Back into the queue, if nothing newer waits under its identity and it lives that long. The
     sender passes the end of its back-off; a time already past only makes the reply ready at once.
     */
    method PutBack(reply: PendingReply, readyAt: Time, now: Time) returns (waits: bool)
      requires Valid() && clock <= now && held == Some(reply)
      modifies this
      ensures Valid() && clock == now && held.None?
      ensures waits <==> reply.Id() !in old(pending) && readyAt < reply.expiresAt
      ensures pending == if waits then old(pending)[reply.Id() := reply.(readyAt := readyAt)] else old(pending)
      ensures sent == old(sent) && newest == old(newest) && dropped == old(dropped) && log == old(log)
    {
      waits := reply.Id() !in pending && readyAt < reply.expiresAt;
      if waits {
        pending := pending[reply.Id() := reply.(readyAt := readyAt)];
      }
      clock := now;
      held := None;
    }

    method DropExpired(now: Time)
      requires Valid() && clock <= now
      modifies `pending, `clock
      ensures Valid() && clock == now && pending == Unexpired(old(pending), now)
    {
      var expired := set id | id in pending && pending[id].expiresAt <= now;
      ghost var was := pending;
      RemoveAll(expired);
      UnexpiredAre(was, pending, now);
      FewerStayOk(was, pending, clock, now, nextSequence, timing, newest, dropped);
      RememberedLater(log, sent, clock, now, timing);
      if held.Some? {
        HeldSurvivesExpiry(held.value, was, newest, dropped, clock, now);
      }
      clock := now;
    }

    /** The first waiting reply by (ready time, sequence). */
    method FindFirst() returns (r: Option<Identity>)
      requires AllOk(pending, clock, nextSequence, timing)
      ensures r.None? ==> pending == map[]
      ensures r.Some? ==> IsFirst(pending, r.value)
    {
      r := None;
      var left := pending.Keys;
      while left != {}
        invariant left <= pending.Keys
        invariant r.None? ==> left == pending.Keys
        invariant r.Some? ==> r.value in pending && r.value !in left
        invariant r.Some? ==>
          forall id | id in pending && id !in left && id != r.value :: Precedes(pending[r.value], pending[id])
        decreases |left|
      {
        var id :| id in left;
        left := left - {id};
        if r.None? || Precedes(pending[id], pending[r.value]) {
          r := Some(id);
        }
      }
    }

    method Remove(id: Identity)
      requires Valid() && held.None? && id in pending
      modifies `pending
      ensures Valid() && pending == old(pending) - {id}
    {
      ghost var was := pending;
      pending := pending - {id};
      FewerStayOk(was, pending, clock, clock, nextSequence, timing, newest, dropped);
    }

    /** Drops the ready repeats that come first; what is first then may be taken, or is not ready. */
    method DropRepeats(now: Time) returns (first: Option<Identity>)
      requires Valid() && held.None?
      modifies `pending
      ensures Valid() && Walked(old(pending), pending, sent, now, timing)
      ensures first.None? ==> forall id | id in pending :: pending[id].readyAt > now
      ensures first.Some? ==>
        IsFirst(pending, first.value) && pending[first.value].readyAt <= now
          && !IsRepeat(pending[first.value], sent, now, timing)
    {
      ghost var was := pending;
      while true
        invariant Walked(was, pending, sent, now, timing)
        decreases |pending|
      {
        FewerStayOk(was, pending, clock, clock, nextSequence, timing, newest, dropped);
        first := FindFirst();
        if first.None? || pending[first.value].readyAt > now {
          return None;
        }
        if !IsRepeat(pending[first.value], sent, now, timing) {
          return;
        }
        WalkOn(was, pending, sent, now, timing, first.value);
        pending := pending - {first.value};
      }
    }

    /** The first unsuppressed ready reply, with the repeats before it dropped; nothing here has expired. */
    method TakeFirstUnsuppressed(now: Time) returns (r: Option<PendingReply>)
      requires Valid() && clock == now && held.None? && forall id | id in pending :: pending[id].expiresAt > now
      modifies `pending, `held
      ensures Valid() && held == r
      ensures TakenFrom(r, old(pending), sent, now, timing)
      ensures forall id :: id in pending <==> Stays(id, r, old(pending), now)
      ensures forall id | id in pending :: id in old(pending) && pending[id] == old(pending)[id]
      ensures r.Some? ==> IsNewest(r.value, newest, dropped)
    {
      ghost var was := pending;
      var first := DropRepeats(now);
      if first.None? {
        WalkEndsEmpty(was, pending, sent, now, timing);
        return None;
      }
      WalkEndsTaking(was, pending, sent, now, timing, first.value);
      r := Some(pending[first.value]);
      Remove(first.value);
      held := r;
    }

    /**
     Drops what expired and every ready repeat, and takes the first reply left. It is the first of
     all that are unexpired, ready and, unless flood resends, not recorded as sent to the contact
     within the suppression window; none newer under its identity was queued, for a contact that
     was never dropped.
     */
    method TakeNextReadyReply(now: Time) returns (r: Option<PendingReply>)
      requires Valid() && clock <= now && held.None?
      modifies `pending, `clock, `held
      ensures Valid() && clock == now && held == r
      ensures TakenFrom(r, old(pending), sent, now, timing)
      ensures forall id :: id in pending <==> Stays(id, r, old(pending), now)
      ensures forall id | id in pending :: id in old(pending) && pending[id] == old(pending)[id]
      ensures r.Some? ==> IsNewest(r.value, newest, dropped)
      ensures IsNextToGo(r, old(pending), log, now, timing)
    {
      ghost var was := pending;
      DropExpired(now);
      r := TakeFirstUnsuppressed(now);
      TakenFromUnexpired(r, was, sent, now, timing);
      TakenIsNextToGo(r, was, log, sent, now, timing);
    }

    /** Recording a sent text starts its suppression window; a flood resend starts none. */
    method RecordReplySent(reply: PendingReply, now: Time)
      requires Valid() && clock <= now && held == Some(reply)
      modifies this
      ensures Valid() && clock == now && held.None?
      ensures log == if reply.bypassesSuppression then old(log) else old(log) + {Recorded(reply.Sent(), now)}
      ensures pending == old(pending) && newest == old(newest) && dropped == old(dropped)
        && nextSequence == old(nextSequence)
    {
      clock := now;
      held := None;
      if reply.bypassesSuppression {
        return;
      }
      ForgetOldTexts(now);
      sent := sent[reply.Sent() := now];
      log := log + {Recorded(reply.Sent(), now)};
    }

    /** Only texts whose window is over are forgotten. */
    method ForgetOldTexts(now: Time)
      requires Remembered(log, sent, clock, timing) && clock <= now
      modifies `sent
      ensures Remembered(log, sent, now, timing)
      ensures forall what | what in sent :: what in old(sent) && sent[what] == old(sent)[what]
    {
      var all := set what | what in sent && now - sent[what] >= timing.suppression;
      var left := all;
      ghost var was := sent;
      while left != {}
        invariant left <= all
        invariant forall what :: what in sent <==> what in was && what !in all - left
        invariant forall what | what in sent :: sent[what] == was[what]
        decreases |left|
      {
        var what :| what in left;
        sent := sent - {what};
        left := left - {what};
      }
    }

    /** The sender gives up the reply it holds: its contact is gone or off the node. */
    ghost method Release()
      requires Valid()
      modifies `held
      ensures Valid() && held.None?
    {
      held := None;
    }

    /** When the next reply becomes ready. */
    method NextReadyTime(now: Time) returns (at: Option<Time>)
      requires Valid() && clock <= now
      modifies `pending, `clock
      ensures Valid() && clock == now && pending == Unexpired(old(pending), now)
      ensures at.None? <==> pending == map[]
      ensures at.Some? ==>
        (exists id | id in pending :: pending[id].readyAt == at.value) && forall id | id in pending ::
          at.value <= pending[id].readyAt
    {
      DropExpired(now);
      var first := FindFirst();
      if first.None? {
        return None;
      }
      return Some(pending[first.value].readyAt);
    }

    method RemoveAll(stale: set<Identity>)
      requires stale <= pending.Keys
      modifies `pending
      ensures forall id :: id in pending <==> id in old(pending) && id !in stale
      ensures forall id | id in pending :: pending[id] == old(pending)[id]
      ensures |pending| == |old(pending)| - |stale|
    {
      ghost var was := pending;
      var left := stale;
      while left != {}
        invariant left <= stale
        invariant forall id :: id in pending <==> id in was && id !in stale - left
        invariant forall id | id in pending :: pending[id] == was[id]
        decreases |left|
      {
        var id :| id in left;
        pending := pending - {id};
        left := left - {id};
      }
      assert pending.Keys == was.Keys - stale;
    }

    /** Keeps the replies to contacts that still exist. */
    method DropContactsOtherThan(existing: set<Contact>) returns (count: nat)
      requires Valid()
      modifies `pending, `dropped
      ensures Valid()
      ensures forall id :: id in pending <==> id in old(pending) && id.contact in existing
      ensures forall id | id in pending :: pending[id] == old(pending)[id]
      ensures count == |old(pending)| - |pending|
      ensures dropped == old(dropped) + StaleContacts(old(pending), existing)
    {
      var stale := set id | id in pending && id.contact !in existing;
      count := |stale|;
      ghost var was := pending;
      RemoveAll(stale);
      DroppedStayOk(was, pending, existing, clock, nextSequence, timing, newest, dropped);
      if held.Some? {
        HeldSurvivesDrop(held.value, was, pending, existing, newest, dropped, clock);
      }
      dropped := dropped + StaleContacts(was, existing);
    }
  }
}
