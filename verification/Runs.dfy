/** Every run of the delivery engine from empty tables: what holds in each reachable state and along each run. */
module Runs {
  import opened Options
  import opened Times
  import opened RetrySchedule
  import opened Tables
  import opened DeliveryRows
  import opened ReceiptRows
  import opened Transitions
  import opened Invariants
  import opened StepProofs
  import opened RowEffects
  import opened Scheduling
  import opened TransitionSystems

  /** A transaction, under the configuration and at the time it ran. */
  datatype Event = Event(step: Step, cfg: Settings, now: Time)

  datatype Snapshot = Snapshot(tables: State, clock: Time)

  ghost function Next(): (Snapshot, Event) -> Snapshot {
    (w: Snapshot, e: Event) => Snapshot(Apply(w.tables, e.step, e.cfg, e.now), e.now)
  }

  /** The clock does not run backwards, and the lists a step carries are what its queries returned. */
  ghost predicate CanHappen(w: Snapshot, e: Event) {
    w.clock <= e.now && e.cfg.Valid() && Enabled(w.tables, e.step, e.cfg, e.now)
  }

  ghost function May(): (Snapshot, Event) -> bool {
    (w: Snapshot, e: Event) => CanHappen(w, e)
  }

  ghost predicate IsRun(w: Snapshot, events: seq<Event>) {
    Allowed(Next(), May(), w, events)
  }

  ghost function Final(w: Snapshot, events: seq<Event>): Snapshot {
    RunFrom(Next(), w, events)
  }

  const EMPTY_TABLES: State := State(map[], map[], map[], map[], map[], map[], 0, 0, 0)

  /** A state the engine gets to from empty tables. */
  ghost predicate Reachable(w: Snapshot) {
    exists start: Time, events: seq<Event> :: IsRunFromEmpty(start, events, w)
  }

  ghost predicate IsRunFromEmpty(start: Time, events: seq<Event>, w: Snapshot) {
    IsRun(Snapshot(EMPTY_TABLES, start), events) && w == Final(Snapshot(EMPTY_TABLES, start), events)
  }

  ghost predicate InOrder(w: Snapshot) {
    Inv(w.tables, w.clock)
  }

  lemma EmptyTablesOk(start: Time)
    ensures Inv(EMPTY_TABLES, start)
  {
  }

  lemma EventKeepsInv(w: Snapshot, e: Event)
    requires InOrder(w) && CanHappen(w, e)
    ensures InOrder(Next()(w, e)) && Evolves(w.tables, Next()(w, e).tables)
  {
    StepKeepsInv(w.tables, e.step, e.cfg, w.clock, e.now);
  }

  lemma RunKeepsInv(w: Snapshot, events: seq<Event>)
    requires InOrder(w) && IsRun(w, events)
    ensures InOrder(Final(w, events))
  {
    forall x: Snapshot, e: Event | InOrder(x) && CanHappen(x, e) ensures InOrder(Next()(x, e)) {
      EventKeepsInv(x, e);
    }
    KeptByRun(Next(), May(), (x: Snapshot) => InOrder(x), w, events);
  }

  /** The invariant holds in every reachable state. */
  lemma ReachableInv(w: Snapshot)
    requires Reachable(w)
    ensures Inv(w.tables, w.clock)
  {
    var start: Time, events: seq<Event> :| IsRunFromEmpty(start, events, w);
    EmptyTablesOk(start);
    RunKeepsInv(Snapshot(EMPTY_TABLES, start), events);
  }

  /**
   Along every run, rows only evolve: parts, acceptances, levels, arms and attempts never fall
   back, and delivered is final.
   */
  lemma RunEvolves(w: Snapshot, events: seq<Event>)
    requires InOrder(w) && IsRun(w, events)
    ensures Evolves(w.tables, Final(w, events).tables)
  {
    forall x: Snapshot, e: Event | InOrder(x) && CanHappen(x, e)
      ensures InOrder(Next()(x, e)) && Evolves(x.tables, Next()(x, e).tables)
    {
      EventKeepsInv(x, e);
    }
    forall x: Snapshot ensures Evolves(x.tables, x.tables) {
      EvolvesReflexive(x.tables);
    }
    forall x: Snapshot, y: Snapshot, z: Snapshot | Evolves(x.tables, y.tables) && Evolves(y.tables, z.tables)
      ensures Evolves(x.tables, z.tables)
    {
      EvolvesTransitive(x.tables, y.tables, z.tables);
    }
    RelatedByRun(Next(), May(), (x: Snapshot) =>
      InOrder(x), (x: Snapshot, y: Snapshot) => Evolves(x.tables, y.tables), w, events);
  }

  // ----- refresh sessions -------------------------------------------------------------------------

  /**
   Single head: an active session owns exactly one pending delivery and counts all it owns;
   a session that ended owns nothing pending or queued; and a device has at most one active
   session with a peer.
   */
  lemma SingleHead(w: Snapshot, sid: SessionId)
    requires Reachable(w) && sid in w.tables.sessions
    ensures var s := w.tables;
      if s.sessions[sid].state.Active? then
        && (exists h :: IsHead(s, sid, h) && forall g :: IsHead(s, sid, g) ==> g == h)
        && s.sessions[sid].messagesTotal == |Owned(s, sid)|
        && (forall other | IsActiveSession(s, other, s.sessions[sid].device, s.sessions[sid].peer) :: other == sid)
      else
        Outstanding(s, sid) == {}
  {
    ReachableInv(w);
    var s := w.tables;
    if s.sessions[sid].state.Active? {
      assert SessionOk(s, sid);
    } else {
      forall k | k in s.deliveries ensures !IsHead(s, sid, k) && !IsQueued(s, sid, k) {
        assert RowLinksOk(s, k);
      }
    }
  }

  /**
   No gap: whatever an active session owns is delivered, queued or its head; everything accepted
   before the head is delivered, and nothing queued was accepted before it.
   */
  lemma NoGap(w: Snapshot, sid: SessionId, head: RowKey, k: RowKey)
    requires Reachable(w) && sid in w.tables.sessions && w.tables.sessions[sid].state.Active?
    requires IsHead(w.tables, sid, head) && Owns(w.tables, sid, k)
    ensures var s := w.tables;
      && (s.deliveries[k].state.Delivered? || IsQueued(s, sid, k) || k == head)
      && (AcceptedAt(s, k) < AcceptedAt(s, head) ==> s.deliveries[k].state.Delivered?)
      && (IsQueued(s, sid, k) ==> AcceptedAt(s, head) <= AcceptedAt(s, k))
      && k.device == s.sessions[sid].device && k.message.sender == s.sessions[sid].peer
  {
    ReachableInv(w);
    var s := w.tables;
    assert SessionOk(s, sid);
    assert RowLinksOk(s, k);
    assert IsHead(s, sid, k) ==> k == head;
  }

  // ----- rounds and counters ------------------------------------------------------------------------

  /**
   A live row's round is a set of missing parts of its message, its received set is never full,
   and no more rounds started than allowed; so the walk's branch that completes a non-empty but
   already reported round is never taken.
   */
  lemma RoundsStayInside(w: Snapshot, k: RowKey)
    requires Reachable(w) && k in w.tables.deliveries && w.tables.deliveries[k].Live()
    ensures k.message in w.tables.messages
    ensures var d, parts := w.tables.deliveries[k], w.tables.messages[k.message].Parts();
      && d.roundParts <= parts && d.roundParts !! d.receivedParts
      && d.receivedParts < parts
      && d.attemptCount <= d.maximumAttempts
      && !(PartsLeft(d) == {} && d.roundParts != {})
  {
    ReachableInv(w);
    assert RowLinksOk(w.tables, k);
    assert RowCountersOk(w.tables.deliveries[k], w.tables.messages[k.message].Parts());
  }

  // ----- packets and rows ---------------------------------------------------------------------------

  /** The packet's row, a delivery or a receipt, moved on since: to a later arm, or to a later round of the same arm. */
  predicate MovedOn(s: State, id: PacketId) {
    && id in s.packets
    && var p := s.packets[id];
    match p.purpose
    case DeliveryPart(_) =>
      && p.row in s.deliveries
      && (p.armGeneration, p.attemptNumber) != (s.deliveries[p.row].armGeneration, s.deliveries[p.row].attemptCount)
    case ReceiptPush(_) =>
      && p.row in s.receipts
      && (p.armGeneration, p.attemptNumber) != (s.receipts[p.row].armGeneration, s.receipts[p.row].attemptCount)
  }

  lemma MovedOnStays(s: State, t: State, id: PacketId)
    requires PacketsOk(s) && Evolves(s, t) && MovedOn(s, id)
    ensures MovedOn(t, id)
  {
    var p := s.packets[id];
    assert PacketOk(s, p);
    assert PacketEvolves(p, t.packets[id]);
    if p.purpose.DeliveryPart? {
      RowEvolved(s, t, p.row);
    } else {
      ReceiptEvolved(s, t, p.row);
    }
  }

  lemma StaleOutcome(s: State, id: PacketId, outcome: SendOutcome, cfg: Settings, now: Time)
    requires MovedOn(s, id)
    ensures var t := RecordOutcome(s, id, outcome, cfg, now);
      t.deliveries == s.deliveries && t.receipts == s.receipts
  {
  }

  /**
   Once its row moved on, a packet's outcome changes no delivery and no receipt, however late it
   arrives in whatever run.
   */
  lemma StalePacketsChangeNothing(w: Snapshot, events: seq<Event>, id: PacketId, outcome: SendOutcome, cfg: Settings,
                                  now: Time)
    requires InOrder(w) && IsRun(w, events) && MovedOn(w.tables, id)
    ensures var s := Final(w, events).tables;
      var t := RecordOutcome(s, id, outcome, cfg, now);
      t.deliveries == s.deliveries && t.receipts == s.receipts
  {
    RunEvolves(w, events);
    MovedOnStays(w.tables, Final(w, events).tables, id);
    StaleOutcome(Final(w, events).tables, id, outcome, cfg, now);
  }

  /** The row before and after: only the round, the time of the last send and the next due time differ. */
  predicate DiffersInRoundOnly(d: Delivery, e: Delivery) {
    e == d.(roundParts := e.roundParts, lastSentAt := e.lastSentAt, nextAttemptAt := e.nextAttemptAt)
  }

  /**
   An outcome takes at most the packet's own part out of the round of its own row, notes the time
   of the send, and sets a new due time only if that empties the round; everything else of
   the row, and every other row, stays as it is.
   */
  lemma OutcomeRemovesOwnPart(s: State, id: PacketId, outcome: SendOutcome, cfg: Settings, now: Time, k: RowKey)
    requires id in s.packets && k in s.deliveries
    ensures var t := RecordOutcome(s, id, outcome, cfg, now);
      var p := s.packets[id];
      && k in t.deliveries
      && var d, e := s.deliveries[k], t.deliveries[k];
      && (e != d ==>
            && k == p.row && p.purpose.DeliveryPart? && p.state.Prepared? && CountsAsSent(outcome)
              && MatchesDelivery(s, p)
            && DiffersInRoundOnly(d, e)
            && e.roundParts == d.roundParts - {p.purpose.part}
            && e.lastSentAt == Some(now)
            && (e.nextAttemptAt != d.nextAttemptAt ==> d.roundParts == {p.purpose.part}))
  {
    OutcomeAt(s, id, outcome, cfg, now, k);
    PartSentKeeps(s.deliveries[k], if s.packets[id].purpose.DeliveryPart? then s.packets[id].purpose.part
      else 0, Suggestion(outcome), cfg, now);
  }

  /** ... and the packet is settled. */
  lemma OutcomeSettles(s: State, id: PacketId, outcome: SendOutcome, cfg: Settings, now: Time)
    requires id in s.packets
    ensures var t := RecordOutcome(s, id, outcome, cfg, now);
      id in t.packets && !t.packets[id].state.Prepared?
  {
  }

  lemma SettledOutcome(s: State, t: State, id: PacketId, outcome: SendOutcome, cfg: Settings, now: Time)
    requires id in s.packets && !s.packets[id].state.Prepared? && PacketsEvolve(s, t)
    ensures RecordOutcome(t, id, outcome, cfg, now) == t
  {
    assert PacketEvolves(s.packets[id], t.packets[id]);
  }

  /** ... and at most once: after any further run, restarts included, a second outcome of the same packet is a no-op. */
  lemma OutcomeCountsOnce(w: Snapshot, events: seq<Event>, id: PacketId, outcome: SendOutcome, cfg: Settings, now: Time)
    requires InOrder(w) && IsRun(w, events) && id in w.tables.packets && !w.tables.packets[id].state.Prepared?
    ensures var s := Final(w, events).tables;
      RecordOutcome(s, id, outcome, cfg, now) == s
  {
    RunEvolves(w, events);
    SettledOutcome(w.tables, Final(w, events).tables, id, outcome, cfg, now);
  }

  // ----- who delivers -------------------------------------------------------------------------------

  predicate IsDelivered(s: State, k: RowKey) {
    k in s.deliveries && s.deliveries[k].state.Delivered?
  }

  lemma SplitRun(w: Snapshot, events: seq<Event>, i: nat)
    requires IsRun(w, events) && i <= |events|
    ensures IsRun(w, events[..i]) && IsRun(Final(w, events[..i]), events[i..])
    ensures Final(w, events) == Final(Final(w, events[..i]), events[i..])
  {
    assert events == events[..i] + events[i..];
    RunInHalves(Next(), May(), w, events[..i], events[i..]);
  }

  /** The last event of a run, and the state it met. */
  lemma LastEvent(w: Snapshot, events: seq<Event>)
    requires IsRun(w, events) && events != []
    ensures var n := |events| - 1;
      && IsRun(w, events[..n]) && CanHappen(Final(w, events[..n]), events[n])
      && Final(w, events) == Next()(Final(w, events[..n]), events[n])
  {
    var n := |events| - 1;
    SplitRun(w, events, n);
    var v := Final(w, events[..n]);
    assert events[n..] == [events[n]];
    OneEvent(v, events[n]);
  }

  lemma OneEvent(v: Snapshot, e: Event)
    ensures IsRun(v, [e]) <==> CanHappen(v, e)
    ensures Final(v, [e]) == Next()(v, e)
  {
    var v1 := Next()(v, e);
    assert [e][1..] == [];
    assert Allowed(Next(), May(), v1, []);
    assert RunFrom(Next(), v1, []) == v1;
  }

  lemma EmptyIsReachable(start: Time)
    ensures Reachable(Snapshot(EMPTY_TABLES, start))
  {
    assert IsRunFromEmpty(start, [], Snapshot(EMPTY_TABLES, start));
  }

  /** One more event leads from a reachable state to a reachable state. */
  lemma OneMoreEvent(w: Snapshot, e: Event)
    requires Reachable(w) && CanHappen(w, e)
    ensures Reachable(Next()(w, e))
  {
    var start: Time, events: seq<Event> :| IsRunFromEmpty(start, events, w);
    RunInHalves(Next(), May(), Snapshot(EMPTY_TABLES, start), events, [e]);
    OneEvent(w, e);
    assert IsRunFromEmpty(start, events + [e], Next()(w, e));
  }

  lemma DeliveringEvent(v: Snapshot, e: Event, k: RowKey)
    requires InOrder(v) && CanHappen(v, e) && !IsDelivered(v.tables, k) && IsDelivered(Next()(v, e).tables, k)
    ensures ConfirmsRow(v.tables, e.step, k)
  {
    DeliveredOnlyByReport(v.tables, e.step, e.cfg, v.clock, e.now, k);
  }

  /** The event with this index turns the row delivered, and is a full status or a read of that device. */
  ghost predicate DeliversAt(w: Snapshot, events: seq<Event>, i: nat, k: RowKey)
    requires i < |events|
  {
    && !IsDelivered(Final(w, events[..i]).tables, k)
    && ConfirmsRow(Final(w, events[..i]).tables, events[i].step, k)
    && IsDelivered(Final(w, events[..i + 1]).tables, k)
  }

  lemma PrefixDelivers(w: Snapshot, events: seq<Event>, n: nat, i: nat, k: RowKey)
    requires i < n <= |events| && DeliversAt(w, events[..n], i, k)
    ensures DeliversAt(w, events, i, k)
  {
    assert events[..n][..i] == events[..i] && events[..n][..i + 1] == events[..i + 1];
  }

  lemma LastDelivers(w: Snapshot, events: seq<Event>, k: RowKey)
    requires InOrder(w) && IsRun(w, events) && events != []
    requires !IsDelivered(Final(w, events[..|events| - 1]).tables, k) && IsDelivered(Final(w, events).tables, k)
    ensures DeliversAt(w, events, |events| - 1, k)
  {
    var n := |events| - 1;
    LastEvent(w, events);
    RunKeepsInv(w, events[..n]);
    DeliveringEvent(Final(w, events[..n]), events[n], k);
    assert events[..n + 1] == events;
  }

  /**
   A delivered row was turned delivered by one event of the run: a single status of all ones from
   that device, or a read from that device.
   */
  lemma {:induction false} DeliveryHasItsReport(w: Snapshot, events: seq<Event>, k: RowKey) returns (i: nat)
    requires InOrder(w) && IsRun(w, events)
    requires !IsDelivered(w.tables, k) && IsDelivered(Final(w, events).tables, k)
    ensures i < |events| && DeliversAt(w, events, i, k)
    decreases |events|
  {
    if events == [] {
      assert false;
    }
    var n := |events| - 1;
    SplitRun(w, events, n);
    if IsDelivered(Final(w, events[..n]).tables, k) {
      i := DeliveryHasItsReport(w, events[..n], k);
      PrefixDelivers(w, events, n, i, k);
    } else {
      i := n;
      LastDelivers(w, events, k);
    }
  }

  /** Delivered is final: the row never changes again. */
  lemma DeliveredIsFinal(w: Snapshot, events: seq<Event>, k: RowKey)
    requires InOrder(w) && IsRun(w, events) && IsDelivered(w.tables, k)
    ensures k in Final(w, events).tables.deliveries && Final(w, events).tables.deliveries[k] == w.tables.deliveries[k]
  {
    RunEvolves(w, events);
    RowEvolved(w.tables, Final(w, events).tables, k);
  }

  lemma RowEvolved(s: State, t: State, k: RowKey)
    requires Evolves(s, t) && k in s.deliveries
    ensures k in t.deliveries && DeliveryEvolves(s.deliveries[k], t.deliveries[k])
  {
  }

  /** Arm generation and attempt number never fall back, lexicographically. */
  lemma ArmsOnlyGrow(w: Snapshot, events: seq<Event>, k: RowKey)
    requires InOrder(w) && IsRun(w, events) && k in w.tables.deliveries
    ensures k in Final(w, events).tables.deliveries
    ensures var d, e := w.tables.deliveries[k], Final(w, events).tables.deliveries[k];
      LexLe(d.armGeneration, d.attemptCount, e.armGeneration, e.attemptCount)
  {
    RunEvolves(w, events);
    RowEvolved(w.tables, Final(w, events).tables, k);
  }

  /** What the device last reported: replaced by every status that counts, emptied when a cancelled row is revived. */
  ghost function LatestReport(w: Snapshot, events: seq<Event>, k: RowKey): set<nat>
    decreases |events|
  {
    if events == [] then (if k in w.tables.deliveries then w.tables.deliveries[k].receivedParts else {})
    else
      var n := |events| - 1;
      ReportAfter(Final(w, events[..n]).tables, events[n].step, events[n].cfg, events[n].now, k,
        LatestReport(w, events[..n], k))
  }

  /** The received set of an undelivered row is the latest report of the whole run, never a union of reports. */
  lemma {:induction false} ReceivedSetOverRun(w: Snapshot, events: seq<Event>, k: RowKey)
    requires InOrder(w) && IsRun(w, events)
    requires k in Final(w, events).tables.deliveries && !IsDelivered(Final(w, events).tables, k)
    ensures Final(w, events).tables.deliveries[k].receivedParts == LatestReport(w, events, k)
    decreases |events|
  {
    if events == [] {
      assert Final(w, events) == w;
    } else {
      var n := |events| - 1;
      LastEvent(w, events);
      var v := Final(w, events[..n]);
      RunKeepsInv(w, events[..n]);
      ReceivedAfterEvent(v, events[n], k);
      if k in v.tables.deliveries {
        EventKeepsInv(v, events[n]);
        RowEvolved(v.tables, Final(w, events).tables, k);
        ReceivedSetOverRun(w, events[..n], k);
      }
    }
  }

  lemma ReceivedAfterEvent(v: Snapshot, e: Event, k: RowKey)
    requires InOrder(v) && CanHappen(v, e)
    requires k in Next()(v, e).tables.deliveries && !IsDelivered(Next()(v, e).tables, k)
    ensures var previous := if k in v.tables.deliveries then v.tables.deliveries[k].receivedParts else {};
      Next()(v, e).tables.deliveries[k].receivedParts == ReportAfter(v.tables, e.step, e.cfg, e.now, k, previous)
  {
    ReceivedSetIsLatestReport(v.tables, e.step, e.cfg, v.clock, e.now, k);
  }

  // ----- the per-device limit -----------------------------------------------------------------------

  /** The operator did not change the limit during the run. */
  predicate FixedLimit(events: seq<Event>, limit: nat) {
    forall i | 0 <= i < |events| :: events[i].cfg.activeLimit == limit
  }

  ghost predicate Capped(w: Snapshot, limit: nat) {
    InOrder(w) && CapOk(w.tables, limit)
  }

  lemma EventKeepsCap(w: Snapshot, e: Event, limit: nat)
    requires Capped(w, limit) && CanHappen(w, e) && e.cfg.activeLimit == limit
    ensures Capped(Next()(w, e), limit)
  {
    EventKeepsInv(w, e);
    StepKeepsCap(w.tables, e.step, e.cfg, w.clock, e.now);
  }

  /** For a fixed limit, no device ever has more deliveries in progress than that. */
  lemma {:induction false} RunKeepsCap(w: Snapshot, events: seq<Event>, limit: nat)
    requires Capped(w, limit) && IsRun(w, events) && FixedLimit(events, limit)
    ensures Capped(Final(w, events), limit)
    decreases |events|
  {
    if events == [] {
      assert Final(w, events) == w;
    } else {
      var n := |events| - 1;
      LastEvent(w, events);
      RunKeepsCap(w, events[..n], limit);
      EventKeepsCap(Final(w, events[..n]), events[n], limit);
    }
  }

  lemma CapFromEmpty(start: Time, events: seq<Event>, limit: nat, device: DeviceId)
    requires IsRun(Snapshot(EMPTY_TABLES, start), events) && FixedLimit(events, limit)
    ensures |InProgress(Final(Snapshot(EMPTY_TABLES, start), events).tables, device)| <= limit
  {
    EmptyTablesOk(start);
    EmptyHasRoom(limit);
    RunKeepsCap(Snapshot(EMPTY_TABLES, start), events, limit);
  }

  lemma EmptyHasRoom(limit: nat)
    ensures CapOk(EMPTY_TABLES, limit)
  {
    forall device ensures |InProgress(EMPTY_TABLES, device)| <= limit {
      assert InProgress(EMPTY_TABLES, device) == {};
    }
  }

  // ----- receipts -------------------------------------------------------------------------------------

  /**
   In every reachable state levels are ordered, and short of cancelling a receipt is confirmed if
   and only if they meet.
   */
  lemma ReceiptLevels(w: Snapshot, k: RowKey)
    requires Reachable(w) && k in w.tables.receipts
    ensures k.message in w.tables.messages
    ensures var r := w.tables.receipts[k];
      && r.confirmedLevel <= r.targetLevel <= w.tables.messages[k.message].Level()
      && (!r.state.ReceiptCancelled? ==> (r.state.Confirmed? <==> r.confirmedLevel == r.targetLevel))
      && r.attemptCount <= r.maximumAttempts
      && (!r.state.ReceiptCancelled? && !(r.state.Confirmed? && r.confirmedLevel == READ_LEVEL) ==>
            k.device in w.tables.devices && w.tables.devices[k.device].user == Some(k.message.sender))
  {
    ReachableInv(w);
    assert ReceiptLinksOk(w.tables, k);
  }

  /** ... and along every run neither level falls. */
  lemma LevelsNeverFall(w: Snapshot, events: seq<Event>, k: RowKey)
    requires InOrder(w) && IsRun(w, events) && k in w.tables.receipts
    ensures k in Final(w, events).tables.receipts
    ensures var r, q := w.tables.receipts[k], Final(w, events).tables.receipts[k];
      r.targetLevel <= q.targetLevel && r.confirmedLevel <= q.confirmedLevel
  {
    RunEvolves(w, events);
    ReceiptEvolved(w.tables, Final(w, events).tables, k);
  }

  lemma ReceiptEvolved(s: State, t: State, k: RowKey)
    requires Evolves(s, t) && k in s.receipts
    ensures k in t.receipts && ReceiptEvolves(s.receipts[k], t.receipts[k])
  {
  }

  // ----- relinking --------------------------------------------------------------------------------------

  /** A device that changed hands has no live delivery, receipt or session from before. */
  lemma RelinkLeavesNothingLive(s: State, device: DeviceId, user: UserId, k: RowKey, sid: SessionId)
    requires device in s.devices && s.devices[device].user.Some? && s.devices[device].user != Some(user)
      && k.device == device
    ensures var t := LinkDevice(s, device, user);
      && t.devices[device].user == Some(user)
      && (k in t.deliveries ==>
        !t.deliveries[k].Live() && (s.deliveries[k].state.Delivered? ==> t.deliveries[k] == s.deliveries[k]))
      && (k in t.receipts ==>
        t.receipts[k].state.ReceiptCancelled?
          || (t.receipts[k].state.Confirmed? && t.receipts[k].confirmedLevel == READ_LEVEL))
      && (sid in t.sessions && t.sessions[sid].device == device ==> !t.sessions[sid].state.Active?)
  {
  }
}
