/**
 The exact cost of a silent device: over any run in which only the sender loop touches a delivery
 and every send to it counts as sent, each visit of the loop to the row emits the next part, round
 after round, until every attempt is spent; the visit after that fails it. The packet table then
 holds maximum attempts times part count packets of the row.
 */
module SilentDelivery {
  import opened Options
  import opened Times
  import opened RetrySchedule
  import opened Tables
  import opened DeliveryRows
  import opened Transitions
  import opened Invariants
  import opened StepProofs
  import opened RowEffects
  import opened Scheduling
  import opened FiniteSets
  import opened TransitionSystems

  /**
   One packet that left for the row: its id, part and attempt, when it was prepared, when its
   outcome was recorded, and how long it waits.
   */
  datatype Emission = Emission(id: PacketId, part: nat, attempt: nat, preparedAt: Time, recordedAt: Time, wait: real)

  /** Either the sender loop prepares a packet and records its outcome, or some other transaction runs. */
  datatype Moment =
    | SenderTurn(candidates: seq<Candidate>, outcome: SendOutcome, preparedAt: Time, recordedAt: Time)
    | Elsewhere(step: Step, at: Time)
  {
    function Start(): Time { if SenderTurn? then preparedAt else at }
    function End(): Time { if SenderTurn? then recordedAt else at }
  }

  /** The tables, the clock, the packets the row emitted so far and how often the sender loop came to it. */
  datatype World = World(tables: State, clock: Time, emitted: seq<Emission>, visits: nat)

  ghost function After(s: State, m: Moment, cfg: Settings): State {
    match m
    case SenderTurn(cands, outcome, preparedAt, recordedAt) =>
      var r := PrepareNext(s, cands, cfg, preparedAt);
      if r.1.None? then r.0 else RecordOutcome(r.0, r.1.value, outcome, cfg, recordedAt)
    case Elsewhere(step, at) => Apply(s, step, cfg, at)
  }

  /** The packet a moment prepares for the row, if it does. */
  ghost function EmittedBy(s: State, m: Moment, k: RowKey, cfg: Settings): seq<Emission> {
    if !m.SenderTurn? then [] else
      var r := PrepareNext(s, m.candidates, cfg, m.preparedAt);
      if r.1.None? || r.1.value !in r.0.packets then [] else
        var p := r.0.packets[r.1.value];
        if p.row == k && p.purpose.DeliveryPart?
        then [Emission(r.1.value, p.purpose.part, p.attemptNumber, m.preparedAt, m.recordedAt,
          AcknowledgementWait(Suggestion(m.outcome), cfg))]
        else []
  }

  /** The walk over the candidates comes to the row: nothing before it yields a packet. */
  ghost predicate WalkReaches(s: State, cands: seq<Candidate>, k: RowKey, cfg: Settings, now: Time)
    decreases |cands|
  {
    && cands != []
    && (|| cands[0] == DeliveryCandidate(k)
        || (var first := PrepareCandidate(s, cands[0], cfg, now);
            first.1.None? && WalkReaches(first.0, cands[1..], k, cfg, now)))
  }

  ghost predicate Visits(s: State, m: Moment, k: RowKey, cfg: Settings) {
    m.SenderTurn? && WalkReaches(s, m.candidates, k, cfg, m.preparedAt)
  }

  /** Only the sender loop prepares packets, nothing else touches the row, and every send to it counts as sent. */
  ghost predicate SilentMoment(s: State, m: Moment, k: RowKey, cfg: Settings, clock: Time) {
    && clock <= m.Start() <= m.End()
    && match m
       case SenderTurn(cands, outcome, preparedAt, _) =>
         && IsCandidateList(s, cands, cfg, preparedAt)
         && (EmittedBy(s, m, k, cfg) != [] ==> CountsAsSent(outcome))
       case Elsewhere(step, at) =>
         && Enabled(s, step, cfg, at) && !step.PacketPrepared?
         && k in s.deliveries && k in Apply(s, step, cfg, at).deliveries
         && Apply(s, step, cfg, at).deliveries[k] == s.deliveries[k]
  }

  ghost function NextWorld(k: RowKey, cfg: Settings): (World, Moment) -> World {
    (w: World, m: Moment) =>
      World(After(w.tables, m, cfg), m.End(), w.emitted + EmittedBy(w.tables, m, k, cfg),
            if Visits(w.tables, m, k, cfg) then w.visits + 1 else w.visits)
  }

  ghost function Silent(k: RowKey, cfg: Settings): (World, Moment) -> bool {
    (w: World, m: Moment) => SilentMoment(w.tables, m, k, cfg, w.clock)
  }

  /** A run during which the device never reports about the row. */
  ghost predicate SilentRun(w: World, moments: seq<Moment>, k: RowKey, cfg: Settings) {
    Allowed(NextWorld(k, cfg), Silent(k, cfg), w, moments)
  }

  ghost function Final(w: World, moments: seq<Moment>, k: RowKey, cfg: Settings): World {
    RunFrom(NextWorld(k, cfg), w, moments)
  }

  // ----- the row's own progress -----------------------------------------------------------------

  /** The parts of a round after the first `done`. */
  function Rest(done: nat, n: nat): set<nat> {
    AllParts(n) - AllParts(done)
  }

  /** After `count` packets of an n-part message: how far the row's attempt and round got. */
  predicate Reached(d: Delivery, n: nat, count: nat, done: nat) {
    && 1 <= done <= n
    && d.receivedParts == {}
    && d.roundParts == Rest(done, n)
    && count + n == d.attemptCount * n + done
    && d.attemptCount <= d.maximumAttempts
    && (d.attemptCount == 0 ==> done == n)
    && (d.state.Pending? || (d.state.Failed? && d.attemptCount == d.maximumAttempts && done == n))
    && d.session.None?
    && (d.state.Pending? ==> d.nextAttemptAt.Some?)
  }

  /** The packet with index i carries the part that is next in its round, and the round's number. */
  predicate Ascending(emitted: seq<Emission>, n: nat)
    requires 1 <= n
  {
    forall i | 0 <= i < |emitted| :: emitted[i].part == i % n + 1 && emitted[i].attempt == i / n + 1
  }

  /**
   A packet that begins a new round leaves no earlier than the last one's acknowledgement deadline
   and the retry pause allow.
   */
  predicate InTime(before: Emission, e: Emission, index: nat, n: nat, cfg: Settings)
    requires 1 <= n
  {
    index % n == 0 ==> before.recordedAt + Max(RetryPause(index / n, cfg), before.wait) <= e.preparedAt
  }

  predicate Paced(emitted: seq<Emission>, n: nat, cfg: Settings)
    requires 1 <= n
  {
    forall i | 0 < i < |emitted| :: InTime(emitted[i - 1], emitted[i], i, n, cfg)
  }

  /** Between rounds the row waits for exactly the last packet's pause. */
  predicate WaitsFor(d: Delivery, emitted: seq<Emission>, done: nat, n: nat, cfg: Settings) {
    d.state.Pending? && done == n && emitted != [] ==>
      var last := emitted[|emitted| - 1];
      d.nextAttemptAt == Some(last.recordedAt + Max(RetryPause(d.attemptCount, cfg), last.wait))
  }

  lemma RestMembers(done: nat, n: nat, i: nat)
    ensures i in Rest(done, n) <==> done < i <= n
  {
  }

  lemma {:induction false} ModOfSum(a: nat, b: nat, n: nat)
    requires b < n
    ensures (a * n + b) % n == b && (a * n + b) / n == a
    decreases a
  {
    if a > 0 {
      ModOfSum(a - 1, b, n);
      assert a * n + b == ((a - 1) * n + b) + n;
      StepOfMod((a - 1) * n + b, n);
    } else {
      assert a * n + b == b;
    }
  }

  lemma StepOfMod(x: nat, n: nat)
    requires 1 <= n
    ensures (x + n) % n == x % n && (x + n) / n == x / n + 1
  {
    var q, r := x / n, x % n;
    var a, b := (x + n) / n, (x + n) % n;
    assert x == q * n + r && x + n == a * n + b;
    assert (a - q - 1) * n == a * n - q * n - n;
    SmallMultiple(a - q - 1, n);
  }

  lemma SmallMultiple(a: int, n: nat)
    ensures a >= 1 ==> a * n >= n
    ensures a <= -1 ==> a * n + n <= 0
  {
    if a >= 1 {
      assert (a - 1) * n >= 0;
    } else if a <= -1 {
      assert (a + 1) * n <= 0;
    }
  }

  /** Where the next packet of the row falls in the numbering of packets. */
  lemma NextIndex(attempts: nat, done: nat, n: nat, count: nat)
    requires 1 <= done <= n && count + n == attempts * n + done && (attempts == 0 ==> done == n)
    ensures done < n ==> count % n == done && count / n == attempts - 1
    ensures done == n ==> count % n == 0 && count / n == attempts
  {
    if done < n {
      assert count == (attempts - 1) * n + done;
      ModOfSum(attempts - 1, done, n);
    } else {
      assert count == attempts * n + 0;
      ModOfSum(attempts, 0, n);
    }
  }

  // ----- what one walk over the candidates does to the row --------------------------------------

  predicate PacketFor(r: (State, Option<PacketId>), k: RowKey) {
    r.1.Some? && r.1.value in r.0.packets && r.0.packets[r.1.value].row == k
      && r.0.packets[r.1.value].purpose.DeliveryPart?
  }

  predicate IsLowest(part: nat, parts: set<nat>) {
    part in parts && forall i | i in parts :: part <= i
  }

  function InRound(d: Delivery, parts: set<nat>, now: Time): Delivery {
    if d.roundParts != {} then d else StartRound(d, parts, now)
  }

  /** The row is left alone, fails with every attempt spent, or emits the lowest part of its round. */
  predicate Walked(d: Delivery, parts: set<nat>, now: Time, r: (State, Option<PacketId>), k: RowKey) {
    && k in r.0.deliveries
    && var e := r.0.deliveries[k];
    if !PacketFor(r, k)
    then e == d
      || (d.state.Pending? && d.roundParts == {} && d.attemptCount >= d.maximumAttempts && e == d.(state := Failed))
    else
      && d.state.Pending? && (d.roundParts == {} ==> d.attemptCount < d.maximumAttempts)
      && e == InRound(d, parts, now)
      && var p := r.0.packets[r.1.value];
      IsLowest(p.purpose.part, e.roundParts) && p == PartPacket(k, e, p.purpose.part)
  }

  predicate LeavesRow(s: State, r: (State, Option<PacketId>), k: RowKey)
    requires k in s.deliveries
  {
    k in r.0.deliveries && r.0.deliveries[k] == s.deliveries[k] && !PacketFor(r, k)
  }

  lemma FailLeavesRow(s: State, f: RowKey, k: RowKey)
    requires f in s.deliveries && f != k && k in s.deliveries && !s.deliveries[k].state.Queued?
    ensures LeavesRow(s, (FailExhaustedDelivery(s, f), None), k)
  {
  }

  lemma PartPacketLeavesRow(s: State, f: RowKey, k: RowKey)
    requires f in s.deliveries && f.message in s.messages && f != k && k in s.deliveries
    ensures LeavesRow(s, PrepareLowestPart(s, f), k)
  {
  }

  lemma OtherDeliveryLeavesRow(s: State, f: RowKey, cfg: Settings, now: Time, k: RowKey)
    requires k in s.deliveries && !s.deliveries[k].state.Queued? && f != k
    ensures LeavesRow(s, PrepareDelivery(s, f, cfg, now), k)
  {
    if f in s.deliveries && f.message in s.messages && s.deliveries[f].state.Pending? {
      if PartsLeft(s.deliveries[f]) != {} {
        PartPacketLeavesRow(s, f, k);
      } else if s.deliveries[f].roundParts == {} {
        if s.deliveries[f].attemptCount >= s.deliveries[f].maximumAttempts {
          FailLeavesRow(s, f, k);
        } else {
          PartPacketLeavesRow(UpdateDelivery(s, f, StartRound(s.deliveries[f], s.messages[f.message].Parts(), now)),
            f, k);
        }
      }
    }
  }

  lemma OtherCandidateLeavesRow(s: State, c: Candidate, cfg: Settings, now: Time, k: RowKey)
    requires k in s.deliveries && !s.deliveries[k].state.Queued? && c != DeliveryCandidate(k)
    ensures LeavesRow(s, PrepareCandidate(s, c, cfg, now), k)
  {
    if c.DeliveryCandidate? {
      OtherDeliveryLeavesRow(s, c.key, cfg, now, k);
    }
  }

  /** The packet of the lowest part left of a round under way. */
  lemma NextPartWalked(s: State, now: Time, k: RowKey)
    requires RowsOk(s) && k in s.deliveries && k.message in s.messages && s.deliveries[k].state.Pending?
    requires s.deliveries[k].roundParts != {}
    ensures Walked(s.deliveries[k], s.messages[k.message].Parts(), now, PrepareLowestPart(s, k), k)
  {
    NothingLeftMeansRoundOver(s, k);
    LowestPacket(s, k, now);
  }

  /** The packet of the lowest part of a new round. */
  lemma NewRoundWalked(s: State, now: Time, k: RowKey)
    requires Inv(s, now) && k in s.deliveries && k.message in s.messages && s.deliveries[k].state.Pending?
    requires s.deliveries[k].roundParts == {} && s.deliveries[k].attemptCount < s.deliveries[k].maximumAttempts
    ensures var d, parts := s.deliveries[k], s.messages[k.message].Parts();
      Walked(d, parts, now, PrepareLowestPart(UpdateDelivery(s, k, StartRound(d, parts, now)), k), k)
  {
    StartedRoundPacket(s, k, now);
  }

  lemma SpentRowWalked(s: State, now: Time, k: RowKey)
    requires k in s.deliveries && s.deliveries[k].state.Pending? && s.deliveries[k].session.None?
    requires s.deliveries[k].roundParts == {} && s.deliveries[k].attemptCount >= s.deliveries[k].maximumAttempts
    ensures Walked(s.deliveries[k], {}, now, (FailExhaustedDelivery(s, k), None), k)
  {
  }

  lemma OwnCandidate(s: State, cfg: Settings, now: Time, k: RowKey)
    requires Inv(s, now) && k in s.deliveries && k.message in s.messages && s.deliveries[k].session.None?
    ensures Walked(s.deliveries[k], s.messages[k.message].Parts(), now, PrepareDelivery(s, k, cfg, now), k)
  {
    var d := s.deliveries[k];
    if d.state.Pending? {
      NothingLeftMeansRoundOver(s, k);
      if d.roundParts != {} {
        NextPartWalked(s, now, k);
      } else if d.attemptCount >= d.maximumAttempts {
        SpentRowWalked(s, now, k);
      } else {
        NewRoundWalked(s, now, k);
      }
    }
  }

  lemma {:induction false} WalkReachesRow(s: State, cands: seq<Candidate>, cfg: Settings, now: Time, k: RowKey)
    requires Inv(s, now) && k in s.deliveries && k.message in s.messages
    requires s.deliveries[k].session.None? && !s.deliveries[k].state.Queued?
    ensures Walked(s.deliveries[k], s.messages[k.message].Parts(), now, PrepareNext(s, cands, cfg, now), k)
    ensures PacketFor(PrepareNext(s, cands, cfg, now), k) ==> DeliveryCandidate(k) in cands
    decreases |cands|
  {
    if cands != [] {
      var first := PrepareCandidate(s, cands[0], cfg, now);
      if cands[0] == DeliveryCandidate(k) {
        OwnCandidate(s, cfg, now, k);
      } else {
        OtherCandidateLeavesRow(s, cands[0], cfg, now, k);
      }
      if first.1.None? {
        PrepareCandidateKeepsInv(s, cands[0], cfg, now);
        CandidateTouches(s, cands[0], cfg, now);
        WalkReachesRow(first.0, cands[1..], cfg, now, k);
      }
    }
  }

  // ----- one packet -----------------------------------------------------------------------------

  lemma LowestOfRest(part: nat, done: nat, n: nat)
    requires done < n && IsLowest(part, Rest(done, n))
    ensures part == done + 1
    ensures Rest(done, n) - {part} == Rest(done + 1, n)
  {
    RestMembers(done, n, done + 1);
    RestMembers(done, n, part);
    forall i: nat ensures i in Rest(done, n) - {part} <==> i in Rest(done + 1, n) {
      RestMembers(done, n, i);
      RestMembers(done + 1, n, i);
    }
  }

  lemma RestEmpty(done: nat, n: nat)
    requires done <= n
    ensures Rest(done, n) == {} <==> done == n
    ensures Rest(0, n) == AllParts(n)
  {
    if done < n {
      RestMembers(done, n, n);
    }
  }

  /** The first part of a new round, or the next of the current one. */
  lemma NextPart(d: Delivery, n: nat, count: nat, done: nat, part: nat, now: Time)
    requires d.state.Pending? && Reached(d, n, count, done)
      && (d.roundParts == {} ==> d.attemptCount < d.maximumAttempts)
    requires IsLowest(part, InRound(d, AllParts(n), now).roundParts)
    ensures var e := InRound(d, AllParts(n), now);
      var from := if done < n then done else 0;
      && e.roundParts == Rest(from, n) && part == from + 1 && part == count % n + 1
      && e.roundParts - {part} == Rest(from + 1, n)
  {
    RestEmpty(done, n);
    NextIndex(d.attemptCount, done, n, count);
    var from := if done < n then done else 0;
    assert InRound(d, AllParts(n), now).roundParts == Rest(from, n);
    LowestOfRest(part, from, n);
  }

  lemma NextCount(attempts: nat, n: nat, count: nat, done: nat)
    requires 1 <= done <= n && count + n == attempts * n + done
    ensures done < n ==> count + 1 + n == attempts * n + (done + 1)
    ensures done == n ==> count + 1 + n == (attempts + 1) * n + 1
  {
    assert (attempts + 1) * n == attempts * n + n;
  }

  /** The packet a row emits next carries the next part, and its outcome moves the row on by one. */
  lemma EmissionAdvances(d: Delivery, n: nat, count: nat, done: nat, part: nat, suggestion: Option<nat>,
                         cfg: Settings, preparedAt: Time, recordedAt: Time)
    requires d.state.Pending? && Reached(d, n, count, done)
      && (d.roundParts == {} ==> d.attemptCount < d.maximumAttempts)
    requires IsLowest(part, InRound(d, AllParts(n), preparedAt).roundParts)
    ensures var f := PartSent(InRound(d, AllParts(n), preparedAt), part, suggestion, cfg, recordedAt);
      var next := if done < n then done + 1 else 1;
      && part == count % n + 1 && f.attemptCount == count / n + 1
      && Reached(f, n, count + 1, next)
      && (next == n ==>
        f.nextAttemptAt
          == Some(recordedAt + Max(RetryPause(f.attemptCount, cfg), AcknowledgementWait(suggestion, cfg))))
  {
    NextPart(d, n, count, done, part, preparedAt);
    NextIndex(d.attemptCount, done, n, count);
    NextCount(d.attemptCount, n, count, done);
    RestEmpty(done, n);
    RestEmpty(if done < n then done + 1 else 1, n);
  }

  // ----- a whole run ----------------------------------------------------------------------------

  /** The packets emitted so far are exactly what the row's counters say. */
  predicate Ledger(d: Delivery, n: nat, limit: nat, emitted: seq<Emission>, done: nat, cfg: Settings) {
    && 1 <= n
    && d.maximumAttempts == limit
    && Reached(d, n, |emitted|, done)
    && Ascending(emitted, n)
    && Paced(emitted, n, cfg)
    && WaitsFor(d, emitted, done, n, cfg)
  }

  /** The row exists and its message has n parts. */
  predicate HasRow(s: State, k: RowKey, n: nat) {
    k in s.deliveries && k.message in s.messages && |s.messages[k.message].partTexts| == n
  }

  lemma EmissionKeepsPace(emitted: seq<Emission>, e: Emission, n: nat, cfg: Settings)
    requires 1 <= n && Paced(emitted, n, cfg)
    requires emitted != [] ==> InTime(emitted[|emitted| - 1], e, |emitted|, n, cfg)
    ensures Paced(emitted + [e], n, cfg)
  {
    var all := emitted + [e];
    forall i | 0 < i < |all| ensures InTime(all[i - 1], all[i], i, n, cfg) {
      assert all[i - 1] == emitted[i - 1];
      assert i < |emitted| ==> all[i] == emitted[i] && InTime(emitted[i - 1], emitted[i], i, n, cfg);
    }
  }

  lemma EmissionKeepsLedger(d: Delivery, n: nat, limit: nat, emitted: seq<Emission>, done: nat, m: Moment,
                            id: PacketId, part: nat, cfg: Settings) returns (next: nat)
    requires m.SenderTurn? && Ledger(d, n, limit, emitted, done, cfg)
    requires d.state.Pending? && (d.roundParts == {} ==> d.attemptCount < d.maximumAttempts)
    requires d.nextAttemptAt.value <= m.preparedAt
    requires IsLowest(part, InRound(d, AllParts(n), m.preparedAt).roundParts)
    ensures
      var f := PartSent(InRound(d, AllParts(n), m.preparedAt), part, Suggestion(m.outcome), cfg, m.recordedAt);
      var e := Emission(id, part, f.attemptCount, m.preparedAt, m.recordedAt,
        AcknowledgementWait(Suggestion(m.outcome), cfg));
      Ledger(f, n, limit, emitted + [e], next, cfg)
  {
    next := if done < n then done + 1 else 1;
    var f := PartSent(InRound(d, AllParts(n), m.preparedAt), part, Suggestion(m.outcome), cfg, m.recordedAt);
    var e := Emission(id, part, f.attemptCount, m.preparedAt, m.recordedAt,
      AcknowledgementWait(Suggestion(m.outcome), cfg));
    EmissionAdvances(d, n, |emitted|, done, part, Suggestion(m.outcome), cfg, m.preparedAt, m.recordedAt);
    NextIndex(d.attemptCount, done, n, |emitted|);
    EmissionKeepsPace(emitted, e, n, cfg);
    RestEmpty(next, n);
  }

  /** What one turn of the sender loop leaves of a row it prepared a packet for. */
  lemma EmittingTurn(s: State, m: Moment, k: RowKey, cfg: Settings)
    requires m.SenderTurn? && k in s.deliveries && k.message in s.messages
    requires var r := PrepareNext(s, m.candidates, cfg, m.preparedAt);
      && PacketFor(r, k) && CountsAsSent(m.outcome)
      && Walked(s.deliveries[k], s.messages[k.message].Parts(), m.preparedAt, r, k)
    ensures var r := PrepareNext(s, m.candidates, cfg, m.preparedAt);
      var p := r.0.packets[r.1.value];
      var d := InRound(s.deliveries[k], s.messages[k.message].Parts(), m.preparedAt);
      && IsLowest(p.purpose.part, d.roundParts)
      && k in After(s, m, cfg).deliveries
      && After(s, m, cfg).deliveries[k] == PartSent(d, p.purpose.part, Suggestion(m.outcome), cfg, m.recordedAt)
      && EmittedBy(s, m, k, cfg) ==
           [Emission(r.1.value, p.purpose.part, d.attemptCount, m.preparedAt, m.recordedAt,
             AcknowledgementWait(Suggestion(m.outcome), cfg))]
  {
    var r := PrepareNext(s, m.candidates, cfg, m.preparedAt);
    OutcomeAt(r.0, r.1.value, m.outcome, cfg, m.recordedAt, k);
  }

  lemma EmittingTurnKeepsLedger(s: State, m: Moment, k: RowKey, cfg: Settings, n: nat, limit: nat,
                                emitted: seq<Emission>, done: nat) returns (next: nat)
    requires m.SenderTurn? && HasRow(s, k, n) && Ledger(s.deliveries[k], n, limit, emitted, done, cfg)
    requires DueDelivery(s, k, cfg, m.preparedAt)
    requires var r := PrepareNext(s, m.candidates, cfg, m.preparedAt);
      && PacketFor(r, k) && CountsAsSent(m.outcome)
      && Walked(s.deliveries[k], s.messages[k.message].Parts(), m.preparedAt, r, k)
    ensures k in After(s, m, cfg).deliveries
    ensures Ledger(After(s, m, cfg).deliveries[k], n, limit, emitted + EmittedBy(s, m, k, cfg), next, cfg)
  {
    EmittingTurn(s, m, k, cfg);
    var r := PrepareNext(s, m.candidates, cfg, m.preparedAt);
    next := EmissionKeepsLedger(s.deliveries[k], n, limit, emitted, done, m, r.1.value,
      r.0.packets[r.1.value].purpose.part, cfg);
  }

  /** A row left alone, or failed with every attempt spent, keeps its ledger. */
  lemma RestingKeepsLedger(d: Delivery, e: Delivery, n: nat, limit: nat, emitted: seq<Emission>, done: nat,
                           cfg: Settings)
    requires Ledger(d, n, limit, emitted, done, cfg)
    requires e == d
      || (d.state.Pending? && d.roundParts == {} && d.attemptCount >= d.maximumAttempts && e == d.(state := Failed))
    ensures Ledger(e, n, limit, emitted, done, cfg)
  {
    RestEmpty(done, n);
  }

  lemma QuietTurnKeepsLedger(s: State, m: Moment, k: RowKey, cfg: Settings, n: nat, limit: nat,
                             emitted: seq<Emission>, done: nat)
    requires m.SenderTurn? && HasRow(s, k, n) && Ledger(s.deliveries[k], n, limit, emitted, done, cfg)
    requires var r := PrepareNext(s, m.candidates, cfg, m.preparedAt);
      !PacketFor(r, k) && Walked(s.deliveries[k], s.messages[k.message].Parts(), m.preparedAt, r, k)
    ensures k in After(s, m, cfg).deliveries
    ensures Ledger(After(s, m, cfg).deliveries[k], n, limit, emitted + EmittedBy(s, m, k, cfg), done, cfg)
  {
    QuietTurn(s, m, k, cfg);
    assert emitted + [] == emitted;
    RestingKeepsLedger(s.deliveries[k], After(s, m, cfg).deliveries[k], n, limit, emitted, done, cfg);
  }

  lemma CandidateIsDue(s: State, cands: seq<Candidate>, cfg: Settings, now: Time, k: RowKey)
    requires IsCandidateList(s, cands, cfg, now) && DeliveryCandidate(k) in cands
    ensures DueDelivery(s, k, cfg, now)
  {
    assert IsDue(s, DeliveryCandidate(k), cfg, now);
  }

  /** What the sender loop's walk means for the row: as `Walked` says, and a packet only if it was due. */
  lemma TurnWalksRow(s: State, m: Moment, k: RowKey, cfg: Settings, clock: Time, n: nat)
    requires Inv(s, clock) && m.SenderTurn? && SilentMoment(s, m, k, cfg, clock) && HasRow(s, k, n)
    requires s.deliveries[k].session.None? && !s.deliveries[k].state.Queued?
    ensures var r := PrepareNext(s, m.candidates, cfg, m.preparedAt);
      && Walked(s.deliveries[k], s.messages[k.message].Parts(), m.preparedAt, r, k)
      && (PacketFor(r, k) ==> DueDelivery(s, k, cfg, m.preparedAt) && CountsAsSent(m.outcome))
  {
    ClockKeepsInv(s, clock, m.preparedAt);
    WalkReachesRow(s, m.candidates, cfg, m.preparedAt, k);
    if PacketFor(PrepareNext(s, m.candidates, cfg, m.preparedAt), k) {
      CandidateIsDue(s, m.candidates, cfg, m.preparedAt, k);
    }
  }

  lemma TurnKeepsLedger(s: State, m: Moment, k: RowKey, cfg: Settings, clock: Time, n: nat, limit: nat,
                        emitted: seq<Emission>, done: nat) returns (next: nat)
    requires Inv(s, clock) && cfg.Valid() && m.SenderTurn? && SilentMoment(s, m, k, cfg, clock)
    requires HasRow(s, k, n) && Ledger(s.deliveries[k], n, limit, emitted, done, cfg)
    ensures k in After(s, m, cfg).deliveries
    ensures Ledger(After(s, m, cfg).deliveries[k], n, limit, emitted + EmittedBy(s, m, k, cfg), next, cfg)
  {
    TurnWalksRow(s, m, k, cfg, clock, n);
    if PacketFor(PrepareNext(s, m.candidates, cfg, m.preparedAt), k) {
      next := EmittingTurnKeepsLedger(s, m, k, cfg, n, limit, emitted, done);
    } else {
      next := done;
      QuietTurnKeepsLedger(s, m, k, cfg, n, limit, emitted, done);
    }
  }

  /** Recording the outcome of another row's packet leaves this row as the walk left it. */
  lemma QuietTurn(s: State, m: Moment, k: RowKey, cfg: Settings)
    requires m.SenderTurn?
    requires var r := PrepareNext(s, m.candidates, cfg, m.preparedAt); k in r.0.deliveries && !PacketFor(r, k)
    ensures var r := PrepareNext(s, m.candidates, cfg, m.preparedAt);
      && k in After(s, m, cfg).deliveries && After(s, m, cfg).deliveries[k] == r.0.deliveries[k]
      && EmittedBy(s, m, k, cfg) == []
  {
    var r := PrepareNext(s, m.candidates, cfg, m.preparedAt);
    if r.1.Some? {
      OutcomeAt(r.0, r.1.value, m.outcome, cfg, m.recordedAt, k);
    }
  }

  lemma RowStaysThere(s: State, t: State, k: RowKey, n: nat)
    requires MessagesEvolve(s, t) && DeliveriesEvolve(s, t) && HasRow(s, k, n)
    ensures HasRow(t, k, n)
  {
    assert MessageEvolves(s.messages[k.message], t.messages[k.message]);
  }

  lemma OutcomeMomentKeepsInv(r: (State, Option<PacketId>), outcome: SendOutcome, k: RowKey, cfg: Settings,
                              preparedAt: Time, recordedAt: Time, n: nat)
    requires Inv(r.0, preparedAt) && preparedAt <= recordedAt && HasRow(r.0, k, n)
    ensures var t := if r.1.None? then r.0 else RecordOutcome(r.0, r.1.value, outcome, cfg, recordedAt);
      Inv(t, recordedAt) && HasRow(t, k, n)
  {
    if r.1.Some? {
      OutcomeKeepsInv(r.0, r.1.value, outcome, cfg, preparedAt, recordedAt);
      RowStaysThere(r.0, RecordOutcome(r.0, r.1.value, outcome, cfg, recordedAt), k, n);
    } else {
      ClockKeepsInv(r.0, preparedAt, recordedAt);
    }
  }

  lemma MomentKeepsInv(s: State, m: Moment, k: RowKey, cfg: Settings, clock: Time, n: nat)
    requires Inv(s, clock) && cfg.Valid() && SilentMoment(s, m, k, cfg, clock) && HasRow(s, k, n)
    ensures Inv(After(s, m, cfg), m.End()) && HasRow(After(s, m, cfg), k, n)
  {
    match m
    case Elsewhere(step, at) =>
      StepKeepsInv(s, step, cfg, clock, at);
      RowStaysThere(s, Apply(s, step, cfg, at), k, n);
    case SenderTurn(cands, outcome, preparedAt, recordedAt) =>
      var r := PrepareNext(s, cands, cfg, preparedAt);
      SenderStepKeepsInv(s, cands, cfg, clock, preparedAt);
      RowStaysThere(s, r.0, k, n);
      OutcomeMomentKeepsInv(r, outcome, k, cfg, preparedAt, recordedAt, n);
  }

  lemma MomentKeepsLedger(s: State, m: Moment, k: RowKey, cfg: Settings, clock: Time, n: nat, limit: nat,
                          emitted: seq<Emission>, done: nat) returns (next: nat)
    requires Inv(s, clock) && cfg.Valid() && SilentMoment(s, m, k, cfg, clock)
    requires HasRow(s, k, n) && Ledger(s.deliveries[k], n, limit, emitted, done, cfg)
    ensures k in After(s, m, cfg).deliveries
    ensures Ledger(After(s, m, cfg).deliveries[k], n, limit, emitted + EmittedBy(s, m, k, cfg), next, cfg)
  {
    if m.SenderTurn? {
      next := TurnKeepsLedger(s, m, k, cfg, clock, n, limit, emitted, done);
    } else {
      next := done;
      assert emitted + EmittedBy(s, m, k, cfg) == emitted;
    }
  }

  // ----- the packet table ------------------------------------------------------------------------

  /** A packet of the row, in the arm the row is in. */
  predicate IsArmPacket(s: State, k: RowKey, id: PacketId) {
    && id in s.packets && k in s.deliveries
    && s.packets[id].row == k && s.packets[id].purpose.DeliveryPart?
    && s.packets[id].armGeneration == s.deliveries[k].armGeneration
  }

  function ArmPackets(s: State, k: RowKey): set<PacketId> {
    set id | id in s.packets && IsArmPacket(s, k, id)
  }

  /** The emission is in the table as it says. */
  predicate IsEmission(s: State, k: RowKey, e: Emission) {
    IsArmPacket(s, k, e.id) && s.packets[e.id].purpose.part == e.part && s.packets[e.id].attemptNumber == e.attempt
  }

  /** The ledger lists exactly the row's packets in the table, each once. */
  ghost predicate Listed(s: State, k: RowKey, emitted: seq<Emission>) {
    && (forall i | 0 <= i < |emitted| :: IsEmission(s, k, emitted[i]))
    && (forall i, j | 0 <= i < j < |emitted| :: emitted[i].id < emitted[j].id)
    && (forall id | IsArmPacket(s, k, id) :: exists i :: 0 <= i < |emitted| && emitted[i].id == id)
  }

  /** The same packets, whatever became of them. */
  ghost predicate SamePackets(s: State, t: State) {
    && (forall id :: id in t.packets <==> id in s.packets)
    && (forall id | id in s.packets :: PacketEvolves(s.packets[id], t.packets[id]))
  }

  lemma ListedStays(s: State, t: State, k: RowKey, emitted: seq<Emission>)
    requires Listed(s, k, emitted) && SamePackets(s, t)
    requires k in s.deliveries && k in t.deliveries && t.deliveries[k].armGeneration == s.deliveries[k].armGeneration
    ensures Listed(t, k, emitted)
  {
    forall id ensures IsArmPacket(t, k, id) <==> IsArmPacket(s, k, id) {
      assert id in s.packets ==> PacketEvolves(s.packets[id], t.packets[id]);
    }
    forall i | 0 <= i < |emitted| ensures IsEmission(t, k, emitted[i]) {
      assert IsEmission(s, k, emitted[i]);
      assert PacketEvolves(s.packets[emitted[i].id], t.packets[emitted[i].id]);
    }
  }

  lemma {:induction false} PrepareInserts(s: State, cands: seq<Candidate>, cfg: Settings, now: Time)
    ensures Inserts(s, PrepareNext(s, cands, cfg, now))
    decreases |cands|
  {
    if cands != [] {
      CandidateTouches(s, cands[0], cfg, now);
      PrepareInserts(PrepareCandidate(s, cands[0], cfg, now).0, cands[1..], cfg, now);
    }
  }

  /** A packet of another row or purpose leaves the list as it is. */
  lemma ListedBesides(s: State, r: (State, Option<PacketId>), k: RowKey, emitted: seq<Emission>)
    requires Listed(s, k, emitted) && Inserts(s, r) && !PacketFor(r, k) && PacketsOk(s)
    requires k in s.deliveries && k in r.0.deliveries
      && r.0.deliveries[k].armGeneration == s.deliveries[k].armGeneration
    ensures Listed(r.0, k, emitted)
  {
    forall id ensures IsArmPacket(r.0, k, id) <==> IsArmPacket(s, k, id) {
    }
    forall i | 0 <= i < |emitted| ensures IsEmission(r.0, k, emitted[i]) {
      assert IsEmission(s, k, emitted[i]);
    }
  }

  lemma ListedGrows(s: State, r: (State, Option<PacketId>), k: RowKey, emitted: seq<Emission>, e: Emission)
    requires Listed(s, k, emitted) && Inserts(s, r) && PacketFor(r, k) && PacketsOk(s)
    requires k in s.deliveries && k in r.0.deliveries
      && r.0.deliveries[k].armGeneration == s.deliveries[k].armGeneration
    requires e.id == r.1.value && IsEmission(r.0, k, e)
    ensures Listed(r.0, k, emitted + [e])
  {
    var all := emitted + [e];
    forall i | 0 <= i < |all| ensures IsEmission(r.0, k, all[i]) && (i < |emitted| ==> all[i].id < e.id) {
      if i < |emitted| {
        assert IsEmission(s, k, emitted[i]);
      }
    }
    forall id | IsArmPacket(r.0, k, id) ensures exists i :: 0 <= i < |all| && all[i].id == id {
      if id == e.id {
        assert all[|emitted|].id == id;
      } else {
        assert IsArmPacket(s, k, id);
        var i :| 0 <= i < |emitted| && emitted[i].id == id;
        assert all[i].id == id;
      }
    }
  }

  function Ids(emitted: seq<Emission>): set<PacketId> {
    set i | 0 <= i < |emitted| :: emitted[i].id
  }

  lemma {:induction false} DistinctIds(emitted: seq<Emission>)
    requires forall i, j | 0 <= i < j < |emitted| :: emitted[i].id < emitted[j].id
    ensures |Ids(emitted)| == |emitted|
  {
    if emitted != [] {
      var n := |emitted| - 1;
      DistinctIds(emitted[..n]);
      assert Ids(emitted) == Ids(emitted[..n]) + {emitted[n].id};
    }
  }

  /** So the row has as many packets as the ledger has entries. */
  lemma ListedCounts(s: State, k: RowKey, emitted: seq<Emission>)
    requires Listed(s, k, emitted)
    ensures |ArmPackets(s, k)| == |emitted|
  {
    DistinctIds(emitted);
    forall id ensures id in ArmPackets(s, k) <==> id in Ids(emitted) {
      if id in Ids(emitted) {
        var i :| 0 <= i < |emitted| && emitted[i].id == id;
        assert IsEmission(s, k, emitted[i]);
      }
    }
    assert ArmPackets(s, k) == Ids(emitted);
  }

  /** Only preparing adds packets. */
  lemma OtherStepsKeepPackets(s: State, step: Step, cfg: Settings, now: Time, id: PacketId)
    requires !step.PacketPrepared?
    ensures id in Apply(s, step, cfg, now).packets <==> id in s.packets
  {
    match step
    case PartArrives(req) => PartKeepsPackets(s, req, cfg, now);
    case StatusArrives(device, sender, clientId, received) =>
      StatusKeepsPackets(s, device, sender, clientId, received, cfg, now);
    case ReadArrives(device, sender, clientId) => ReadKeepsPackets(s, device, sender, clientId, cfg, now);
    case RefreshArrives(device, target, peers) => RefreshKeepsPackets(s, device, target, peers, cfg, now);
    case OutcomeRecorded(p, outcome) => OutcomeKeepsIds(s, p, outcome, cfg, now);
    case DeviceLinked(device, user) => LinkKeepsPackets(s, device, user);
    case _ =>
  }

  lemma PartKeepsPackets(s: State, req: PartRequest, cfg: Settings, now: Time)
    ensures AcceptPart(s, req, cfg, now).0.packets == s.packets
  {
    var user := SignedInUser(s, req.device);
    if user.Some? && req.recipient.Some? {
      var key := MessageKey(user.value, req.clientId);
      PlacePartKeepsPackets(FindOrCreateMessage(s, key, req.recipient.value, req), key, req.recipient.value, req,
        cfg, now);
    }
  }

  lemma PlacePartKeepsPackets(s: State, key: MessageKey, recipient: UserId, req: PartRequest, cfg: Settings, now: Time)
    requires key in s.messages
    ensures PlacePart(s, key, recipient, req, cfg, now).0.packets == s.packets
  {
  }

  lemma LinkKeepsPackets(s: State, device: DeviceId, user: UserId)
    ensures LinkDevice(s, device, user).packets == s.packets
  {
  }

  lemma StatusKeepsPackets(s: State, device: DeviceId, sender: Option<UserId>, clientId: nat, received: seq<bool>,
                           cfg: Settings, now: Time)
    ensures RecordStatus(s, device, sender, clientId, received, cfg, now).packets == s.packets
  {
    if StatusApplies(s, device, sender, clientId, received) {
      DeliverTouchesRowsAndSessions(s, RowKey(MessageKey(sender.value, clientId), device), Some(Reported(received)),
        cfg, now);
    }
  }

  lemma ReadKeepsPackets(s: State, device: DeviceId, sender: Option<UserId>, clientId: nat, cfg: Settings, now: Time)
    ensures RecordRead(s, device, sender, clientId, cfg, now).packets == s.packets
  {
    if sender.Some? && RowKey(MessageKey(sender.value, clientId), device) in s.deliveries {
      DeliverTouchesRowsAndSessions(s, RowKey(MessageKey(sender.value, clientId), device), None, cfg, now);
    }
  }

  lemma RefreshPeerKeepsPackets(s: State, device: DeviceId, user: UserId, peer: UserId, cfg: Settings, now: Time)
    ensures RefreshPeer(s, device, user, peer, cfg, now).0.packets == s.packets
  {
    AdvanceTouches(OpenSession(s, device, user, peer, cfg), s.nextSessionId, cfg, now);
  }

  lemma {:induction false} RefreshPeersKeepsPackets(s: State, device: DeviceId, user: UserId, peers: seq<UserId>,
                                        cfg: Settings, now: Time)
    ensures RefreshPeers(s, device, user, peers, cfg, now).0.packets == s.packets
    decreases |peers|
  {
    if peers != [] {
      RefreshPeerKeepsPackets(s, device, user, peers[0], cfg, now);
      RefreshPeersKeepsPackets(RefreshPeer(s, device, user, peers[0], cfg, now).0, device, user, peers[1..], cfg, now);
    }
  }

  lemma RefreshKeepsPackets(s: State, device: DeviceId, target: RefreshTarget, peers: seq<UserId>, cfg: Settings,
                            now: Time)
    ensures StartRefresh(s, device, target, peers, cfg, now).0.packets == s.packets
  {
    var user := SignedInUser(s, device);
    if user.Some? {
      match target
      case AllPeers => RefreshPeersKeepsPackets(s, device, user.value, peers, cfg, now);
      case OnePeer(peer) =>
        if peer.Some? {
          var s1 := RearmReceipts(s, device, user.value, peer.value, cfg, now);
          RefreshPeerKeepsPackets(s1, device, user.value, peer.value, cfg, now);
        }
    }
  }

  lemma OtherStepsKeepPacketTable(s: State, step: Step, cfg: Settings, clock: Time, at: Time)
    requires Inv(s, clock) && clock <= at && cfg.Valid() && Enabled(s, step, cfg, at) && !step.PacketPrepared?
    ensures SamePackets(s, Apply(s, step, cfg, at))
  {
    StepKeepsInv(s, step, cfg, clock, at);
    forall id ensures id in Apply(s, step, cfg, at).packets <==> id in s.packets {
      OtherStepsKeepPackets(s, step, cfg, at, id);
    }
  }

  lemma ElsewhereKeepsList(s: State, step: Step, k: RowKey, cfg: Settings, clock: Time, at: Time,
                           emitted: seq<Emission>)
    requires Inv(s, clock) && cfg.Valid() && SilentMoment(s, Elsewhere(step, at), k, cfg, clock)
      && Listed(s, k, emitted)
    ensures Listed(Apply(s, step, cfg, at), k, emitted)
  {
    OtherStepsKeepPacketTable(s, step, cfg, clock, at);
    ListedStays(s, Apply(s, step, cfg, at), k, emitted);
  }

  lemma OutcomeKeepsPackets(s: State, id: PacketId, outcome: SendOutcome, cfg: Settings, clock: Time, now: Time,
                            k: RowKey)
    requires Inv(s, clock) && clock <= now && k in s.deliveries
    ensures var t := RecordOutcome(s, id, outcome, cfg, now);
      SamePackets(s, t) && k in t.deliveries && t.deliveries[k].armGeneration == s.deliveries[k].armGeneration
  {
    OutcomeKeepsInv(s, id, outcome, cfg, clock, now);
    OutcomeAt(s, id, outcome, cfg, now, k);
    OutcomeKeepsIds(s, id, outcome, cfg, now);
    if CountsIn(s, id, outcome, k) {
      PartSentKeeps(s.deliveries[k], s.packets[id].purpose.part, Suggestion(outcome), cfg, now);
    }
  }

  lemma CountingKeepsPackets(s: State, p: Packet, suggestion: Option<nat>, cfg: Settings, now: Time)
    ensures CountAsSent(s, p, suggestion, cfg, now).packets == s.packets
  {
  }

  lemma OutcomeKeepsIds(s: State, id: PacketId, outcome: SendOutcome, cfg: Settings, now: Time)
    ensures RecordOutcome(s, id, outcome, cfg, now).packets.Keys == s.packets.Keys
  {
    if id in s.packets && s.packets[id].state.Prepared? {
      var p := s.packets[id];
      CountingKeepsPackets(s, p, Suggestion(outcome), cfg, now);
      CountingKeepsPackets(MarkMissingOnNode(s, p.row.device), p, Suggestion(outcome), cfg, now);
    }
  }

  /** The list after the walk, before the outcome is recorded. */
  lemma WalkKeepsList(s: State, m: Moment, k: RowKey, cfg: Settings, n: nat, emitted: seq<Emission>)
    requires m.SenderTurn? && PacketsOk(s) && HasRow(s, k, n) && Listed(s, k, emitted)
    requires Walked(s.deliveries[k], s.messages[k.message].Parts(), m.preparedAt,
      PrepareNext(s, m.candidates, cfg, m.preparedAt), k)
    ensures Listed(PrepareNext(s, m.candidates, cfg, m.preparedAt).0, k, emitted + EmittedBy(s, m, k, cfg))
  {
    PrepareInserts(s, m.candidates, cfg, m.preparedAt);
    var r := PrepareNext(s, m.candidates, cfg, m.preparedAt);
    if PacketFor(r, k) {
      ListedGrows(s, r, k, emitted, EmittedBy(s, m, k, cfg)[0]);
    } else {
      assert emitted + [] == emitted;
      ListedBesides(s, r, k, emitted);
    }
  }

  lemma OutcomeKeepsList(r: (State, Option<PacketId>), outcome: SendOutcome, cfg: Settings, clock: Time, now: Time,
                         k: RowKey, emitted: seq<Emission>)
    requires Inv(r.0, clock) && clock <= now && k in r.0.deliveries && Listed(r.0, k, emitted)
    ensures Listed(if r.1.None? then r.0 else RecordOutcome(r.0, r.1.value, outcome, cfg, now), k, emitted)
  {
    if r.1.Some? {
      OutcomeKeepsPackets(r.0, r.1.value, outcome, cfg, clock, now, k);
      ListedStays(r.0, RecordOutcome(r.0, r.1.value, outcome, cfg, now), k, emitted);
    }
  }

  lemma WalkListsAll(s: State, m: Moment, k: RowKey, cfg: Settings, clock: Time, n: nat, emitted: seq<Emission>)
    requires Inv(s, clock) && m.SenderTurn? && SilentMoment(s, m, k, cfg, clock) && Listed(s, k, emitted)
    requires HasRow(s, k, n) && s.deliveries[k].session.None? && !s.deliveries[k].state.Queued?
    ensures var t := PrepareNext(s, m.candidates, cfg, m.preparedAt).0;
      k in t.deliveries && Listed(t, k, emitted + EmittedBy(s, m, k, cfg))
  {
    TurnWalksRow(s, m, k, cfg, clock, n);
    WalkKeepsList(s, m, k, cfg, n, emitted);
  }

  lemma TurnKeepsList(s: State, m: Moment, k: RowKey, cfg: Settings, clock: Time, n: nat, emitted: seq<Emission>)
    requires Inv(s, clock) && cfg.Valid() && m.SenderTurn? && SilentMoment(s, m, k, cfg, clock) && Listed(s, k, emitted)
    requires HasRow(s, k, n) && s.deliveries[k].session.None? && !s.deliveries[k].state.Queued?
    ensures Listed(After(s, m, cfg), k, emitted + EmittedBy(s, m, k, cfg))
  {
    WalkListsAll(s, m, k, cfg, clock, n, emitted);
    SenderStepKeepsInv(s, m.candidates, cfg, clock, m.preparedAt);
    OutcomeKeepsList(PrepareNext(s, m.candidates, cfg, m.preparedAt), m.outcome, cfg, m.preparedAt, m.recordedAt, k,
      emitted + EmittedBy(s, m, k, cfg));
  }

  // ----- visits ----------------------------------------------------------------------------------

  /** A candidate that yields no packet takes no place of the device. */
  lemma NoPacketNoPlace(s: State, c: Candidate, cfg: Settings, now: Time, q: RowKey)
    requires Inv(s, now) && PrepareCandidate(s, c, cfg, now).1.None?
    ensures NoNewPlace(s, PrepareCandidate(s, c, cfg, now).0, q)
  {
    match c
    case DeliveryCandidate(k) => NoPacketOfDelivery(s, k, cfg, now, q);
    case ReceiptCandidate(k) => PrepareReceiptTouches(s, k, now);
  }

  lemma NoPacketOfDelivery(s: State, k: RowKey, cfg: Settings, now: Time, q: RowKey)
    requires Inv(s, now) && PrepareDelivery(s, k, cfg, now).1.None?
    ensures NoNewPlace(s, PrepareDelivery(s, k, cfg, now).0, q)
  {
    if k in s.deliveries && k.message in s.messages && s.deliveries[k].state.Pending? {
      NothingLeftMeansRoundOver(s, k);
      if PartsLeft(s.deliveries[k]) != {} {
        LowestPartYields(s, k, now);
      } else if s.deliveries[k].attemptCount >= s.deliveries[k].maximumAttempts {
        FailTakesNoPlace(s, k, q);
      } else {
        StartedRoundYields(s, k, now);
      }
    }
  }

  lemma DueStays(s: State, c: Candidate, cfg: Settings, now: Time, k: RowKey)
    requires Inv(s, now) && c != DeliveryCandidate(k) && PrepareCandidate(s, c, cfg, now).1.None?
      && DueDelivery(s, k, cfg, now)
    ensures DueDelivery(PrepareCandidate(s, c, cfg, now).0, k, cfg, now)
  {
    var t := PrepareCandidate(s, c, cfg, now).0;
    OtherCandidateLeavesRow(s, c, cfg, now, k);
    CandidateTouches(s, c, cfg, now);
    forall q | q in InProgress(t, k.device) ensures q in InProgress(s, k.device) {
      NoPacketNoPlace(s, c, cfg, now, q);
    }
    SubsetCardinality(InProgress(t, k.device), InProgress(s, k.device));
  }

  /** A walk that comes to a due row emits its next packet or fails it. */
  lemma {:induction false} VisitEmitsOrFails(s: State, cands: seq<Candidate>, cfg: Settings, now: Time, k: RowKey)
    requires Inv(s, now) && k.message in s.messages && DueDelivery(s, k, cfg, now) && s.deliveries[k].session.None?
    requires WalkReaches(s, cands, k, cfg, now)
    ensures var r := PrepareNext(s, cands, cfg, now);
      PacketFor(r, k) || (k in r.0.deliveries && r.0.deliveries[k].state.Failed?)
    decreases |cands|
  {
    var first := PrepareCandidate(s, cands[0], cfg, now);
    PrepareCandidateKeepsInv(s, cands[0], cfg, now);
    CandidateTouches(s, cands[0], cfg, now);
    if cands[0] == DeliveryCandidate(k) {
      OwnDue(s, k, cfg, now);
      OwnCandidate(s, cfg, now, k);
      if first.1.None? {
        WalkReachesRow(first.0, cands[1..], cfg, now, k);
      }
    } else {
      OtherCandidateLeavesRow(s, cands[0], cfg, now, k);
      DueStays(s, cands[0], cfg, now, k);
      VisitEmitsOrFails(first.0, cands[1..], cfg, now, k);
    }
  }

  /** A walk that does not come to the row leaves it alone. */
  lemma {:induction false} NoVisitLeavesRow(s: State, cands: seq<Candidate>, cfg: Settings, now: Time, k: RowKey)
    requires k in s.deliveries && !s.deliveries[k].state.Queued? && !WalkReaches(s, cands, k, cfg, now)
    ensures LeavesRow(s, PrepareNext(s, cands, cfg, now), k)
    decreases |cands|
  {
    if cands != [] {
      OtherCandidateLeavesRow(s, cands[0], cfg, now, k);
      if PrepareCandidate(s, cands[0], cfg, now).1.None? {
        NoVisitLeavesRow(PrepareCandidate(s, cands[0], cfg, now).0, cands[1..], cfg, now, k);
      }
    }
  }

  lemma {:induction false} VisitedIsListed(s: State, cands: seq<Candidate>, k: RowKey, cfg: Settings, now: Time)
    requires WalkReaches(s, cands, k, cfg, now)
    ensures DeliveryCandidate(k) in cands
    decreases |cands|
  {
    if cands[0] != DeliveryCandidate(k) {
      VisitedIsListed(PrepareCandidate(s, cands[0], cfg, now).0, cands[1..], k, cfg, now);
    }
  }

  /** Every visit emitted a packet, but the one that failed the row. */
  predicate Counted(d: Delivery, count: nat, visits: nat) {
    visits == count + (if d.state.Failed? then 1 else 0)
  }

  lemma TurnKeepsCount(s: State, m: Moment, k: RowKey, cfg: Settings, clock: Time, n: nat, count: nat, visits: nat)
    requires Inv(s, clock) && m.SenderTurn? && SilentMoment(s, m, k, cfg, clock) && HasRow(s, k, n)
    requires var d := s.deliveries[k];
      d.session.None? && (d.state.Pending? || d.state.Failed?) && Counted(d, count, visits)
    ensures k in After(s, m, cfg).deliveries
    ensures Counted(After(s, m, cfg).deliveries[k], count + |EmittedBy(s, m, k, cfg)|, if Visits(s, m, k, cfg)
      then visits + 1 else visits)
  {
    ClockKeepsInv(s, clock, m.preparedAt);
    WalkReachesRow(s, m.candidates, cfg, m.preparedAt, k);
    var r := PrepareNext(s, m.candidates, cfg, m.preparedAt);
    if Visits(s, m, k, cfg) {
      VisitedIsListed(s, m.candidates, k, cfg, m.preparedAt);
      assert IsDue(s, DeliveryCandidate(k), cfg, m.preparedAt);
      VisitEmitsOrFails(s, m.candidates, cfg, m.preparedAt, k);
    } else {
      NoVisitLeavesRow(s, m.candidates, cfg, m.preparedAt, k);
    }
    TurnKeepsState(s, m, k, cfg);
  }

  /** Recording an outcome changes no row's state. */
  lemma TurnKeepsState(s: State, m: Moment, k: RowKey, cfg: Settings)
    requires m.SenderTurn? && k in PrepareNext(s, m.candidates, cfg, m.preparedAt).0.deliveries
    ensures var r := PrepareNext(s, m.candidates, cfg, m.preparedAt);
      && k in After(s, m, cfg).deliveries && After(s, m, cfg).deliveries[k].state == r.0.deliveries[k].state
      && |EmittedBy(s, m, k, cfg)| == if PacketFor(r, k) then 1 else 0
  {
    var r := PrepareNext(s, m.candidates, cfg, m.preparedAt);
    if r.1.Some? {
      OutcomeAt(r.0, r.1.value, m.outcome, cfg, m.recordedAt, k);
      if CountsIn(r.0, r.1.value, m.outcome, k) {
        PartSentKeeps(r.0.deliveries[k], r.0.packets[r.1.value].purpose.part, Suggestion(m.outcome), cfg, m.recordedAt);
      }
    }
  }

  /** The invariant of a silent run: the tables are in order, and ledger, packet table and visits agree. */
  ghost predicate InOrder(w: World, k: RowKey, n: nat, limit: nat, cfg: Settings) {
    && Inv(w.tables, w.clock)
    && HasRow(w.tables, k, n)
    && (exists done :: Ledger(w.tables.deliveries[k], n, limit, w.emitted, done, cfg))
    && Listed(w.tables, k, w.emitted)
    && Counted(w.tables.deliveries[k], |w.emitted|, w.visits)
  }

  lemma MomentKeepsOrder(w: World, m: Moment, k: RowKey, cfg: Settings, n: nat, limit: nat)
    requires InOrder(w, k, n, limit, cfg) && cfg.Valid() && SilentMoment(w.tables, m, k, cfg, w.clock)
    ensures InOrder(NextWorld(k, cfg)(w, m), k, n, limit, cfg)
  {
    var done :| Ledger(w.tables.deliveries[k], n, limit, w.emitted, done, cfg);
    MomentKeepsInv(w.tables, m, k, cfg, w.clock, n);
    var next := MomentKeepsLedger(w.tables, m, k, cfg, w.clock, n, limit, w.emitted, done);
    MomentKeepsList(w.tables, m, k, cfg, w.clock, n, w.emitted);
    MomentKeepsCount(w.tables, m, k, cfg, w.clock, n, |w.emitted|, w.visits);
  }

  lemma MomentKeepsList(s: State, m: Moment, k: RowKey, cfg: Settings, clock: Time, n: nat, emitted: seq<Emission>)
    requires Inv(s, clock) && cfg.Valid() && SilentMoment(s, m, k, cfg, clock) && Listed(s, k, emitted)
    requires HasRow(s, k, n) && s.deliveries[k].session.None? && !s.deliveries[k].state.Queued?
    ensures Listed(After(s, m, cfg), k, emitted + EmittedBy(s, m, k, cfg))
  {
    if m.SenderTurn? {
      TurnKeepsList(s, m, k, cfg, clock, n, emitted);
    } else {
      assert EmittedBy(s, m, k, cfg) == [] && emitted + [] == emitted;
      ElsewhereKeepsList(s, m.step, k, cfg, clock, m.at, emitted);
    }
  }

  lemma MomentKeepsCount(s: State, m: Moment, k: RowKey, cfg: Settings, clock: Time, n: nat, count: nat, visits: nat)
    requires Inv(s, clock) && SilentMoment(s, m, k, cfg, clock) && HasRow(s, k, n)
    requires var d := s.deliveries[k];
      d.session.None? && (d.state.Pending? || d.state.Failed?) && Counted(d, count, visits)
    ensures k in After(s, m, cfg).deliveries
    ensures Counted(After(s, m, cfg).deliveries[k], count + |EmittedBy(s, m, k, cfg)|, if Visits(s, m, k, cfg)
      then visits + 1 else visits)
  {
    if m.SenderTurn? {
      TurnKeepsCount(s, m, k, cfg, clock, n, count, visits);
    }
  }

  lemma RunKeepsOrder(w: World, moments: seq<Moment>, k: RowKey, cfg: Settings, n: nat, limit: nat)
    requires InOrder(w, k, n, limit, cfg) && cfg.Valid() && SilentRun(w, moments, k, cfg)
    ensures InOrder(Final(w, moments, k, cfg), k, n, limit, cfg)
  {
    var inv := (x: World) => InOrder(x, k, n, limit, cfg);
    forall x: World, m: Moment | inv(x) && Silent(k, cfg)(x, m) ensures inv(NextWorld(k, cfg)(x, m)) {
      MomentKeepsOrder(x, m, k, cfg, n, limit);
    }
    KeptByRun(NextWorld(k, cfg), Silent(k, cfg), inv, w, moments);
  }

  /** What a ledger says about the number of packets. */
  lemma LedgerCounts(d: Delivery, n: nat, limit: nat, emitted: seq<Emission>, done: nat, cfg: Settings)
    requires Ledger(d, n, limit, emitted, done, cfg)
    ensures (d.attemptCount - 1) * n <= |emitted| <= d.attemptCount * n <= limit * n
    ensures d.state.Pending? || (d.state.Failed? && |emitted| == limit * n)
  {
    assert (limit - d.attemptCount) * n >= 0;
  }

  /** Pending outside any session, before its first attempt and first report. */
  predicate IsFresh(s: State, k: RowKey) {
    && k in s.deliveries && k.message in s.messages
    && var d := s.deliveries[k];
    d.state.Pending? && d.session.None? && d.attemptCount == 0 && d.receivedParts == {}
  }

  /** A fresh row has sent nothing. */
  lemma FreshLedger(s: State, k: RowKey, cfg: Settings, clock: Time)
    requires Inv(s, clock) && IsFresh(s, k)
    ensures var n, limit := |s.messages[k.message].partTexts|, s.deliveries[k].maximumAttempts;
      InOrder(World(s, clock, [], 0), k, n, limit, cfg)
  {
    var n, limit := |s.messages[k.message].partTexts|, s.deliveries[k].maximumAttempts;
    assert MessageOk(k.message.sender, s.messages[k.message], s.nextMessageId, clock);
    assert RowCountersOk(s.deliveries[k], AllParts(n));
    RestEmpty(n, n);
    assert Ledger(s.deliveries[k], n, limit, [], n, cfg);
    forall id ensures !IsArmPacket(s, k, id) {
      assert id in s.packets ==> PacketOk(s, s.packets[id]);
    }
  }

  /** The packets of a row whose message has n parts and that may try `limit` times, after this many visits. */
  predicate ExactCost(s: State, k: RowKey, n: nat, limit: nat, emitted: seq<Emission>, visits: nat, cfg: Settings) {
    && 1 <= n
    && k in s.deliveries
    && Ascending(emitted, n)
    && Paced(emitted, n, cfg)
    && |ArmPackets(s, k)| == |emitted|
    && (forall i | 0 <= i < |emitted| :: IsEmission(s, k, emitted[i]))
    && |emitted| == (if visits <= limit * n then visits else limit * n)
    && visits <= limit * n + 1
    && s.deliveries[k].state == if visits <= limit * n then Pending else Failed
  }

  /**
   A silent device costs exactly maximum attempts times part count packets. Over every run, each
   visit of the sender loop to a fresh unowned delivery adds one packet to the table, counting up
   the parts round by round, each round after the previous one's acknowledgement deadline and retry
   pause; once the whole product is in the table the next visit fails the row, and no other does.
   */
  lemma SilentDeviceCost(s: State, moments: seq<Moment>, k: RowKey, cfg: Settings, clock: Time)
    requires Inv(s, clock) && cfg.Valid() && IsFresh(s, k) && SilentRun(World(s, clock, [], 0), moments, k, cfg)
    ensures
      var w := Final(World(s, clock, [], 0), moments, k, cfg);
      ExactCost(w.tables, k, |s.messages[k.message].partTexts|, s.deliveries[k].maximumAttempts, w.emitted, w.visits,
        cfg)
  {
    var n, limit := |s.messages[k.message].partTexts|, s.deliveries[k].maximumAttempts;
    FreshLedger(s, k, cfg, clock);
    RunKeepsOrder(World(s, clock, [], 0), moments, k, cfg, n, limit);
    OrderIsExact(Final(World(s, clock, [], 0), moments, k, cfg), k, n, limit, cfg);
  }

  /**
   So once the loop came to the row often enough, it has failed and the table holds the whole
   product of its packets.
   */
  lemma SilentDeliveryFails(s: State, moments: seq<Moment>, k: RowKey, cfg: Settings, clock: Time)
    requires Inv(s, clock) && cfg.Valid() && IsFresh(s, k) && SilentRun(World(s, clock, [], 0), moments, k, cfg)
    requires Final(World(s, clock, [], 0), moments, k,
      cfg).visits > s.deliveries[k].maximumAttempts * |s.messages[k.message].partTexts|
    ensures
      var t := Final(World(s, clock, [], 0), moments, k, cfg).tables;
      && k in t.deliveries && t.deliveries[k].state.Failed?
      && |ArmPackets(t, k)| == s.deliveries[k].maximumAttempts * |s.messages[k.message].partTexts|
  {
    SilentDeviceCost(s, moments, k, cfg, clock);
  }

  lemma OrderIsExact(w: World, k: RowKey, n: nat, limit: nat, cfg: Settings)
    requires InOrder(w, k, n, limit, cfg)
    ensures ExactCost(w.tables, k, n, limit, w.emitted, w.visits, cfg)
  {
    var done :| Ledger(w.tables.deliveries[k], n, limit, w.emitted, done, cfg);
    LedgerCounts(w.tables.deliveries[k], n, limit, w.emitted, done, cfg);
    ListedCounts(w.tables, k, w.emitted);
  }

  lemma WholeProduct(attempts: nat, limit: nat, n: nat, done: nat, count: nat)
    requires 1 <= done <= n && count + n == attempts * n + done && attempts <= limit
    ensures count == limit * n <==> attempts == limit && done == n
  {
    if attempts < limit {
      assert limit * n == attempts * n + (limit - attempts) * n;
      SmallMultiple(limit - attempts, n);
    }
  }

  /** A spent ledger is one whose last round is over and was the last allowed. */
  lemma SpentLedger(d: Delivery, n: nat, limit: nat, emitted: seq<Emission>, done: nat, cfg: Settings)
    requires Ledger(d, n, limit, emitted, done, cfg)
    ensures |emitted| == limit * n <==> d.roundParts == {} && d.attemptCount >= d.maximumAttempts
  {
    RestEmpty(done, n);
    WholeProduct(d.attemptCount, limit, n, done, |emitted|);
  }

  /**
   A walk that comes to the row emits its next packet exactly while the product is not reached, and
   otherwise fails it.
   */
  lemma VisitedRowEmitsOrFails(w: World, cands: seq<Candidate>, k: RowKey, n: nat, limit: nat, cfg: Settings, now: Time)
    requires InOrder(w, k, n, limit, cfg) && w.clock <= now && IsCandidateList(w.tables, cands, cfg, now)
    requires WalkReaches(w.tables, cands, k, cfg, now)
    ensures var r := PrepareNext(w.tables, cands, cfg, now);
      && (PacketFor(r, k) <==> |w.emitted| < limit * n)
      && (!PacketFor(r, k) ==> k in r.0.deliveries && r.0.deliveries[k].state.Failed?)
  {
    ClockKeepsInv(w.tables, w.clock, now);
    var d := w.tables.deliveries[k];
    var done :| Ledger(d, n, limit, w.emitted, done, cfg);
    LedgerCounts(d, n, limit, w.emitted, done, cfg);
    SpentLedger(d, n, limit, w.emitted, done, cfg);
    VisitedIsListed(w.tables, cands, k, cfg, now);
    assert IsDue(w.tables, DeliveryCandidate(k), cfg, now);
    VisitEmitsOrFails(w.tables, cands, cfg, now, k);
    WalkReachesRow(w.tables, cands, cfg, now, k);
  }

  lemma OwnDue(s: State, k: RowKey, cfg: Settings, now: Time)
    requires Inv(s, now) && DueDelivery(s, k, cfg, now) && k.message in s.messages && s.deliveries[k].session.None?
    ensures var r := PrepareDelivery(s, k, cfg, now);
      && (PacketFor(r, k) <==>
        !(s.deliveries[k].roundParts == {} && s.deliveries[k].attemptCount >= s.deliveries[k].maximumAttempts))
      && (!PacketFor(r, k) ==> r.1.None? && k in r.0.deliveries && r.0.deliveries[k].state.Failed?)
  {
    OwnCandidate(s, cfg, now, k);
    DueDeliveryProgress(s, k, cfg, now);
    NothingLeftMeansRoundOver(s, k);
  }
}
