/** What the sender loop guarantees: the per-device cap, progress, and packets that are never out of turn. */
module Scheduling {
  import opened Options
  import opened Times
  import opened RetrySchedule
  import opened Tables
  import opened DeliveryRows
  import opened ReceiptRows
  import opened Transitions
  import opened Invariants
  import opened StepProofs
  import opened RowEffects
  import opened FiniteSets

  // ----- the per-device cap ---------------------------------------------------------------------

  /** No row takes a place it did not have. */
  predicate NoNewPlace(s: State, t: State, k: RowKey) {
    k in t.deliveries && InProgressRow(t.deliveries[k]) ==> k in s.deliveries && InProgressRow(s.deliveries[k])
  }

  lemma CapShrinks(s: State, t: State, limit: nat)
    requires CapOk(s, limit) && forall k :: NoNewPlace(s, t, k)
    ensures CapOk(t, limit)
  {
    forall device ensures |InProgress(t, device)| <= limit {
      assert InProgress(t, device) <= InProgress(s, device) by {
        forall k | k in InProgress(t, device) ensures k in InProgress(s, device) {
          assert NoNewPlace(s, t, k);
        }
      }
      SubsetCardinality(InProgress(t, device), InProgress(s, device));
    }
  }

  lemma ReportTakesNoPlace(s: State, step: Step, cfg: Settings, now: Time, k: RowKey)
    requires RowsOk(s) && (step.StatusArrives? || step.ReadArrives?)
    ensures NoNewPlace(s, Apply(s, step, cfg, now), k)
  {
    if ReportedRow(step) != Some(k) {
      ReportIsQuietElsewhere(s, step, cfg, now, k);
    } else if step.StatusArrives? && StatusApplies(s, step.device, step.sender, step.clientId, step.received) {
      StatusAtItsRow(s, step.device, step.sender.value, step.clientId, step.received, cfg, now);
    } else {
      ReadRow(s, step, cfg, now, k);
    }
  }

  lemma LinkTakesNoPlace(s: State, device: DeviceId, user: UserId, k: RowKey)
    ensures NoNewPlace(s, LinkDevice(s, device, user), k)
  {
    if k in s.deliveries {
      LinkOnlyCancels(s, device, user, k);
    }
  }

  lemma OtherStepsKeepCap(s: State, step: Step, cfg: Settings, clock: Time, now: Time)
    requires Inv(s, clock) && clock <= now && cfg.Valid() && Enabled(s, step, cfg, now)
    requires !step.PacketPrepared? && CapOk(s, cfg.activeLimit)
    ensures CapOk(Apply(s, step, cfg, now), cfg.activeLimit)
  {
    var t := Apply(s, step, cfg, now);
    forall k ensures NoNewPlace(s, t, k) {
      if step.StatusArrives? || step.ReadArrives? {
        ReportTakesNoPlace(s, step, cfg, now, k);
      } else if step.DeviceLinked? {
        LinkTakesNoPlace(s, step.device, step.user, k);
      } else {
        QuietStep(s, step, cfg, clock, now, k);
      }
    }
    CapShrinks(s, t, cfg.activeLimit);
  }

  /** Starting a round takes a place only when one is free. */
  lemma StartRoundKeepsCap(s: State, k: RowKey, cfg: Settings, now: Time)
    requires CapOk(s, cfg.activeLimit) && k in s.deliveries && k.message in s.messages && s.deliveries[k].state.Pending?
    requires s.deliveries[k].roundStartedAt.Some? || |InProgress(s, k.device)| < cfg.activeLimit
    ensures CapOk(UpdateDelivery(s, k, StartRound(s.deliveries[k], s.messages[k.message].Parts(), now)),
      cfg.activeLimit)
  {
    var d := StartRound(s.deliveries[k], s.messages[k.message].Parts(), now);
    forall device ensures |InProgress(UpdateDelivery(s, k, d), device)| <= cfg.activeLimit {
      PlacesWithRow(s, k, d, device);
    }
  }

  lemma PlacesWithRow(s: State, k: RowKey, d: Delivery, device: DeviceId)
    requires k in s.deliveries && InProgressRow(d)
    ensures InProgress(UpdateDelivery(s, k, d), device)
      == InProgress(s, device) + (if device == k.device then {k} else {})
  {
  }

  lemma FailTakesNoPlace(s: State, f: RowKey, k: RowKey)
    requires f in s.deliveries
    ensures NoNewPlace(s, FailExhaustedDelivery(s, f), k)
  {
    FailIsQuiet(s, f);
    assert QuietAt(s, FailExhaustedDelivery(s, f), k);
  }

  lemma SameRowsKeepCap(s: State, t: State, limit: nat)
    requires CapOk(s, limit) && t.deliveries == s.deliveries
    ensures CapOk(t, limit)
  {
    forall k ensures NoNewPlace(s, t, k) {
    }
    CapShrinks(s, t, limit);
  }

  lemma FailKeepsCap(s: State, k: RowKey, limit: nat)
    requires CapOk(s, limit) && k in s.deliveries
    ensures CapOk(FailExhaustedDelivery(s, k), limit)
  {
    forall q ensures NoNewPlace(s, FailExhaustedDelivery(s, k), q) {
      FailTakesNoPlace(s, k, q);
    }
    CapShrinks(s, FailExhaustedDelivery(s, k), limit);
  }

  lemma PrepareDeliveryKeepsCap(s: State, k: RowKey, cfg: Settings, now: Time)
    requires RowsOk(s) && CapOk(s, cfg.activeLimit)
    requires k in s.deliveries && k.message in s.messages && s.deliveries[k].state.Pending?
    ensures CapOk(PrepareDelivery(s, k, cfg, now).0, cfg.activeLimit)
  {
    var d := s.deliveries[k];
    var t := PrepareDelivery(s, k, cfg, now).0;
    NothingLeftMeansRoundOver(s, k);
    if PartsLeft(d) != {} {
      SameRowsKeepCap(s, t, cfg.activeLimit);
    } else if d.attemptCount >= d.maximumAttempts {
      FailKeepsCap(s, k, cfg.activeLimit);
    } else if !(d.roundStartedAt.None? && |InProgress(s, k.device)| >= cfg.activeLimit) {
      StartRoundKeepsCap(s, k, cfg, now);
      SameRowsKeepCap(UpdateDelivery(s, k, StartRound(d, s.messages[k.message].Parts(), now)), t, cfg.activeLimit);
    }
  }

  lemma PrepareCandidateKeepsCap(s: State, c: Candidate, cfg: Settings, now: Time)
    requires RowsOk(s) && CapOk(s, cfg.activeLimit)
    ensures CapOk(PrepareCandidate(s, c, cfg, now).0, cfg.activeLimit)
  {
    var k := c.key;
    if c.DeliveryCandidate? && k in s.deliveries && k.message in s.messages && s.deliveries[k].state.Pending? {
      PrepareDeliveryKeepsCap(s, k, cfg, now);
    } else {
      SameRowsKeepCap(s, PrepareCandidate(s, c, cfg, now).0, cfg.activeLimit);
    }
  }

  lemma {:induction false} PrepareKeepsCap(s: State, cands: seq<Candidate>, cfg: Settings, now: Time)
    requires Inv(s, now) && CapOk(s, cfg.activeLimit)
    ensures CapOk(PrepareNext(s, cands, cfg, now).0, cfg.activeLimit)
    decreases |cands|
  {
    if cands != [] {
      PrepareCandidateKeepsCap(s, cands[0], cfg, now);
      PrepareCandidateKeepsInv(s, cands[0], cfg, now);
      PrepareKeepsCap(PrepareCandidate(s, cands[0], cfg, now).0, cands[1..], cfg, now);
    }
  }

  /** At most the configured number of deliveries per device is in progress after every step. */
  lemma StepKeepsCap(s: State, step: Step, cfg: Settings, clock: Time, now: Time)
    requires Inv(s, clock) && clock <= now && cfg.Valid() && Enabled(s, step, cfg, now)
    requires CapOk(s, cfg.activeLimit)
    ensures CapOk(Apply(s, step, cfg, now), cfg.activeLimit)
  {
    if step.PacketPrepared? {
      ClockKeepsInv(s, clock, now);
      PrepareKeepsCap(s, step.candidates, cfg, now);
    } else {
      OtherStepsKeepCap(s, step, cfg, clock, now);
    }
  }

  // ----- progress ---------------------------------------------------------------------------------

  /** Everything that still waits to be sent: pending deliveries and pending receipts. */
  function PendingWork(s: State): set<Candidate> {
    (set k | k in s.deliveries && s.deliveries[k].state.Pending? :: DeliveryCandidate(k))
    + (set k | k in s.receipts && s.receipts[k].state.ReceiptPending? :: ReceiptCandidate(k))
  }

  predicate IsPendingWork(s: State, c: Candidate) {
    match c
    case DeliveryCandidate(k) => k in s.deliveries && s.deliveries[k].state.Pending?
    case ReceiptCandidate(k) => k in s.receipts && s.receipts[k].state.ReceiptPending?
  }

  lemma PendingWorkMembers(s: State, c: Candidate)
    ensures c in PendingWork(s) <==> IsPendingWork(s, c)
  {
  }

  lemma FailRemovesWork(s: State, k: RowKey, c: Candidate)
    requires k in s.deliveries
    ensures var t := FailExhaustedDelivery(s, k);
      && (IsPendingWork(t, c) ==> IsPendingWork(s, c))
      && !IsPendingWork(t, DeliveryCandidate(k))
  {
  }

  /** Walking a candidate never adds pending work. */
  lemma CandidateAddsNoWork(s: State, c: Candidate, cfg: Settings, now: Time, w: Candidate)
    ensures IsPendingWork(PrepareCandidate(s, c, cfg, now).0, w) ==> IsPendingWork(s, w)
  {
    if c.DeliveryCandidate? {
      DeliveryAddsNoWork(s, c.key, cfg, now, w);
    }
  }

  lemma DeliveryAddsNoWork(s: State, k: RowKey, cfg: Settings, now: Time, w: Candidate)
    ensures IsPendingWork(PrepareDelivery(s, k, cfg, now).0, w) ==> IsPendingWork(s, w)
  {
    PrepareDeliveryTouches(s, k, cfg, now);
    if k in s.deliveries && k.message in s.messages && s.deliveries[k].state.Pending? {
      if PartsLeft(s.deliveries[k]) != {} {
        LowestPartTouches(s, k);
      } else if s.deliveries[k].roundParts == {} {
        if s.deliveries[k].attemptCount >= s.deliveries[k].maximumAttempts {
          FailRemovesWork(s, k, w);
        } else {
          StartTouches(s, k, now);
        }
      }
    }
  }

  lemma {:induction false} PrepareAddsNoWork(s: State, cands: seq<Candidate>, cfg: Settings, now: Time, w: Candidate)
    ensures IsPendingWork(PrepareNext(s, cands, cfg, now).0, w) ==> IsPendingWork(s, w)
    decreases |cands|
  {
    if cands != [] {
      CandidateAddsNoWork(s, cands[0], cfg, now, w);
      PrepareAddsNoWork(PrepareCandidate(s, cands[0], cfg, now).0, cands[1..], cfg, now, w);
    }
  }

  lemma LowestPartYields(s: State, k: RowKey, now: Time)
    requires RowsOk(s) && k in s.deliveries && k.message in s.messages
    requires s.deliveries[k].state.Pending? && PartsLeft(s.deliveries[k]) != {}
    ensures PrepareLowestPart(s, k).1.Some?
  {
    LowestPartPacket(s, k, now);
  }

  lemma StartedRoundYields(s: State, k: RowKey, now: Time)
    requires Inv(s, now) && k in s.deliveries && k.message in s.messages
    requires s.deliveries[k].state.Pending? && s.deliveries[k].attemptCount < s.deliveries[k].maximumAttempts
    ensures PrepareLowestPart(UpdateDelivery(s, k, StartRound(s.deliveries[k], s.messages[k.message].Parts(), now)),
      k).1.Some?
  {
    StartRoundKeepsInv(s, k, now);
    LowestPartYields(UpdateDelivery(s, k, StartRound(s.deliveries[k], s.messages[k.message].Parts(), now)), k, now);
  }

  /** A started round always yields a packet, and so does a due row with attempts left. */
  lemma DueDeliveryProgress(s: State, k: RowKey, cfg: Settings, now: Time)
    requires Inv(s, now) && DueDelivery(s, k, cfg, now)
    ensures var r := PrepareDelivery(s, k, cfg, now);
      r.1.Some? || !IsPendingWork(r.0, DeliveryCandidate(k))
  {
    assert RowLinksOk(s, k);
    NothingLeftMeansRoundOver(s, k);
    if PartsLeft(s.deliveries[k]) != {} {
      LowestPartYields(s, k, now);
    } else if s.deliveries[k].attemptCount >= s.deliveries[k].maximumAttempts {
      FailRemovesWork(s, k, DeliveryCandidate(k));
    } else {
      StartedRoundYields(s, k, now);
    }
  }

  lemma DueCandidateProgress(s: State, c: Candidate, cfg: Settings, now: Time)
    requires Inv(s, now) && IsDue(s, c, cfg, now)
    ensures var r := PrepareCandidate(s, c, cfg, now);
      r.1.Some? || !IsPendingWork(r.0, c)
  {
    if c.DeliveryCandidate? {
      DueDeliveryProgress(s, c.key, cfg, now);
    }
  }

  /**
   With anything due and eligible, preparing either yields a packet or strictly shrinks the
   pending work, so the sender loop never spins without end.
   */
  lemma PrepareMakesProgress(s: State, cands: seq<Candidate>, cfg: Settings, now: Time, due: Candidate)
    requires Inv(s, now) && IsCandidateList(s, cands, cfg, now) && IsDue(s, due, cfg, now)
    ensures var r := PrepareNext(s, cands, cfg, now);
      r.1.Some? || PendingWork(r.0) < PendingWork(s)
  {
    assert cands != [];
    var c := cands[0];
    assert c in cands;
    var first := PrepareCandidate(s, c, cfg, now);
    DueCandidateProgress(s, c, cfg, now);
    if first.1.None? {
      var r := PrepareNext(s, cands, cfg, now);
      forall w | w in PendingWork(r.0) ensures w in PendingWork(s) && w != c {
        PendingWorkMembers(r.0, w);
        PrepareAddsNoWork(first.0, cands[1..], cfg, now, w);
        CandidateAddsNoWork(s, c, cfg, now, w);
        PendingWorkMembers(s, w);
      }
      PendingWorkMembers(s, c);
      assert c in PendingWork(s) && c !in PendingWork(r.0);
    }
  }

  /** The packet of the lowest part left, and nothing else. */
  lemma LowestPacket(s: State, k: RowKey, now: Time)
    requires RowsOk(s) && k in s.deliveries && k.message in s.messages
    requires s.deliveries[k].state.Pending? && PartsLeft(s.deliveries[k]) != {}
    ensures var d, r := s.deliveries[k], PrepareLowestPart(s, k);
      && r.1.Some? && r.1.value in r.0.packets && r.0.deliveries == s.deliveries
      && var p := r.0.packets[r.1.value];
      && p.purpose.DeliveryPart? && p == PartPacket(k, d, p.purpose.part)
      && p.purpose.part in PartsLeft(d) && forall i | i in PartsLeft(d) :: p.purpose.part <= i
  {
    LowestPartPacket(s, k, now);
  }

  lemma StartedRoundPacket(s: State, k: RowKey, now: Time)
    requires Inv(s, now) && k in s.deliveries && k.message in s.messages
    requires s.deliveries[k].state.Pending? && s.deliveries[k].attemptCount < s.deliveries[k].maximumAttempts
    ensures var d := StartRound(s.deliveries[k], s.messages[k.message].Parts(), now);
      var r := PrepareLowestPart(UpdateDelivery(s, k, d), k);
      && r.1.Some? && r.1.value in r.0.packets && k in r.0.deliveries && r.0.deliveries[k] == d
      && var p := r.0.packets[r.1.value];
      && p.purpose.DeliveryPart? && p == PartPacket(k, d, p.purpose.part)
      && p.purpose.part in d.roundParts && forall i | i in d.roundParts :: p.purpose.part <= i
  {
    var s1 := UpdateDelivery(s, k, StartRound(s.deliveries[k], s.messages[k.message].Parts(), now));
    StartRoundKeepsInv(s, k, now);
    NothingLeftMeansRoundOver(s1, k);
    LowestPacket(s1, k, now);
  }

  /** The row's attempt was counted together with the packet of its lowest missing part. */
  predicate CountedWithPacket(s: State, r: (State, Option<PacketId>), k: RowKey) {
    && k in s.deliveries && k.message in s.messages && k in r.0.deliveries
    && var d := r.0.deliveries[k];
    && d.attemptCount == s.deliveries[k].attemptCount + 1 <= d.maximumAttempts
    && d.roundParts == s.messages[k.message].Parts() - s.deliveries[k].receivedParts
    && r.1.Some? && r.1.value in r.0.packets
    && var p := r.0.packets[r.1.value];
    && p.purpose.DeliveryPart? && p == PartPacket(k, d, p.purpose.part)
    && p.purpose.part in d.roundParts && (forall i | i in d.roundParts :: p.purpose.part <= i)
  }

  predicate SameAttempts(s: State, t: State, k: RowKey)
    requires k in s.deliveries
  {
    k in t.deliveries && t.deliveries[k].attemptCount == s.deliveries[k].attemptCount
  }

  lemma StartedAttempt(s: State, k: RowKey, now: Time)
    requires Inv(s, now) && k in s.deliveries && k.message in s.messages
    requires s.deliveries[k].state.Pending? && s.deliveries[k].attemptCount < s.deliveries[k].maximumAttempts
    ensures var d := StartRound(s.deliveries[k], s.messages[k.message].Parts(), now);
      CountedWithPacket(s, PrepareLowestPart(UpdateDelivery(s, k, d), k), k)
  {
    StartedRoundPacket(s, k, now);
  }

  lemma OwnAttempt(s: State, k: RowKey, cfg: Settings, now: Time)
    requires Inv(s, now) && k in s.deliveries
    ensures var r := PrepareDelivery(s, k, cfg, now);
      SameAttempts(s, r.0, k) || CountedWithPacket(s, r, k)
  {
    assert RowLinksOk(s, k);
    var d := s.deliveries[k];
    if d.state.Pending? {
      NothingLeftMeansRoundOver(s, k);
      if PartsLeft(d) != {} {
        LowestPartTouches(s, k);
      } else if d.attemptCount >= d.maximumAttempts {
        FailKeepsAttempts(s, k, k);
      } else {
        StartedAttempt(s, k, now);
      }
    }
  }

  lemma OtherAttempt(s: State, f: RowKey, cfg: Settings, now: Time, k: RowKey)
    requires k in s.deliveries && f != k
    ensures SameAttempts(s, PrepareDelivery(s, f, cfg, now).0, k)
  {
    if f in s.deliveries && f.message in s.messages && s.deliveries[f].state.Pending? {
      if PartsLeft(s.deliveries[f]) != {} {
        LowestPartTouches(s, f);
      } else if s.deliveries[f].roundParts == {} {
        if s.deliveries[f].attemptCount >= s.deliveries[f].maximumAttempts {
          FailKeepsAttempts(s, f, k);
        } else {
          StartTouches(s, f, now);
        }
      }
    }
  }

  lemma CandidateAttempt(s: State, c: Candidate, cfg: Settings, now: Time, k: RowKey)
    requires Inv(s, now) && k in s.deliveries
    ensures var r := PrepareCandidate(s, c, cfg, now);
      SameAttempts(s, r.0, k) || CountedWithPacket(s, r, k)
  {
    if c == DeliveryCandidate(k) {
      OwnAttempt(s, k, cfg, now);
    } else if c.DeliveryCandidate? {
      OtherAttempt(s, c.key, cfg, now, k);
    } else {
      PrepareReceiptTouches(s, c.key, now);
    }
  }

  lemma CandidateKeepsReceived(s: State, c: Candidate, cfg: Settings, now: Time, k: RowKey)
    requires k in s.deliveries
    ensures var t := PrepareCandidate(s, c, cfg, now).0;
      t.messages == s.messages && k in t.deliveries && t.deliveries[k].receivedParts == s.deliveries[k].receivedParts
  {
    PrepareCandidateReports(s, c, cfg, now, k);
    CandidateTouches(s, c, cfg, now);
  }

  lemma {:induction false} WalkAttempt(s: State, cands: seq<Candidate>, cfg: Settings, now: Time, k: RowKey)
    requires Inv(s, now) && k in s.deliveries
    ensures var r := PrepareNext(s, cands, cfg, now);
      SameAttempts(s, r.0, k) || CountedWithPacket(s, r, k)
    decreases |cands|
  {
    if cands != [] {
      CandidateAttempt(s, cands[0], cfg, now, k);
      var first := PrepareCandidate(s, cands[0], cfg, now);
      if first.1.None? {
        CandidateKeepsReceived(s, cands[0], cfg, now, k);
        PrepareCandidateKeepsInv(s, cands[0], cfg, now);
        WalkAttempt(first.0, cands[1..], cfg, now, k);
      }
    }
  }

  lemma ReportCountsNothing(s: State, step: Step, cfg: Settings, now: Time, k: RowKey)
    requires RowsOk(s) && (step.StatusArrives? || step.ReadArrives?) && ReportedRow(step) == Some(k)
    ensures var t := Apply(s, step, cfg, now);
      k in t.deliveries ==> k in s.deliveries && t.deliveries[k].attemptCount == s.deliveries[k].attemptCount
  {
    if step.StatusArrives? && StatusApplies(s, step.device, step.sender, step.clientId, step.received) {
      StatusAtItsRow(s, step.device, step.sender.value, step.clientId, step.received, cfg, now);
    } else {
      ReadRow(s, step, cfg, now, k);
    }
  }

  lemma LinkCountsNothing(s: State, device: DeviceId, user: UserId, k: RowKey)
    ensures var t := LinkDevice(s, device, user);
      k in t.deliveries ==> k in s.deliveries && t.deliveries[k].attemptCount == s.deliveries[k].attemptCount
  {
    if k in s.deliveries {
      LinkOnlyCancels(s, device, user, k);
    }
  }

  lemma OtherStepsCountNothing(s: State, step: Step, cfg: Settings, clock: Time, now: Time, k: RowKey)
    requires Inv(s, clock) && clock <= now && cfg.Valid() && Enabled(s, step, cfg, now) && !step.PacketPrepared?
    requires k in Apply(s, step, cfg, now).deliveries
    ensures Apply(s, step, cfg, now).deliveries[k].attemptCount <= if k in s.deliveries
      then s.deliveries[k].attemptCount else 0
  {
    if step.DeviceLinked? {
      LinkCountsNothing(s, step.device, step.user, k);
    } else if ReportedRow(step) == Some(k) {
      ReportCountsNothing(s, step, cfg, now, k);
    } else if step.StatusArrives? || step.ReadArrives? {
      ReportIsQuietElsewhere(s, step, cfg, now, k);
    } else {
      QuietStep(s, step, cfg, clock, now, k);
    }
  }

  /**
   Every counted attempt comes with a packet: a transaction that raises a row's attempt count is
   the sender loop preparing the packet of the row's lowest missing part, counting one attempt.
   */
  lemma AttemptComesWithPacket(s: State, step: Step, cfg: Settings, clock: Time, now: Time, k: RowKey)
    requires Inv(s, clock) && clock <= now && cfg.Valid() && Enabled(s, step, cfg, now)
    requires k in Apply(s, step, cfg, now).deliveries
    requires Apply(s, step, cfg, now).deliveries[k].attemptCount > if k in s.deliveries
      then s.deliveries[k].attemptCount else 0
    ensures step.PacketPrepared? && CountedWithPacket(s, PrepareNext(s, step.candidates, cfg, now), k)
  {
    if step.PacketPrepared? {
      ClockKeepsInv(s, clock, now);
      PrepareReports(s, step.candidates, cfg, now, k);
      WalkAttempt(s, step.candidates, cfg, now, k);
    } else {
      OtherStepsCountNothing(s, step, cfg, clock, now, k);
    }
  }

  lemma FailKeepsAttempts(s: State, f: RowKey, k: RowKey)
    requires f in s.deliveries && k in s.deliveries
    ensures SameAttempts(s, FailExhaustedDelivery(s, f), k)
  {
  }

  // ----- no packet out of turn ------------------------------------------------------------------

  /** A packet just prepared carries the lowest missing part of a pending row, or a level that was reached. */
  ghost predicate InTurn(t: State, id: PacketId) {
    && id in t.packets
    && var p := t.packets[id];
    && p.state.Prepared?
    && match p.purpose
       case DeliveryPart(part) =>
         && p.row in t.deliveries && t.deliveries[p.row].state.Pending?
         && p.armGeneration == t.deliveries[p.row].armGeneration && p.attemptNumber == t.deliveries[p.row].attemptCount
         && part in PartsLeft(t.deliveries[p.row])
         && (forall i | i in PartsLeft(t.deliveries[p.row]) :: part <= i)
       case ReceiptPush(level) =>
         p.row in t.receipts && level == t.receipts[p.row].targetLevel
  }

  lemma PrepareLowestInTurn(s: State, k: RowKey, now: Time)
    requires Inv(s, now) && k in s.deliveries && k.message in s.messages
    requires s.deliveries[k].state.Pending? && PartsLeft(s.deliveries[k]) != {}
    ensures var r := PrepareLowestPart(s, k);
      r.1.Some? && InTurn(r.0, r.1.value)
  {
    LowestPartPacket(s, k, now);
  }

  lemma DeliveryInTurn(s: State, k: RowKey, cfg: Settings, now: Time)
    requires Inv(s, now) && PrepareDelivery(s, k, cfg, now).1.Some?
    ensures var r := PrepareDelivery(s, k, cfg, now);
      InTurn(r.0, r.1.value)
  {
    var d := s.deliveries[k];
    NothingLeftMeansRoundOver(s, k);
    if PartsLeft(d) != {} {
      PrepareLowestInTurn(s, k, now);
    } else {
      StartRoundKeepsInv(s, k, now);
      PrepareLowestInTurn(UpdateDelivery(s, k, StartRound(d, s.messages[k.message].Parts(), now)), k, now);
    }
  }

  lemma InsertedReceiptInTurn(s: State, k: RowKey)
    requires k in s.receipts
    ensures var r := InsertPacket(s, ReceiptPacket(k, s.receipts[k]));
      r.1.Some? && InTurn(r.0, r.1.value)
  {
  }

  lemma ReceiptInTurn(s: State, k: RowKey, now: Time)
    requires PrepareReceipt(s, k, now).1.Some?
    ensures var r := PrepareReceipt(s, k, now);
      InTurn(r.0, r.1.value)
  {
    if s.receipts[k].roundPending {
      InsertedReceiptInTurn(s, k);
    } else {
      InsertedReceiptInTurn(s.(receipts := s.receipts[k := StartAttempt(s.receipts[k], now)]), k);
    }
  }

  lemma CandidateInTurn(s: State, c: Candidate, cfg: Settings, now: Time)
    requires Inv(s, now) && PrepareCandidate(s, c, cfg, now).1.Some?
    ensures var r := PrepareCandidate(s, c, cfg, now);
      InTurn(r.0, r.1.value)
  {
    match c
    case DeliveryCandidate(k) => DeliveryInTurn(s, k, cfg, now);
    case ReceiptCandidate(k) => ReceiptInTurn(s, k, now);
  }

  lemma {:induction false} PreparedPacketInTurn(s: State, cands: seq<Candidate>, cfg: Settings, now: Time)
    requires Inv(s, now) && PrepareNext(s, cands, cfg, now).1.Some?
    ensures var r := PrepareNext(s, cands, cfg, now);
      InTurn(r.0, r.1.value)
    decreases |cands|
  {
    var first := PrepareCandidate(s, cands[0], cfg, now);
    if first.1.Some? {
      CandidateInTurn(s, cands[0], cfg, now);
    } else {
      PrepareCandidateKeepsInv(s, cands[0], cfg, now);
      PreparedPacketInTurn(first.0, cands[1..], cfg, now);
    }
  }

  /**
   No gap: when a part of a message owned by a refresh session is prepared, every message of the
   session accepted earlier has been delivered to the device.
   */
  lemma NoGapOnTheAir(s: State, cands: seq<Candidate>, cfg: Settings, clock: Time, now: Time, sid: SessionId, q: RowKey)
    requires Inv(s, clock) && clock <= now
    requires var r := PrepareNext(s, cands, cfg, now);
      r.1.Some? && r.1.value in r.0.packets && r.0.packets[r.1.value].purpose.DeliveryPart?
        && Owns(r.0, sid, r.0.packets[r.1.value].row)
    ensures var r := PrepareNext(s, cands, cfg, now);
      var row := r.0.packets[r.1.value].row;
      && IsHead(r.0, sid, row) && sid in r.0.sessions && r.0.sessions[sid].state.Active?
      && (Owns(r.0, sid, q) && AcceptedAt(r.0, q) < AcceptedAt(r.0, row) ==> r.0.deliveries[q].state.Delivered?)
  {
    ClockKeepsInv(s, clock, now);
    PreparedPacketInTurn(s, cands, cfg, now);
    PrepareNextKeepsInv(s, cands, cfg, now);
    var r := PrepareNext(s, cands, cfg, now);
    HeadComesFirst(r.0, now, sid, r.0.packets[r.1.value].row, q);
  }

  /** A pending row of a session is its head, and whatever the session owns from earlier is delivered. */
  lemma HeadComesFirst(t: State, clock: Time, sid: SessionId, row: RowKey, q: RowKey)
    requires Inv(t, clock) && IsHead(t, sid, row)
    ensures sid in t.sessions && t.sessions[sid].state.Active?
    ensures Owns(t, sid, q) && AcceptedAt(t, q) < AcceptedAt(t, row) ==> t.deliveries[q].state.Delivered?
  {
    assert RowLinksOk(t, row);
    assert SessionOk(t, sid);
    if Owns(t, sid, q) {
      OwnedBeforeHead(t, sid, row, q);
    }
  }

  lemma OwnedBeforeHead(t: State, sid: SessionId, row: RowKey, q: RowKey)
    requires sid in t.sessions && t.sessions[sid].state.Active? && SessionOk(t, sid) && IsHead(t, sid, row)
    requires Owns(t, sid, q) && RowLinksOk(t, q)
    ensures AcceptedAt(t, q) < AcceptedAt(t, row) ==> t.deliveries[q].state.Delivered?
  {
    assert IsHead(t, sid, q) ==> q == row;
    assert IsQueued(t, sid, q) ==> AcceptedAt(t, row) <= AcceptedAt(t, q);
  }

  /** A receipt packet never claims a read or a delivery that has not happened. */
  lemma ReceiptPacketIsTrue(s: State, cands: seq<Candidate>, cfg: Settings, clock: Time, now: Time)
    requires Inv(s, clock) && clock <= now
    requires var r := PrepareNext(s, cands, cfg, now);
      r.1.Some? && r.1.value in r.0.packets && r.0.packets[r.1.value].purpose.ReceiptPush?
    ensures var r := PrepareNext(s, cands, cfg, now);
      var p := r.0.packets[r.1.value];
      && p.row.message in r.0.messages
      && 1 <= p.purpose.level <= r.0.messages[p.row.message].Level()
      && (p.purpose.level == READ_LEVEL ==> r.0.messages[p.row.message].readAt.Some?)
  {
    ClockKeepsInv(s, clock, now);
    PrepareNextKeepsInv(s, cands, cfg, now);
    var r := PrepareNext(s, cands, cfg, now);
    assert PacketOk(r.0, r.0.packets[r.1.value]);
  }

  /**
   Whatever is prepared goes to a device of the right user: a part to a device of the message's
   recipient, a receipt to a device of its sender; so nothing of a previous user reaches a relinked device.
   */
  lemma PacketsGoToTheRightUser(s: State, cands: seq<Candidate>, cfg: Settings, clock: Time, now: Time)
    requires Inv(s, clock) && clock <= now && PrepareNext(s, cands, cfg, now).1.Some?
    ensures var r := PrepareNext(s, cands, cfg, now);
      && r.1.value in r.0.packets
      && var p := r.0.packets[r.1.value];
      && p.row.message in r.0.messages && p.row.device in r.0.devices
      && r.0.devices[p.row.device].user ==
           Some(if p.purpose.DeliveryPart? then r.0.messages[p.row.message].recipient else p.row.message.sender)
  {
    ClockKeepsInv(s, clock, now);
    PreparedPacketInTurn(s, cands, cfg, now);
    PrepareNextKeepsInv(s, cands, cfg, now);
    PreparedReceiptPending(s, cands, cfg, now);
    var r := PrepareNext(s, cands, cfg, now);
    PacketUser(r.0, now, r.1.value);
  }

  lemma PacketUser(t: State, clock: Time, id: PacketId)
    requires Inv(t, clock) && InTurn(t, id)
    requires t.packets[id].purpose.ReceiptPush? ==> t.receipts[t.packets[id].row].state.ReceiptPending?
    ensures var p := t.packets[id];
      && p.row.message in t.messages && p.row.device in t.devices
      && t.devices[p.row.device].user
        == Some(if p.purpose.DeliveryPart? then t.messages[p.row.message].recipient else p.row.message.sender)
  {
    var p := t.packets[id];
    if p.purpose.DeliveryPart? {
      assert RowLinksOk(t, p.row);
    } else {
      assert ReceiptLinksOk(t, p.row) && ReceiptOk(t.receipts[p.row], t.messages[p.row.message].Level());
    }
  }

  /** A receipt packet is prepared for a receipt that is still pending. */
  predicate ReceiptStillPending(r: (State, Option<PacketId>)) {
    r.1.Some? && r.1.value in r.0.packets && r.0.packets[r.1.value].purpose.ReceiptPush? ==>
      r.0.packets[r.1.value].row in r.0.receipts && r.0.receipts[r.0.packets[r.1.value].row].state.ReceiptPending?
  }

  lemma CandidateReceiptPending(s: State, c: Candidate, cfg: Settings, now: Time)
    ensures ReceiptStillPending(PrepareCandidate(s, c, cfg, now))
  {
    match c
    case DeliveryCandidate(k) => DeliveryPacketIsNoReceipt(s, k, cfg, now);
    case ReceiptCandidate(k) => PreparedReceiptStaysPending(s, k, now);
  }

  lemma PreparedReceiptStaysPending(s: State, k: RowKey, now: Time)
    ensures ReceiptStillPending(PrepareReceipt(s, k, now))
  {
    if k in s.receipts && s.receipts[k].state.ReceiptPending? {
      var r := s.receipts[k];
      if r.roundPending {
        InsertedReceiptIsPending(s, k);
      } else if r.attemptCount < r.maximumAttempts {
        InsertedReceiptIsPending(s.(receipts := s.receipts[k := StartAttempt(r, now)]), k);
      }
    }
  }

  lemma InsertedReceiptIsPending(s: State, k: RowKey)
    requires k in s.receipts && s.receipts[k].state.ReceiptPending?
    ensures ReceiptStillPending(InsertPacket(s, ReceiptPacket(k, s.receipts[k])))
  {
  }

  lemma DeliveryPacketIsNoReceipt(s: State, k: RowKey, cfg: Settings, now: Time)
    ensures ReceiptStillPending(PrepareDelivery(s, k, cfg, now))
  {
    if k in s.deliveries && k.message in s.messages && s.deliveries[k].state.Pending? {
      if PartsLeft(s.deliveries[k]) != {} {
        LowestPacketIsNoReceipt(s, k);
      } else if s.deliveries[k].roundParts == {} && s.deliveries[k].attemptCount < s.deliveries[k].maximumAttempts {
        LowestPacketIsNoReceipt(UpdateDelivery(s, k,
          StartRound(s.deliveries[k], s.messages[k.message].Parts(), now)), k);
      }
    }
  }

  lemma LowestPacketIsNoReceipt(s: State, k: RowKey)
    requires k in s.deliveries && k.message in s.messages
    ensures ReceiptStillPending(PrepareLowestPart(s, k))
  {
  }

  lemma {:induction false} PreparedReceiptPending(s: State, cands: seq<Candidate>, cfg: Settings, now: Time)
    ensures ReceiptStillPending(PrepareNext(s, cands, cfg, now))
    decreases |cands|
  {
    if cands != [] {
      CandidateReceiptPending(s, cands[0], cfg, now);
      PreparedReceiptPending(PrepareCandidate(s, cands[0], cfg, now).0, cands[1..], cfg, now);
    }
  }
}
