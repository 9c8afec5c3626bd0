/**
 The exact cost of a receipt nobody confirms: over any run in which only the sender loop touches it
 and every send of it counts, each visit of the loop pushes it once more, one packet an attempt,
 until every attempt is spent; the visit after that fails it.
 */
module SilentReceipts {
  import opened Options
  import opened Times
  import opened RetrySchedule
  import opened Tables
  import opened DeliveryRows
  import opened ReceiptRows
  import opened Transitions
  import opened Invariants
  import opened StepProofs
  import opened RowEffects
  import opened PacketLife
  import opened TransitionSystems
  import opened Ledgers
  import opened SilentDelivery

  /**
   One push of the receipt: its packet, level and attempt, when it was prepared and recorded, and
   how long it waits.
   */
  datatype Push = Push(id: PacketId, level: nat, attempt: nat, preparedAt: Time, recordedAt: Time, wait: real)

  /** The tables, the clock, the pushes so far and how often the sender loop came to the receipt. */
  datatype PushWorld = PushWorld(tables: State, clock: Time, pushes: seq<Push>, visits: nat)

  /** The walk yields a push of this receipt. */
  predicate PushFor(r: (State, Option<PacketId>), k: RowKey) {
    r.1.Some? && r.1.value in r.0.packets && r.0.packets[r.1.value].row == k
      && r.0.packets[r.1.value].purpose.ReceiptPush?
  }

  ghost function PushedBy(s: State, m: Moment, k: RowKey, cfg: Settings): seq<Push> {
    if !m.SenderTurn? then [] else
      var r := PrepareNext(s, m.candidates, cfg, m.preparedAt);
      if !PushFor(r, k) then [] else
        var p := r.0.packets[r.1.value];
        [Push(r.1.value, p.purpose.level, p.attemptNumber, m.preparedAt, m.recordedAt,
              AcknowledgementWait(SuggestedBy(m.outcome), cfg))]
  }

  /** The walk over the candidates comes to the receipt: nothing before it yields a packet. */
  ghost predicate WalkComesTo(s: State, cands: seq<Candidate>, k: RowKey, cfg: Settings, now: Time)
    decreases |cands|
  {
    && cands != []
    && (|| cands[0] == ReceiptCandidate(k)
        || (var first := PrepareCandidate(s, cands[0], cfg, now);
            first.1.None? && WalkComesTo(first.0, cands[1..], k, cfg, now)))
  }

  ghost predicate ComesTo(s: State, m: Moment, k: RowKey, cfg: Settings) {
    m.SenderTurn? && WalkComesTo(s, m.candidates, k, cfg, m.preparedAt)
  }

  /** Only the sender loop prepares packets, nothing else touches the receipt, and every send of it counts. */
  ghost predicate UnconfirmedMoment(s: State, m: Moment, k: RowKey, cfg: Settings, clock: Time) {
    && clock <= m.Start() <= m.End()
    && match m
       case SenderTurn(cands, outcome, preparedAt, _) =>
         && IsCandidateList(s, cands, cfg, preparedAt)
         && (PushedBy(s, m, k, cfg) != [] ==> MayHaveGoneOut(outcome))
       case Elsewhere(step, at) =>
         && Enabled(s, step, cfg, at) && !step.PacketPrepared?
         && k in s.receipts && k in Apply(s, step, cfg, at).receipts
         && Apply(s, step, cfg, at).receipts[k] == s.receipts[k]
  }

  ghost function NextPush(k: RowKey, cfg: Settings): (PushWorld, Moment) -> PushWorld {
    (w: PushWorld, m: Moment) =>
      PushWorld(After(w.tables, m, cfg), m.End(), w.pushes + PushedBy(w.tables, m, k, cfg),
                if ComesTo(w.tables, m, k, cfg) then w.visits + 1 else w.visits)
  }

  ghost function Unconfirmed(k: RowKey, cfg: Settings): (PushWorld, Moment) -> bool {
    (w: PushWorld, m: Moment) => UnconfirmedMoment(w.tables, m, k, cfg, w.clock)
  }

  ghost predicate UnconfirmedRun(w: PushWorld, moments: seq<Moment>, k: RowKey, cfg: Settings) {
    Allowed(NextPush(k, cfg), Unconfirmed(k, cfg), w, moments)
  }

  ghost function AfterPushes(w: PushWorld, moments: seq<Moment>, k: RowKey, cfg: Settings): PushWorld {
    RunFrom(NextPush(k, cfg), w, moments)
  }

  // ----- what one walk over the candidates does to the receipt ------------------------------------------------

  predicate LeavesReceipt(s: State, r: (State, Option<PacketId>), k: RowKey)
    requires k in s.receipts
  {
    k in r.0.receipts && r.0.receipts[k] == s.receipts[k] && !PushFor(r, k)
  }

  lemma LowestPartIsNoPush(s: State, f: RowKey, k: RowKey)
    requires f in s.deliveries && f.message in s.messages && k in s.receipts
    ensures LeavesReceipt(s, PrepareLowestPart(s, f), k)
  {
  }

  lemma DeliveryLeavesReceipt(s: State, f: RowKey, cfg: Settings, now: Time, k: RowKey)
    requires k in s.receipts
    ensures LeavesReceipt(s, PrepareDelivery(s, f, cfg, now), k)
  {
    if f in s.deliveries && f.message in s.messages && s.deliveries[f].state.Pending? {
      if PartsLeft(s.deliveries[f]) != {} {
        LowestPartIsNoPush(s, f, k);
      } else if s.deliveries[f].roundParts == {} {
        if s.deliveries[f].attemptCount >= s.deliveries[f].maximumAttempts {
          FailTouches(s, f);
        } else {
          LowestPartIsNoPush(UpdateDelivery(s, f, StartRound(s.deliveries[f], s.messages[f.message].Parts(), now)),
            f, k);
        }
      }
    }
  }

  lemma OtherReceiptLeavesReceipt(s: State, f: RowKey, now: Time, k: RowKey)
    requires k in s.receipts && (f != k || !s.receipts[k].state.ReceiptPending?)
    ensures LeavesReceipt(s, PrepareReceipt(s, f, now), k)
  {
  }

  lemma OtherLeavesReceipt(s: State, c: Candidate, cfg: Settings, now: Time, k: RowKey)
    requires k in s.receipts && (c != ReceiptCandidate(k) || !s.receipts[k].state.ReceiptPending?)
    ensures LeavesReceipt(s, PrepareCandidate(s, c, cfg, now), k)
  {
    match c
    case DeliveryCandidate(f) => DeliveryLeavesReceipt(s, f, cfg, now, k);
    case ReceiptCandidate(f) => OtherReceiptLeavesReceipt(s, f, now, k);
  }

  /** A receipt that is not pending, or that the walk does not come to, is left alone. */
  lemma {:induction false} WalkLeavesReceipt(s: State, cands: seq<Candidate>, cfg: Settings, now: Time, k: RowKey)
    requires k in s.receipts && (!WalkComesTo(s, cands, k, cfg, now) || !s.receipts[k].state.ReceiptPending?)
    ensures LeavesReceipt(s, PrepareNext(s, cands, cfg, now), k)
    decreases |cands|
  {
    if cands != [] {
      OtherLeavesReceipt(s, cands[0], cfg, now, k);
      var first := PrepareCandidate(s, cands[0], cfg, now);
      if first.1.None? {
        WalkLeavesReceipt(first.0, cands[1..], cfg, now, k);
      }
    }
  }

  /** The receipt is pushed in one more attempt, or fails with every attempt spent. */
  predicate PushedOrFailed(r: Receipt, out: (State, Option<PacketId>), k: RowKey, now: Time) {
    && k in out.0.receipts
    && if r.attemptCount < r.maximumAttempts
       then out.0.receipts[k] == StartAttempt(r, now) && PushFor(out, k)
            && out.0.packets[out.1.value] == ReceiptPacket(k, StartAttempt(r, now))
       else out.0.receipts[k] == r.(state := ReceiptFailed) && !PushFor(out, k)
  }

  lemma OwnVisit(s: State, k: RowKey, now: Time)
    requires k in s.receipts && s.receipts[k].state.ReceiptPending? && !s.receipts[k].roundPending
    ensures PushedOrFailed(s.receipts[k], PrepareReceipt(s, k, now), k, now)
    ensures PrepareReceipt(s, k, now).1.Some? <==> s.receipts[k].attemptCount < s.receipts[k].maximumAttempts
  {
  }

  lemma {:induction false} VisitPushesOrFails(s: State, cands: seq<Candidate>, cfg: Settings, now: Time, k: RowKey)
    requires k in s.receipts && s.receipts[k].state.ReceiptPending? && !s.receipts[k].roundPending
    requires WalkComesTo(s, cands, k, cfg, now)
    ensures PushedOrFailed(s.receipts[k], PrepareNext(s, cands, cfg, now), k, now)
    decreases |cands|
  {
    var first := PrepareCandidate(s, cands[0], cfg, now);
    if cands[0] == ReceiptCandidate(k) {
      OwnVisit(s, k, now);
      if first.1.None? {
        WalkLeavesReceipt(first.0, cands[1..], cfg, now, k);
      }
    } else {
      OtherLeavesReceipt(s, cands[0], cfg, now, k);
      VisitPushesOrFails(first.0, cands[1..], cfg, now, k);
    }
  }

  lemma {:induction false} ComeToIsListed(s: State, cands: seq<Candidate>, k: RowKey, cfg: Settings, now: Time)
    requires WalkComesTo(s, cands, k, cfg, now)
    ensures ReceiptCandidate(k) in cands
    decreases |cands|
  {
    if cands[0] != ReceiptCandidate(k) {
      ComeToIsListed(PrepareCandidate(s, cands[0], cfg, now).0, cands[1..], k, cfg, now);
    }
  }

  lemma ComeToIsDue(s: State, cands: seq<Candidate>, k: RowKey, cfg: Settings, now: Time)
    requires IsCandidateList(s, cands, cfg, now) && WalkComesTo(s, cands, k, cfg, now)
    ensures DueReceipt(s, k, now)
  {
    ComeToIsListed(s, cands, k, cfg, now);
    assert IsDue(s, ReceiptCandidate(k), cfg, now);
  }

  // ----- the receipt's own progress -------------------------------------------------------------------------

  /** Every push carries the target level under the next attempt number. */
  predicate Numbered(pushes: seq<Push>, level: nat) {
    forall i | 0 <= i < |pushes| :: pushes[i].level == level && pushes[i].attempt == i + 1
  }

  /** A push leaves no earlier than the one before's acknowledgement deadline and retry pause allow. */
  predicate PushInTime(before: Push, p: Push, index: nat, cfg: Settings) {
    before.recordedAt + Max(RetryPause(index, cfg), before.wait) <= p.preparedAt
  }

  predicate PacedPushes(pushes: seq<Push>, cfg: Settings) {
    forall i | 0 < i < |pushes| :: PushInTime(pushes[i - 1], pushes[i], i, cfg)
  }

  predicate DueAfterLast(r: Receipt, pushes: seq<Push>, cfg: Settings) {
    r.state.ReceiptPending? && pushes != [] ==>
      var last := pushes[|pushes| - 1];
      r.nextAttemptAt == Some(last.recordedAt + Max(RetryPause(|pushes|, cfg), last.wait))
  }

  /** The receipt between two moments: as many attempts as pushes, none under way. */
  predicate PushLedger(r: Receipt, level: nat, limit: nat, pushes: seq<Push>, cfg: Settings) {
    && r.targetLevel == level && r.maximumAttempts == limit && !r.roundPending
    && r.attemptCount == |pushes| <= limit
    && (r.state.ReceiptPending? || (r.state.ReceiptFailed? && |pushes| == limit))
    && Numbered(pushes, level) && PacedPushes(pushes, cfg) && DueAfterLast(r, pushes, cfg)
  }

  lemma PushKeepsLedger(r: Receipt, level: nat, limit: nat, pushes: seq<Push>, m: Moment, id: PacketId, cfg: Settings)
    requires m.SenderTurn? && PushLedger(r, level, limit, pushes, cfg) && r.state.ReceiptPending? && |pushes| < limit
    requires r.nextAttemptAt.Some? && r.nextAttemptAt.value <= m.preparedAt
    ensures
      var q := PushEnded(StartAttempt(r, m.preparedAt), m.outcome, cfg, m.recordedAt);
      var p := Push(id, level, |pushes| + 1, m.preparedAt, m.recordedAt,
        AcknowledgementWait(SuggestedBy(m.outcome), cfg));
      PushLedger(q, level, limit, pushes + [p], cfg)
  {
    var p := Push(id, level, |pushes| + 1, m.preparedAt, m.recordedAt,
      AcknowledgementWait(SuggestedBy(m.outcome), cfg));
    var all := pushes + [p];
    forall i | 0 < i < |all| ensures PushInTime(all[i - 1], all[i], i, cfg) {
      assert all[i - 1] == pushes[i - 1];
      assert i < |pushes| ==> PushInTime(pushes[i - 1], pushes[i], i, cfg);
    }
  }

  /** What a turn that pushes the receipt leaves of it. */
  lemma PushingTurn(s: State, m: Moment, k: RowKey, cfg: Settings)
    requires m.SenderTurn? && k in s.receipts && s.receipts[k].state.ReceiptPending?
    requires s.receipts[k].attemptCount < s.receipts[k].maximumAttempts && MayHaveGoneOut(m.outcome)
    requires PushedOrFailed(s.receipts[k], PrepareNext(s, m.candidates, cfg, m.preparedAt), k, m.preparedAt)
    ensures k in After(s, m, cfg).receipts
    ensures After(s, m, cfg).receipts[k] ==
      PushEnded(StartAttempt(s.receipts[k], m.preparedAt), m.outcome, cfg, m.recordedAt)
    ensures var r := PrepareNext(s, m.candidates, cfg, m.preparedAt);
      PushedBy(s, m, k, cfg) ==
        [Push(r.1.value, s.receipts[k].targetLevel, s.receipts[k].attemptCount + 1, m.preparedAt, m.recordedAt,
              AcknowledgementWait(SuggestedBy(m.outcome), cfg))]
  {
    var r := PrepareNext(s, m.candidates, cfg, m.preparedAt);
    OutcomeAtEveryReceipt(r.0, r.1.value, m.outcome, cfg, m.recordedAt, k);
  }

  /** A turn without a push of the receipt leaves it as the walk left it. */
  lemma PushlessTurn(s: State, m: Moment, k: RowKey, cfg: Settings)
    requires m.SenderTurn?
    requires var r := PrepareNext(s, m.candidates, cfg, m.preparedAt); k in r.0.receipts && !PushFor(r, k)
    ensures var r := PrepareNext(s, m.candidates, cfg, m.preparedAt);
      && k in After(s, m, cfg).receipts && After(s, m, cfg).receipts[k] == r.0.receipts[k]
      && PushedBy(s, m, k, cfg) == []
  {
    var r := PrepareNext(s, m.candidates, cfg, m.preparedAt);
    if r.1.Some? {
      OutcomeAtEveryReceipt(r.0, r.1.value, m.outcome, cfg, m.recordedAt, k);
    }
  }

  /** Every visit pushed the receipt, but the one that failed it. */
  predicate PushesCounted(r: Receipt, count: nat, visits: nat) {
    visits == count + (if r.state.ReceiptFailed? then 1 else 0)
  }

  ghost predicate Balanced(r: Receipt, level: nat, limit: nat, pushes: seq<Push>, visits: nat, cfg: Settings) {
    PushLedger(r, level, limit, pushes, cfg) && PushesCounted(r, |pushes|, visits)
  }

  lemma VisitKeepsBalance(s: State, m: Moment, k: RowKey, cfg: Settings, clock: Time, level: nat, limit: nat,
                          pushes: seq<Push>, visits: nat)
    requires m.SenderTurn? && UnconfirmedMoment(s, m, k, cfg, clock) && ComesTo(s, m, k, cfg)
    requires k in s.receipts && Balanced(s.receipts[k], level, limit, pushes, visits, cfg)
    ensures k in After(s, m, cfg).receipts
    ensures Balanced(After(s, m, cfg).receipts[k], level, limit, pushes + PushedBy(s, m, k, cfg), visits + 1, cfg)
  {
    var r := s.receipts[k];
    ComeToIsDue(s, m.candidates, k, cfg, m.preparedAt);
    VisitPushesOrFails(s, m.candidates, cfg, m.preparedAt, k);
    if r.attemptCount < r.maximumAttempts {
      PushingTurn(s, m, k, cfg);
      PushKeepsLedger(r, level, limit, pushes, m, PrepareNext(s, m.candidates, cfg, m.preparedAt).1.value, cfg);
    } else {
      PushlessTurn(s, m, k, cfg);
      assert pushes + [] == pushes;
    }
  }

  lemma TurnKeepsBalance(s: State, m: Moment, k: RowKey, cfg: Settings, clock: Time, level: nat, limit: nat,
                         pushes: seq<Push>, visits: nat)
    requires m.SenderTurn? && UnconfirmedMoment(s, m, k, cfg, clock)
    requires k in s.receipts && Balanced(s.receipts[k], level, limit, pushes, visits, cfg)
    ensures k in After(s, m, cfg).receipts
    ensures Balanced(After(s, m, cfg).receipts[k], level, limit, pushes + PushedBy(s, m, k, cfg),
      if ComesTo(s, m, k, cfg) then visits + 1 else visits, cfg)
  {
    if ComesTo(s, m, k, cfg) {
      VisitKeepsBalance(s, m, k, cfg, clock, level, limit, pushes, visits);
    } else {
      WalkLeavesReceipt(s, m.candidates, cfg, m.preparedAt, k);
      PushlessTurn(s, m, k, cfg);
      assert pushes + [] == pushes;
    }
  }

  // ----- the packet table -------------------------------------------------------------------------------------

  /** The packets that pushed the receipt in the arm it is in. */
  function ArmPushes(s: State, k: RowKey): set<PacketId> {
    set id | id in s.packets && IsArmPush(s, k, id)
  }

  predicate IsArmPush(s: State, k: RowKey, id: PacketId) {
    && id in s.packets && k in s.receipts
    && s.packets[id].row == k && s.packets[id].purpose.ReceiptPush?
    && s.packets[id].armGeneration == s.receipts[k].armGeneration
  }

  function PushIds(pushes: seq<Push>): seq<PacketId> {
    seq(|pushes|, i requires 0 <= i < |pushes| => pushes[i].id)
  }

  lemma SamePushes(s: State, t: State, k: RowKey)
    requires SamePackets(s, t) && k in s.receipts && k in t.receipts
    requires t.receipts[k].armGeneration == s.receipts[k].armGeneration
    ensures ArmPushes(t, k) == ArmPushes(s, k)
  {
    forall id ensures IsArmPush(t, k, id) <==> IsArmPush(s, k, id) {
      assert id in s.packets ==> PacketEvolves(s.packets[id], t.packets[id]);
    }
  }

  lemma WalkPushes(s: State, r: (State, Option<PacketId>), k: RowKey)
    requires Inserts(s, r) && PacketsOk(s) && k in s.receipts && k in r.0.receipts
    requires r.0.receipts[k].armGeneration == s.receipts[k].armGeneration
    requires PushFor(r, k) ==> r.0.packets[r.1.value].armGeneration == s.receipts[k].armGeneration
    ensures ArmPushes(r.0, k) == ArmPushes(s, k) + (if PushFor(r, k) then {s.nextPacketId} else {})
  {
    forall id ensures id in ArmPushes(r.0, k) <==> id in ArmPushes(s, k) || (PushFor(r, k) && id == s.nextPacketId) {
    }
  }

  lemma WalkKeepsPushList(s: State, m: Moment, k: RowKey, cfg: Settings, pushes: seq<Push>)
    requires m.SenderTurn? && PacketsOk(s) && k in s.receipts && ListsExactly(PushIds(pushes), ArmPushes(s, k))
    requires var r := PrepareNext(s, m.candidates, cfg, m.preparedAt);
      && k in r.0.receipts && r.0.receipts[k].armGeneration == s.receipts[k].armGeneration
      && (PushFor(r, k) ==> r.0.packets[r.1.value].armGeneration == s.receipts[k].armGeneration)
    ensures ListsExactly(PushIds(pushes + PushedBy(s, m, k, cfg)),
      ArmPushes(PrepareNext(s, m.candidates, cfg, m.preparedAt).0, k))
  {
    var r := PrepareNext(s, m.candidates, cfg, m.preparedAt);
    PrepareInserts(s, m.candidates, cfg, m.preparedAt);
    WalkPushes(s, r, k);
    if PushFor(r, k) {
      forall id | id in ArmPushes(s, k) ensures id < s.nextPacketId {
      }
      ListsOneMore(PushIds(pushes), ArmPushes(s, k), s.nextPacketId);
      assert PushIds(pushes + PushedBy(s, m, k, cfg)) == PushIds(pushes) + [s.nextPacketId];
    } else {
      assert pushes + PushedBy(s, m, k, cfg) == pushes;
      assert ArmPushes(r.0, k) == ArmPushes(s, k);
    }
  }

  lemma OutcomeKeepsPushes(r: (State, Option<PacketId>), outcome: SendOutcome, cfg: Settings, clock: Time, now: Time,
                           k: RowKey)
    requires Inv(r.0, clock) && clock <= now && k in r.0.receipts
    ensures var t := if r.1.None? then r.0 else RecordOutcome(r.0, r.1.value, outcome, cfg, now);
      ArmPushes(t, k) == ArmPushes(r.0, k)
  {
    if r.1.Some? {
      var t := RecordOutcome(r.0, r.1.value, outcome, cfg, now);
      OutcomeKeepsInv(r.0, r.1.value, outcome, cfg, clock, now);
      OutcomeKeepsIds(r.0, r.1.value, outcome, cfg, now);
      OutcomeAtEveryReceipt(r.0, r.1.value, outcome, cfg, now, k);
      SamePushes(r.0, t, k);
    }
  }

  /** After the walk the receipt is in the same arm, and so is its packet if it got one. */
  lemma WalkKeepsArm(s: State, m: Moment, k: RowKey, cfg: Settings, clock: Time, level: nat, limit: nat,
                     pushes: seq<Push>)
    requires m.SenderTurn? && UnconfirmedMoment(s, m, k, cfg, clock)
    requires k in s.receipts && PushLedger(s.receipts[k], level, limit, pushes, cfg)
    ensures var r := PrepareNext(s, m.candidates, cfg, m.preparedAt);
      && k in r.0.receipts && r.0.receipts[k].armGeneration == s.receipts[k].armGeneration
      && (PushFor(r, k) ==> r.0.packets[r.1.value].armGeneration == s.receipts[k].armGeneration)
  {
    if ComesTo(s, m, k, cfg) {
      ComeToIsDue(s, m.candidates, k, cfg, m.preparedAt);
      VisitPushesOrFails(s, m.candidates, cfg, m.preparedAt, k);
    } else {
      WalkLeavesReceipt(s, m.candidates, cfg, m.preparedAt, k);
    }
  }

  lemma TurnKeepsPushList(s: State, m: Moment, k: RowKey, cfg: Settings, clock: Time, level: nat, limit: nat,
                          pushes: seq<Push>)
    requires Inv(s, clock) && m.SenderTurn? && UnconfirmedMoment(s, m, k, cfg, clock)
    requires k in s.receipts && PushLedger(s.receipts[k], level, limit, pushes, cfg)
    requires ListsExactly(PushIds(pushes), ArmPushes(s, k))
    ensures ListsExactly(PushIds(pushes + PushedBy(s, m, k, cfg)), ArmPushes(After(s, m, cfg), k))
  {
    WalkKeepsArm(s, m, k, cfg, clock, level, limit, pushes);
    WalkKeepsPushList(s, m, k, cfg, pushes);
    SenderStepKeepsInv(s, m.candidates, cfg, clock, m.preparedAt);
    OutcomeKeepsPushes(PrepareNext(s, m.candidates, cfg, m.preparedAt), m.outcome, cfg, m.preparedAt, m.recordedAt, k);
  }

  // ----- a whole run --------------------------------------------------------------------------------------------

  ghost predicate PushesInOrder(w: PushWorld, k: RowKey, level: nat, limit: nat, cfg: Settings) {
    && Inv(w.tables, w.clock)
    && k in w.tables.receipts
    && Balanced(w.tables.receipts[k], level, limit, w.pushes, w.visits, cfg)
    && ListsExactly(PushIds(w.pushes), ArmPushes(w.tables, k))
  }

  lemma TurnLeavesInv(s: State, m: Moment, cfg: Settings, clock: Time)
    requires Inv(s, clock) && m.SenderTurn? && clock <= m.preparedAt <= m.recordedAt
    ensures Inv(After(s, m, cfg), m.recordedAt)
  {
    SenderStepKeepsInv(s, m.candidates, cfg, clock, m.preparedAt);
    var r := PrepareNext(s, m.candidates, cfg, m.preparedAt);
    if r.1.Some? {
      OutcomeKeepsInv(r.0, r.1.value, m.outcome, cfg, m.preparedAt, m.recordedAt);
    } else {
      ClockKeepsInv(r.0, m.preparedAt, m.recordedAt);
    }
  }

  lemma ElsewhereKeepsPushes(s: State, step: Step, cfg: Settings, clock: Time, at: Time, k: RowKey)
    requires Inv(s, clock) && clock <= at && cfg.Valid() && Enabled(s, step, cfg, at) && !step.PacketPrepared?
    requires k in s.receipts && k in Apply(s, step, cfg, at).receipts
    requires Apply(s, step, cfg, at).receipts[k] == s.receipts[k]
    ensures Inv(Apply(s, step, cfg, at), at) && ArmPushes(Apply(s, step, cfg, at), k) == ArmPushes(s, k)
  {
    StepKeepsInv(s, step, cfg, clock, at);
    OtherStepsKeepPacketTable(s, step, cfg, clock, at);
    SamePushes(s, Apply(s, step, cfg, at), k);
  }

  lemma TurnKeepsPushes(w: PushWorld, m: Moment, k: RowKey, level: nat, limit: nat, cfg: Settings)
    requires PushesInOrder(w, k, level, limit, cfg) && m.SenderTurn? && UnconfirmedMoment(w.tables, m, k, cfg, w.clock)
    ensures PushesInOrder(NextPush(k, cfg)(w, m), k, level, limit, cfg)
  {
    TurnLeavesInv(w.tables, m, cfg, w.clock);
    TurnKeepsBalance(w.tables, m, k, cfg, w.clock, level, limit, w.pushes, w.visits);
    TurnKeepsPushList(w.tables, m, k, cfg, w.clock, level, limit, w.pushes);
  }

  lemma ElsewhereWorld(w: PushWorld, m: Moment, k: RowKey, cfg: Settings)
    requires m.Elsewhere?
    ensures NextPush(k, cfg)(w, m) == PushWorld(Apply(w.tables, m.step, cfg, m.at), m.at, w.pushes, w.visits)
  {
    assert w.pushes + PushedBy(w.tables, m, k, cfg) == w.pushes;
  }

  lemma SameReceiptKeepsOrder(w: PushWorld, v: PushWorld, k: RowKey, level: nat, limit: nat, cfg: Settings)
    requires PushesInOrder(w, k, level, limit, cfg) && Inv(v.tables, v.clock)
    requires k in v.tables.receipts && v.tables.receipts[k] == w.tables.receipts[k]
    requires v.pushes == w.pushes && v.visits == w.visits && ArmPushes(v.tables, k) == ArmPushes(w.tables, k)
    ensures PushesInOrder(v, k, level, limit, cfg)
  {
  }

  lemma ElsewhereKeepsOrder(w: PushWorld, m: Moment, k: RowKey, level: nat, limit: nat, cfg: Settings)
    requires PushesInOrder(w, k, level, limit, cfg) && cfg.Valid() && m.Elsewhere?
    requires UnconfirmedMoment(w.tables, m, k, cfg, w.clock)
    ensures PushesInOrder(NextPush(k, cfg)(w, m), k, level, limit, cfg)
  {
    ElsewhereKeepsPushes(w.tables, m.step, cfg, w.clock, m.at, k);
    ElsewhereWorld(w, m, k, cfg);
    SameReceiptKeepsOrder(w, NextPush(k, cfg)(w, m), k, level, limit, cfg);
  }

  lemma MomentKeepsPushes(w: PushWorld, m: Moment, k: RowKey, level: nat, limit: nat, cfg: Settings)
    requires PushesInOrder(w, k, level, limit, cfg) && cfg.Valid() && UnconfirmedMoment(w.tables, m, k, cfg, w.clock)
    ensures PushesInOrder(NextPush(k, cfg)(w, m), k, level, limit, cfg)
  {
    if m.SenderTurn? {
      TurnKeepsPushes(w, m, k, level, limit, cfg);
    } else {
      ElsewhereKeepsOrder(w, m, k, level, limit, cfg);
    }
  }

  lemma RunKeepsPushes(w: PushWorld, moments: seq<Moment>, k: RowKey, level: nat, limit: nat, cfg: Settings)
    requires PushesInOrder(w, k, level, limit, cfg) && cfg.Valid() && UnconfirmedRun(w, moments, k, cfg)
    ensures PushesInOrder(AfterPushes(w, moments, k, cfg), k, level, limit, cfg)
  {
    var inv := (x: PushWorld) => PushesInOrder(x, k, level, limit, cfg);
    forall x: PushWorld, m: Moment | inv(x) && Unconfirmed(k, cfg)(x, m) ensures inv(NextPush(k, cfg)(x, m)) {
      MomentKeepsPushes(x, m, k, level, limit, cfg);
    }
    KeptByRun(NextPush(k, cfg), Unconfirmed(k, cfg), inv, w, moments);
  }

  /** A pending receipt before its first attempt in this arm. */
  predicate IsFreshReceipt(s: State, k: RowKey) {
    k in s.receipts && s.receipts[k].state.ReceiptPending? && s.receipts[k].attemptCount == 0
  }

  lemma FreshReceiptInOrder(s: State, k: RowKey, cfg: Settings, clock: Time)
    requires Inv(s, clock) && IsFreshReceipt(s, k)
    ensures PushesInOrder(PushWorld(s, clock, [], 0), k, s.receipts[k].targetLevel, s.receipts[k].maximumAttempts, cfg)
  {
    assert ReceiptOk(s.receipts[k], s.messages[k.message].Level());
    forall id ensures !IsArmPush(s, k, id) {
      assert id in s.packets ==> PacketOk(s, s.packets[id]);
    }
    assert ArmPushes(s, k) == {};
    assert PushIds([]) == [];
  }

  /**
   An unconfirmed receipt costs exactly maximum attempts packets. Over every run, each visit of the
   sender loop to a fresh receipt adds one packet to the table, with the target level and the next
   attempt number, after the previous one's acknowledgement deadline and retry pause; once every
   attempt is spent the next visit fails it, and no other does.
   */
  lemma UnconfirmedReceiptCost(s: State, moments: seq<Moment>, k: RowKey, cfg: Settings, clock: Time)
    requires Inv(s, clock) && cfg.Valid() && IsFreshReceipt(s, k)
    requires UnconfirmedRun(PushWorld(s, clock, [], 0), moments, k, cfg)
    ensures
      var w := AfterPushes(PushWorld(s, clock, [], 0), moments, k, cfg);
      var limit := s.receipts[k].maximumAttempts;
      && k in w.tables.receipts
      && |w.pushes| == (if w.visits <= limit then w.visits else limit) && w.visits <= limit + 1
      && |ArmPushes(w.tables, k)| == |w.pushes|
      && w.tables.receipts[k].state == (if w.visits <= limit then ReceiptPending else ReceiptFailed)
      && Numbered(w.pushes, s.receipts[k].targetLevel) && PacedPushes(w.pushes, cfg)
  {
    FreshReceiptInOrder(s, k, cfg, clock);
    RunKeepsPushes(PushWorld(s, clock, [], 0), moments, k, s.receipts[k].targetLevel, s.receipts[k].maximumAttempts,
      cfg);
    var w := AfterPushes(PushWorld(s, clock, [], 0), moments, k, cfg);
    ListCounts(PushIds(w.pushes), ArmPushes(w.tables, k));
  }
}
