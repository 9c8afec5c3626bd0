/** The sender loop sends what is due longest first. */
module WorkOrder {
  import opened Options
  import opened Times
  import opened RetrySchedule
  import opened Tables
  import opened DeliveryRows
  import opened Transitions
  import opened Invariants
  import opened StepProofs
  import opened RowEffects
  import opened Scheduling
  import opened SilentDelivery
  import opened SilentReceipts
  import opened DueWork

  /** A due row with something to send: a round or attempt under way, or an attempt left. */
  predicate HasWork(s: State, c: Candidate, cfg: Settings, now: Time) {
    && IsDue(s, c, cfg, now)
    && match c
       case DeliveryCandidate(k) =>
         s.deliveries[k].roundParts != {} || s.deliveries[k].attemptCount < s.deliveries[k].maximumAttempts
       case ReceiptCandidate(k) =>
         s.receipts[k].roundPending || s.receipts[k].attemptCount < s.receipts[k].maximumAttempts
  }

  lemma WorkYieldsPacket(s: State, c: Candidate, cfg: Settings, now: Time)
    requires Inv(s, now) && HasWork(s, c, cfg, now)
    ensures PrepareCandidate(s, c, cfg, now).1.Some?
  {
    if c.DeliveryCandidate? {
      var k := c.key;
      assert RowLinksOk(s, k);
      NothingLeftMeansRoundOver(s, k);
      if PartsLeft(s.deliveries[k]) != {} {
        LowestPartYields(s, k, now);
      } else {
        StartedRoundYields(s, k, now);
      }
    }
  }

  /** A candidate without a packet leaves another one's work as it is. */
  lemma WorkStays(s: State, c: Candidate, cfg: Settings, now: Time, other: Candidate)
    requires Inv(s, now) && HasWork(s, c, cfg, now) && other != c && PrepareCandidate(s, other, cfg, now).1.None?
    ensures HasWork(PrepareCandidate(s, other, cfg, now).0, c, cfg, now)
  {
    CandidateTouches(s, other, cfg, now);
    match c
    case DeliveryCandidate(k) =>
      DueStays(s, other, cfg, now, k);
      OtherCandidateLeavesRow(s, other, cfg, now, k);
    case ReceiptCandidate(k) => OtherLeavesReceipt(s, other, cfg, now, k);
  }

  // ----- the order of the list ------------------------------------------------------------------------

  /** Due earlier, or at the same time without being a receipt before a delivery. */
  predicate GoesBefore(s: State, a: Candidate, b: Candidate) {
    || DueTime(s, a) < DueTime(s, b)
    || (DueTime(s, a) == DueTime(s, b) && (b.DeliveryCandidate? ==> a.DeliveryCandidate?))
  }

  /** Everything after the first candidate goes after it, and so on. */
  predicate IsOrdered(s: State, cands: seq<Candidate>)
    decreases |cands|
  {
    cands == []
    || ((forall c | c in cands[1..] :: c != cands[0] && GoesBefore(s, cands[0], c)) && IsOrdered(s, cands[1..]))
  }

  lemma {:induction false} ListIsOrdered(s: State, cands: seq<Candidate>)
    requires forall i, j | 0 <= i < j < |cands| :: cands[i] != cands[j] && GoesBefore(s, cands[i], cands[j])
    ensures IsOrdered(s, cands)
    decreases |cands|
  {
    if cands != [] {
      forall c | c in cands[1..] ensures c != cands[0] && GoesBefore(s, cands[0], c) {
        var j :| 0 < j < |cands| && cands[j] == c;
      }
      ListIsOrdered(s, cands[1..]);
    }
  }

  lemma FirstPacket(s: State, cands: seq<Candidate>, cfg: Settings, now: Time)
    requires cands != [] && PrepareCandidate(s, cands[0], cfg, now).1.Some?
    ensures IsFor(PrepareNext(s, cands, cfg, now), cands[0])
  {
    CandidatePacketIsFor(s, cands[0], cfg, now);
  }

  /** Without a packet for the first candidate, the walk goes on in tables in order. */
  lemma WalkGoesOn(s: State, first: Candidate, cfg: Settings, now: Time, c: Candidate)
    requires Inv(s, now) && cfg.Valid() && HasWork(s, c, cfg, now) && PrepareCandidate(s, first, cfg, now).1.None?
    ensures var t := PrepareCandidate(s, first, cfg, now).0;
      c != first && Inv(t, now) && HasWork(t, c, cfg, now)
  {
    if c == first {
      WorkYieldsPacket(s, c, cfg, now);
    } else {
      WorkStays(s, c, cfg, now, first);
      PrepareCandidateKeepsInv(s, first, cfg, now);
    }
  }

  /** The walk yields a packet, for a candidate with work or for one that goes before it. */
  lemma {:induction false} WalkStopsBy(start: State, s: State, cands: seq<Candidate>, cfg: Settings, now: Time,
                                       c: Candidate) returns (sent: Candidate)
    requires Inv(s, now) && cfg.Valid() && IsOrdered(start, cands) && c in cands && HasWork(s, c, cfg, now)
    ensures IsFor(PrepareNext(s, cands, cfg, now), sent) && (sent == c || GoesBefore(start, sent, c))
    decreases |cands|
  {
    if PrepareCandidate(s, cands[0], cfg, now).1.Some? {
      sent := cands[0];
      FirstPacket(s, cands, cfg, now);
    } else {
      WalkGoesOn(s, cands[0], cfg, now, c);
      sent := WalkStopsBy(start, PrepareCandidate(s, cands[0], cfg, now).0, cands[1..], cfg, now, c);
    }
  }

  /** The candidate a packet was prepared for. */
  function CandidateOf(p: Packet): Candidate {
    if p.purpose.DeliveryPart? then DeliveryCandidate(p.row) else ReceiptCandidate(p.row)
  }

  /**
   With work listed, a packet is prepared, and for a row that is due no later than any listed row
   with work; a part goes before a receipt that is due at the same time.
   */
  lemma EarliestWorkGoesFirst(s: State, cands: seq<Candidate>, cfg: Settings, now: Time, c: Candidate)
    requires Inv(s, now) && cfg.Valid() && IsCandidateList(s, cands, cfg, now) && c in cands && HasWork(s, c, cfg, now)
    ensures var r := PrepareNext(s, cands, cfg, now);
      && r.1.Some? && r.1.value in r.0.packets
      && var sent := CandidateOf(r.0.packets[r.1.value]);
      && DueTime(s, sent) <= DueTime(s, c)
      && (DueTime(s, sent) == DueTime(s, c) && c.DeliveryCandidate? ==> sent.DeliveryCandidate?)
  {
    ListIsOrdered(s, cands);
    var sent := WalkStopsBy(s, s, cands, cfg, now, c);
  }
}
