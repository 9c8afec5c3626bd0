/**
 Pauses between attempts and waits for firmware acknowledgements, as functions of the operator's
 settings. Pauses are real seconds.
 */
module RetrySchedule {
  import opened Options
  import opened Times

  /** The retry strategy, the per-device limit and the engine's timing floors, as one configuration. */
  datatype Settings = Settings(
    maximumAttempts: nat,
    initialPause: real,
    multiplier: real,
    maximumPause: real,
    deliveredReceiptDelay: real,
    activeLimit: nat,
    minimumAcknowledgementWait: real,
    maximumAcknowledgementWait: real,
    unknownAcknowledgementWait: real,
    missingPartsDelay: real)
  {
    /** What start-up validation of the configuration guarantees, and the fixed timing values keep. */
    predicate Valid() {
      && 1 <= maximumAttempts
      && 0.0 < initialPause <= maximumPause
      && 1.0 <= multiplier
      && 0.0 <= deliveredReceiptDelay
      && 1 <= activeLimit
      && 0.0 < minimumAcknowledgementWait <= maximumAcknowledgementWait
      && 0.0 < unknownAcknowledgementWait
      && 0.0 < missingPartsDelay
    }
  }

  function Max(a: real, b: real): real { if a < b then b else a }
  function Min(a: real, b: real): real { if b < a then b else a }

  function Power(base: real, exponent: nat): real {
    if exponent == 0 then 1.0 else base * Power(base, exponent - 1)
  }

  function UncappedPause(exponent: nat, cfg: Settings): real {
    cfg.initialPause * Power(cfg.multiplier, exponent)
  }

  /** Grows geometrically with the attempt, from the initial pause up to the maximum. */
  function RetryPause(attempt: nat, cfg: Settings): real {
    var exponent := if attempt < 1 then 0 else attempt - 1;
    Min(UncappedPause(exponent, cfg), cfg.maximumPause)
  }

  /** 1.2 times what the node suggested, within bounds; a fixed wait without a suggestion. */
  function AcknowledgementWait(suggestedMilliseconds: Option<nat>, cfg: Settings): real {
    match suggestedMilliseconds
    case None => cfg.unknownAcknowledgementWait
    case Some(ms) =>
      Min(Max(ms as real / 1000.0 * 1.2, cfg.minimumAcknowledgementWait), cfg.maximumAcknowledgementWait)
  }

  /** When the next round is due once this one is empty. */
  function RoundCompletionDueTime(attempt: nat, roundStartedAt: Option<Time>, lastSentAt: Option<Time>,
                                  lastSuggestion: Option<nat>, cfg: Settings, now: Time): Time
  {
    var sentInThisRound := lastSentAt.Some? && roundStartedAt.Some? && roundStartedAt.value <= lastSentAt.value;
    var baseTime := if sentInThisRound then lastSentAt.value else now;
    baseTime + Max(RetryPause(attempt, cfg), AcknowledgementWait(lastSuggestion, cfg))
  }

  lemma {:induction false} PowerGrows(base: real, exponent: nat)
    requires 1.0 <= base
    ensures 1.0 <= Power(base, exponent) <= Power(base, exponent + 1)
  {
    if exponent == 0 {
    } else {
      PowerGrows(base, exponent - 1);
      var p := Power(base, exponent - 1);
      assert Power(base, exponent) == base * p && Power(base, exponent + 1) == base * (base * p);
      assert 0.0 <= (base - 1.0) * (base * p);
    }
  }

  /** Pauses never shrink from one attempt to the next and stay between the initial and the maximum pause. */
  lemma PausesGrow(attempt: nat, later: nat, cfg: Settings)
    requires cfg.Valid() && attempt <= later
    ensures cfg.initialPause <= RetryPause(attempt, cfg) <= RetryPause(later, cfg) <= cfg.maximumPause
  {
    var e := if attempt < 1 then 0 else attempt - 1;
    var f := if later < 1 then 0 else later - 1;
    UncappedPausesGrow(e, f, cfg);
  }

  lemma UncappedPausesGrow(e: nat, f: nat, cfg: Settings)
    requires cfg.Valid() && e <= f
    ensures cfg.initialPause <= UncappedPause(e, cfg) <= UncappedPause(f, cfg)
  {
    PowerMonotone(cfg.multiplier, e, f);
    PowerGrows(cfg.multiplier, e);
    ScaleTwice(cfg.initialPause, Power(cfg.multiplier, e), Power(cfg.multiplier, f));
  }

  lemma ScaleTwice(a: real, p: real, q: real)
    requires 0.0 < a && 1.0 <= p <= q
    ensures a <= a * p <= a * q
  {
    Scale(a, 1.0, p);
    Scale(a, p, q);
  }

  lemma Scale(a: real, p: real, q: real)
    requires 0.0 < a && p <= q
    ensures a * p <= a * q
  {
  }

  lemma {:induction false} PowerMonotone(base: real, e: nat, f: nat)
    requires 1.0 <= base && e <= f
    ensures Power(base, e) <= Power(base, f)
    decreases f
  {
    if e < f {
      PowerMonotone(base, e, f - 1);
      PowerGrows(base, f - 1);
    }
  }

  /** A round completed by its last send is never due before that packet's acknowledgement deadline. */
  lemma DueAfterAcknowledgementDeadline(attempt: nat, roundStartedAt: Time, now: Time, suggestion: Option<nat>,
                                        cfg: Settings)
    requires cfg.Valid() && roundStartedAt <= now
    ensures
      var due := RoundCompletionDueTime(attempt, Some(roundStartedAt), Some(now), suggestion, cfg, now);
      && now + AcknowledgementWait(suggestion, cfg) <= due
      && now + RetryPause(attempt, cfg) <= due
      && now < due
  {
    PausesGrow(attempt, attempt, cfg);
  }

  /**
   The first pause is the initial one, and each later pause is the previous one times the
   multiplier, up to the maximum.
   */
  lemma PausesMultiply(attempt: nat, cfg: Settings)
    requires cfg.Valid() && 1 <= attempt
    ensures RetryPause(1, cfg) == cfg.initialPause
    ensures RetryPause(attempt + 1, cfg) == Min(cfg.multiplier * RetryPause(attempt, cfg), cfg.maximumPause)
  {
    var u := UncappedPause(attempt - 1, cfg);
    UncappedStep(attempt - 1, cfg);
    UncappedPausesGrow(attempt - 1, attempt, cfg);
    if u > cfg.maximumPause {
      Scale(cfg.maximumPause, 1.0, cfg.multiplier);
    }
  }

  lemma UncappedStep(exponent: nat, cfg: Settings)
    ensures UncappedPause(0, cfg) == cfg.initialPause
    ensures UncappedPause(exponent + 1, cfg) == cfg.multiplier * UncappedPause(exponent, cfg)
  {
    var a, m, p := cfg.initialPause, cfg.multiplier, Power(cfg.multiplier, exponent);
    assert a * (m * p) == m * (a * p);
  }

  /**
   A known suggestion is stretched by a fifth and kept between the two bounds; an unknown one waits
   the fixed time.
   */
  lemma WaitIsClamped(ms: nat, cfg: Settings)
    requires cfg.Valid()
    ensures cfg.minimumAcknowledgementWait <= AcknowledgementWait(Some(ms), cfg) <= cfg.maximumAcknowledgementWait
    ensures cfg.minimumAcknowledgementWait <= ms as real / 1000.0 * 1.2 <= cfg.maximumAcknowledgementWait ==>
      AcknowledgementWait(Some(ms), cfg) == ms as real / 1000.0 * 1.2
    ensures AcknowledgementWait(None, cfg) == cfg.unknownAcknowledgementWait
  {
  }
}
