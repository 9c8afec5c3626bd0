/** The state machine of one receipt row: two levels that only grow, confirmed exactly when they meet. */
module ReceiptRows {
  import opened Options
  import opened Times
  import opened RetrySchedule
  import opened Tables

  const DELIVERED_LEVEL: nat := 1
  const READ_LEVEL: nat := 2

  function NewReceipt(level: nat, cfg: Settings, now: Time): Receipt {
    var due := if level == DELIVERED_LEVEL then now + cfg.deliveredReceiptDelay else now;
    Receipt(ReceiptPending, level, 0, 0, cfg.maximumAttempts, 1, false, Some(due), None, None)
  }

  /** A new arm: no attempt made, due now. */
  function Rearm(r: Receipt, cfg: Settings, now: Time): Receipt {
    r.(state := ReceiptPending, attemptCount := 0, armGeneration := r.armGeneration + 1, roundPending := false,
       maximumAttempts := cfg.maximumAttempts, nextAttemptAt := Some(now))
  }

  function RaiseToRead(r: Receipt, cfg: Settings, now: Time): Receipt {
    if r.confirmedLevel == READ_LEVEL then r else Rearm(r, cfg, now).(targetLevel := READ_LEVEL)
  }

  function StartAttempt(r: Receipt, now: Time): Receipt {
    if !r.state.ReceiptPending? then r else
      r.(attemptCount := r.attemptCount + 1, roundPending := true, roundStartedAt := Some(now))
  }

  function ReceiptSent(r: Receipt, suggestion: Option<nat>, cfg: Settings, now: Time): Receipt {
    if !r.state.ReceiptPending? then r else
      r.(lastSentAt := Some(now), roundPending := false,
         nextAttemptAt :=
           Some(RoundCompletionDueTime(r.attemptCount, r.roundStartedAt, Some(now), suggestion, cfg, now)))
  }

  /** The confirmed level only rises, never above the target; meeting it confirms the receipt. */
  function Confirm(r: Receipt, level: nat): Receipt {
    var capped := if level < r.targetLevel then level else r.targetLevel;
    if capped <= r.confirmedLevel || !(r.state.ReceiptPending? || r.state.ReceiptFailed?) then r else
      r.(confirmedLevel := capped, state := if capped == r.targetLevel then Confirmed else r.state)
  }

  function FailReceipt(r: Receipt): Receipt {
    if r.state.ReceiptPending? then r.(state := ReceiptFailed) else r
  }

  /** A refresh restarts an unconfirmed receipt; a cancelled one is revived at the message's level. */
  function RearmForRefresh(r: Receipt, messageLevel: nat, cfg: Settings, now: Time): Receipt {
    match r.state
    case Confirmed => r
    case ReceiptCancelled =>
      var target := if r.targetLevel < messageLevel then messageLevel else r.targetLevel;
      if r.confirmedLevel == target
      then r.(state := Confirmed, targetLevel := target)
      else Rearm(r, cfg, now).(targetLevel := target)
    case _ => Rearm(r, cfg, now)
  }

  /** Everything is cancelled but a receipt whose read was confirmed. */
  function CancelReceiptForRelink(r: Receipt): Receipt {
    if r.state.ReceiptCancelled? || (r.state.Confirmed? && r.confirmedLevel == READ_LEVEL) then r
    else r.(state := ReceiptCancelled)
  }
}
