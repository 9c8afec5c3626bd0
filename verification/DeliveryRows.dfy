/**
 The state machine of one delivery row. Every transition starts from the states the relay names
 and leaves the row alone from any other.
 */
module DeliveryRows {
  import opened Options
  import opened Times
  import opened RetrySchedule
  import opened Tables

  function NewPending(cfg: Settings, now: Time): Delivery {
    Delivery(Pending, None, 0, cfg.maximumAttempts, 1, Some(now), {}, {}, None, None)
  }

  function NewQueued(session: SessionId, cfg: Settings): Delivery {
    Delivery(Queued, Some(session), 0, cfg.maximumAttempts, 1, None, {}, {}, None, None)
  }

  /** Counts an attempt; the new round holds whatever is still missing on the device. */
  function StartRound(d: Delivery, parts: set<nat>, now: Time): Delivery {
    if !d.state.Pending? then d else
      d.(attemptCount := d.attemptCount + 1, roundStartedAt := Some(now), roundParts := parts - d.receivedParts)
  }

  function CompleteRound(d: Delivery, lastSuggestion: Option<nat>, cfg: Settings, now: Time): Delivery {
    if !d.state.Pending? then d else
      d.(roundParts := {},
         nextAttemptAt :=
           Some(RoundCompletionDueTime(d.attemptCount, d.roundStartedAt, d.lastSentAt, lastSuggestion, cfg, now)))
  }

  /** A send that counts takes its part out of the round; an emptied round sets the next due time. */
  function PartSent(d: Delivery, part: nat, suggestion: Option<nat>, cfg: Settings, now: Time): Delivery {
    if !d.state.Pending? then d else
      var sent := d.(roundParts := d.roundParts - {part}, lastSentAt := Some(now));
      if d.roundParts != {} && sent.roundParts == {} then CompleteRound(sent, suggestion, cfg, now) else sent
  }

  function BringNextRoundForward(d: Delivery, cfg: Settings, now: Time): Delivery {
    var soon := now + cfg.missingPartsDelay;
    if d.state.Pending? && (d.nextAttemptAt.None? || d.nextAttemptAt.value > soon)
      then d.(nextAttemptAt := Some(soon)) else d
  }

  /** An incomplete report becomes the received set, and a round under way loses what was reported. */
  function IncompleteStatus(d: Delivery, received: set<nat>, lastSuggestion: Option<nat>, cfg: Settings,
                            now: Time): Delivery {
    match d.state
    case Pending =>
      var noted := d.(receivedParts := received, roundParts := d.roundParts - received);
      var closed := if d.roundParts != {}
        && noted.roundParts == {} then CompleteRound(noted, lastSuggestion, cfg, now) else noted;
      if closed.roundParts == {} && closed.attemptCount < closed.maximumAttempts
      then BringNextRoundForward(closed, cfg, now)
      else closed
    case Queued | Failed => d.(receivedParts := received)
    case _ => d
  }

  /** From every live state; a read leaves the received set as it was. */
  function MarkDelivered(d: Delivery, received: Option<set<nat>>): Delivery {
    if !d.Live() then d else
      d.(state := Delivered, receivedParts := if received.Some? then received.value else d.receivedParts)
  }

  function FailExhausted(d: Delivery): Delivery {
    if d.state.Pending? then d.(state := Failed) else d
  }

  /** A refresh takes over an unowned pending row, a failed row or a relink-cancelled one. */
  function TakeIntoSession(d: Delivery, session: SessionId): Delivery {
    if d.state.Queued? || d.state.Delivered? || (d.state.Pending? && d.session.Some?) then d else
      d.(state := Queued, session := Some(session), attemptCount := 0, armGeneration := d.armGeneration + 1,
         roundParts := {}, roundStartedAt := None, nextAttemptAt := None,
         receivedParts := if d.state.Cancelled? then {} else d.receivedParts)
  }

  /** A queued row turns head, under the settings of now and in a new arm. */
  function Arm(d: Delivery, cfg: Settings, now: Time): Delivery {
    if !d.state.Queued? then d else
      d.(state := Pending, attemptCount := 0, armGeneration := d.armGeneration + 1, roundParts := {},
         maximumAttempts := cfg.maximumAttempts, nextAttemptAt := Some(now))
  }

  /** A repeated refresh restarts a head that started a round, and makes a fresh head due. */
  function RestartHead(d: Delivery, cfg: Settings, now: Time): Delivery {
    if d.session.None? || !d.state.Pending? then d
    else if d.attemptCount == 0 then
      if d.nextAttemptAt.Some? && d.nextAttemptAt.value <= now then d else d.(nextAttemptAt := Some(now))
    else
      d.(attemptCount := 0, armGeneration := d.armGeneration + 1, roundParts := {},
         maximumAttempts := cfg.maximumAttempts, nextAttemptAt := Some(now))
  }

  function FailStopped(d: Delivery): Delivery {
    if d.state.Queued? then d.(state := Failed) else d
  }

  function CancelForRelink(d: Delivery): Delivery {
    if d.Live() then d.(state := Cancelled) else d
  }

  /** What the round holds and the received set does not. */
  function PartsLeft(d: Delivery): set<nat> {
    d.roundParts - d.receivedParts
  }
}
