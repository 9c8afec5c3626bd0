/** What an M is answered, said about the request and the tables alone. */
module PartAnswers {
  import opened Options
  import opened Texts
  import opened Times
  import opened RetrySchedule
  import opened Tables
  import opened Transitions

  /** A signed-in device writes a proper part to somebody else. */
  predicate IsProper(s: State, req: PartRequest) {
    && IsAddressed(s, req)
    && 1 <= req.partNumber <= req.partCount <= 10
    && IsValidPartText(req.text)
  }

  /** A signed-in device names somebody else. */
  predicate IsAddressed(s: State, req: PartRequest) {
    && req.device in s.devices && s.devices[req.device].user.Some?
    && req.recipient.Some? && req.recipient != s.devices[req.device].user
  }

  /** The message the request is about. */
  function KeyOf(s: State, req: PartRequest): MessageKey
    requires IsAddressed(s, req)
  {
    MessageKey(s.devices[req.device].user.value, req.clientId)
  }

  /**
   What is stored contradicts the request: another recipient, another number of parts, another text
   at that number, or an upload another device began and that still lacks the part.
   */
  predicate Contradicts(m: Message, req: PartRequest)
    requires 1 <= req.partNumber
  {
    || Some(m.recipient) != req.recipient
    || |m.partTexts| != req.partCount
    || (req.partNumber <= |m.partTexts|
        && var held := m.partTexts[req.partNumber - 1];
        (held.Some? && held != Some(req.text)) || (held.None? && m.acceptedAt.None? && m.senderDevice != req.device))
  }

  /** The request clashes with what is stored under its id. */
  predicate Clashes(s: State, req: PartRequest) {
    IsProper(s, req) && KeyOf(s, req) in s.messages && Contradicts(s.messages[KeyOf(s, req)], req)
  }

  /**
   The message holds the requested part among as many as the request says, and the flags tell
   exactly what it holds.
   */
  predicate TellsHeld(t: State, key: MessageKey, req: PartRequest, flags: seq<bool>) {
    && key in t.messages
    && var m := t.messages[key];
    && Some(m.recipient) == req.recipient && |m.partTexts| == req.partCount == |flags|
    && 1 <= req.partNumber <= req.partCount
    && m.partTexts[req.partNumber - 1] == Some(req.text)
    && forall i | 0 <= i < |flags| :: flags[i] <==> m.partTexts[i].Some?
  }

  /**
   Which answer a part request earns: the errors in their order, each in exactly its case, or a
   status that tells what is held.
   */
  predicate AnswersPart(s: State, req: PartRequest, t: State, reply: PartReply) {
    && (reply == PartRefused(NotSignedIn) <==> req.device !in s.devices || s.devices[req.device].user.None?)
    && (reply == PartRefused(NoSuchUser) <==>
          req.device in s.devices && s.devices[req.device].user.Some? && req.recipient.None?)
    && (reply == PartRefused(SelfAddressed) <==>
          req.device in s.devices && s.devices[req.device].user.Some? && req.recipient == s.devices[req.device].user)
    && (reply == PartRefused(PartInvalid) <==> IsAddressed(s, req) && !IsProper(s, req))
    && (reply == PartRefused(IdConflict) <==> Clashes(s, req))
    && (reply.PartRefused? ==> t == s)
    && (reply.SendStatus? <==> IsProper(s, req) && !Clashes(s, req))
    && (reply.SendStatus? ==> TellsHeld(t, KeyOf(s, req), req, reply.receivedSet))
  }

  lemma ConflictIsContradiction(m: Message, req: PartRequest)
    requires 1 <= req.partNumber <= req.partCount && req.recipient.Some?
    ensures Conflicts(m, req.recipient.value, req) <==> Contradicts(m, req)
  {
  }

  lemma StoredPartIsHeld(m: Message, req: PartRequest)
    requires 1 <= req.partNumber <= req.partCount && !Contradicts(m, req)
    ensures var n := StorePart(m, req);
      && n.recipient == m.recipient && |n.partTexts| == req.partCount
      && n.partTexts[req.partNumber - 1] == Some(req.text)
  {
  }

  lemma PlacedPartAnswer(s: State, key: MessageKey, req: PartRequest, cfg: Settings, now: Time)
    requires key in s.messages && 1 <= req.partNumber <= req.partCount && req.recipient.Some?
    ensures var r := PlacePart(s, key, req.recipient.value, req, cfg, now);
      if Contradicts(s.messages[key], req) then r == (s, PartRefused(IdConflict))
      else r.1.SendStatus? && TellsHeld(r.0, key, req, r.1.receivedSet)
  {
    ConflictIsContradiction(s.messages[key], req);
    if !Contradicts(s.messages[key], req) {
      StoredPartIsHeld(s.messages[key], req);
    }
  }

  lemma NewMessageAgrees(s: State, key: MessageKey, req: PartRequest)
    requires key !in s.messages && 1 <= req.partNumber <= req.partCount && req.recipient.Some?
    ensures var t := FindOrCreateMessage(s, key, req.recipient.value, req);
      key in t.messages && !Contradicts(t.messages[key], req)
  {
  }

  /** Every M is answered as its request and the tables demand. */
  lemma PartIsAnswered(s: State, req: PartRequest, cfg: Settings, now: Time)
    ensures var r := AcceptPart(s, req, cfg, now);
      AnswersPart(s, req, r.0, r.1)
  {
    if IsProper(s, req) {
      var key := KeyOf(s, req);
      if key !in s.messages {
        NewMessageAgrees(s, key, req);
      }
      PlacedPartAnswer(FindOrCreateMessage(s, key, req.recipient.value, req), key, req, cfg, now);
    }
  }
}
