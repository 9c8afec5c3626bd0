/**
 End to end: the parts of a split text, sent by one device in any order and with any repeats,
 while the user's other devices interfere, become one accepted message with the original text.
 */
module Uploads {
  import opened Options
  import opened Texts
  import opened Times
  import opened RetrySchedule
  import opened Tables
  import opened Transitions
  import opened Invariants
  import opened SessionProofs
  import opened MessageProofs
  import opened StepProofs
  import opened MessageEffects
  import opened TransitionSystems
  import opened Runs
  import Splitting
  import ProtocolMessages
  import Parsing
  import Formatting
  import RoundTrips
  import FieldGrammar

  // ----- which step stores a part ---------------------------------------------------------------------------

  /** The message a part request is about, once its device is signed in. */
  function RequestedKey(s: State, req: PartRequest): Option<MessageKey> {
    match SignedInUser(s, req.device)
    case None => None
    case Some(user) => Some(MessageKey(user, req.clientId))
  }

  /** Nothing was added to the upload and no upload began. */
  predicate UploadKept(s: State, t: State, key: MessageKey) {
    && (key in t.messages <==> key in s.messages)
    && (key in s.messages ==> t.messages[key].partTexts == s.messages[key].partTexts
                              && t.messages[key].acceptedAt == s.messages[key].acceptedAt)
  }

  lemma ConfirmKeepsUploads(s: State, confirmed: MessageKey, isRead: bool, cfg: Settings, now: Time, key: MessageKey)
    requires confirmed in s.messages
    ensures UploadKept(s, ConfirmMessage(s, confirmed, isRead, cfg, now), key)
  {
  }

  lemma StatusKeepsUploads(s: State, device: DeviceId, sender: Option<UserId>, clientId: nat, received: seq<bool>,
                           cfg: Settings, now: Time, key: MessageKey)
    ensures UploadKept(s, RecordStatus(s, device, sender, clientId, received, cfg, now), key)
  {
    if StatusApplies(s, device, sender, clientId, received) {
      var k := RowKey(MessageKey(sender.value, clientId), device);
      DeliverTouchesRowsAndSessions(s, k, Some(Reported(received)), cfg, now);
      ConfirmKeepsUploads(Deliver(s, k, Some(Reported(received)), cfg, now), k.message, false, cfg, now, key);
    }
  }

  lemma ReadKeepsUploads(s: State, device: DeviceId, sender: Option<UserId>, clientId: nat, cfg: Settings, now: Time,
                         key: MessageKey)
    ensures UploadKept(s, RecordRead(s, device, sender, clientId, cfg, now), key)
  {
    if sender.Some? && IsIncoming(s, device, MessageKey(sender.value, clientId)) {
      var k := RowKey(MessageKey(sender.value, clientId), device);
      var s1 := if k in s.deliveries && s.deliveries[k].Live() then Deliver(s, k, None, cfg, now) else s;
      if k in s.deliveries {
        DeliverTouchesRowsAndSessions(s, k, None, cfg, now);
      }
      ConfirmKeepsUploads(s1, k.message, true, cfg, now, key);
    }
  }

  /** Only a part request adds to an upload. */
  lemma OtherStepsKeepUploads(s: State, step: Step, cfg: Settings, now: Time, key: MessageKey)
    requires !step.PartArrives?
    ensures UploadKept(s, Apply(s, step, cfg, now), key)
  {
    match step {
      case StatusArrives(device, sender, clientId, received) =>
        StatusKeepsUploads(s, device, sender, clientId, received, cfg, now, key);
      case ReadArrives(device, sender, clientId) => ReadKeepsUploads(s, device, sender, clientId, cfg, now, key);
      case RefreshArrives(device, target, peers) => RefreshKeepsMessages(s, device, target, peers, cfg, now);
      case PacketPrepared(cands) => PrepareKeepsMessages(s, cands, cfg, now);
      case OutcomeRecorded(id, outcome) => OutcomeKeepsMessages(s, id, outcome, cfg, now);
      case DeviceLinked(device, user) => LinkKeepsMessages(s, device, user);
      case _ =>
    }
  }

  // ----- what a part request does ---------------------------------------------------------------------------

  lemma PlacePartAt(s: State, key: MessageKey, recipient: UserId, req: PartRequest, cfg: Settings, now: Time,
                    other: MessageKey)
    requires key in s.messages
    ensures var t := PlacePart(s, key, recipient, req, cfg, now).0;
      && (other != key ==>
        (other in t.messages <==> other in s.messages)
          && (other in s.messages ==> t.messages[other] == s.messages[other]))
      && key in t.messages
      && t.messages[key]
        == (if Conflicts(s.messages[key], recipient, req) then s.messages[key] else Placed(s.messages[key], req, now))
  {
  }

  /** The part request passes every check before the message is looked at. */
  predicate IsProperRequest(s: State, req: PartRequest) {
    && SignedInUser(s, req.device).Some?
    && req.recipient.Some? && req.recipient != SignedInUser(s, req.device)
    && ValidPartNumbering(req.partNumber, req.partCount) && IsValidPartText(req.text)
  }

  /** The message a part request leaves behind, for its own key and for any other. */
  lemma PartAt(s: State, req: PartRequest, cfg: Settings, now: Time, key: MessageKey)
    ensures var t := AcceptPart(s, req, cfg, now).0;
      if !IsProperRequest(s, req) || RequestedKey(s, req) != Some(key) then
        (key in t.messages <==> key in s.messages) && (key in s.messages ==> t.messages[key] == s.messages[key])
      else
        && key in t.messages
        && var m := if key in s.messages then s.messages[key] else NewMessage(s, req.recipient.value, req);
           t.messages[key] == if Conflicts(m, req.recipient.value, req) then m else Placed(m, req, now)
  {
    if IsProperRequest(s, req) {
      var k := RequestedKey(s, req).value;
      PlacePartAt(FindOrCreateMessage(s, k, req.recipient.value, req), k, req.recipient.value, req, cfg, now, key);
    }
  }

  // ----- one upload -----------------------------------------------------------------------------------------------

  /** A device of a user sends these parts to the recipient under this id. */
  datatype Upload = Upload(device: DeviceId, user: UserId, clientId: nat, recipient: UserId, parts: seq<Text>)
  {
    function Key(): MessageKey { MessageKey(user, clientId) }

    predicate Valid() {
      && recipient != user
      && 1 <= |parts| <= MAXIMUM_PART_COUNT
      && forall i | 0 <= i < |parts| :: IsValidPartText(parts[i])
    }

    /** A request of the uploading device for one of its parts. */
    predicate IsOwnPart(req: PartRequest) {
      && req.device == device && req.clientId == clientId && req.recipient == Some(recipient)
      && req.partCount == |parts| && 1 <= req.partNumber <= |parts| && req.text == parts[req.partNumber - 1]
    }
  }

  /** The tables, the clock, and the part numbers the device has sent so far. */
  datatype Progress = Progress(now: Snapshot, sent: set<nat>)

  predicate IsAboutUpload(w: Snapshot, e: Event, u: Upload) {
    e.step.PartArrives? && RequestedKey(w.tables, e.step.request) == Some(u.Key())
  }

  /**
   Anything may happen, in any order and any number of times, but requests under the upload's id
   are the device's own parts, or come from other devices once the upload has begun: those may
   carry any recipient, count, number and text.
   */
  ghost function MayUpload(u: Upload): (Progress, Event) -> bool {
    (p: Progress, e: Event) =>
      && CanHappen(p.now, e)
      && (IsAboutUpload(p.now, e, u) ==>
            if e.step.request.device == u.device then u.IsOwnPart(e.step.request) else u.Key() in p.now.tables.messages)
  }

  ghost function Proceed(u: Upload): (Progress, Event) -> Progress {
    (p: Progress, e: Event) =>
      Progress(Next()(p.now, e),
        if IsAboutUpload(p.now, e, u)
          && e.step.request.device == u.device then p.sent + {e.step.request.partNumber} else p.sent)
  }

  /** The message holds exactly what the device has sent. */
  predicate HoldsExactly(s: State, u: Upload, sent: set<nat>) {
    if u.Key() in s.messages then
      var m := s.messages[u.Key()];
      && m.senderDevice == u.device && m.recipient == u.recipient && |m.partTexts| == |u.parts|
      && (forall i | 0 <= i < |u.parts| :: m.partTexts[i] == (if i + 1 in sent then Some(u.parts[i]) else None))
    else sent == {}
  }

  ghost predicate UploadOk(p: Progress, u: Upload) {
    InOrder(p.now) && p.sent <= AllParts(|u.parts|) && HoldsExactly(p.now.tables, u, p.sent)
  }

  lemma PlacedParts(m: Message, req: PartRequest, now: Time)
    ensures Placed(m, req, now).partTexts == StorePart(m, req).partTexts
    ensures Placed(m, req, now).senderDevice == m.senderDevice && Placed(m, req, now).recipient == m.recipient
  {
  }

  /** The device's own part never conflicts; it is stored, or was there already. */
  lemma OwnPartIsStored(s: State, u: Upload, sent: set<nat>, req: PartRequest, cfg: Settings, now: Time)
    requires u.Valid() && HoldsExactly(s, u, sent) && u.IsOwnPart(req) && RequestedKey(s, req) == Some(u.Key())
    ensures HoldsExactly(AcceptPart(s, req, cfg, now).0, u, sent + {req.partNumber})
  {
    PartAt(s, req, cfg, now, u.Key());
    var m := if u.Key() in s.messages then s.messages[u.Key()] else NewMessage(s, u.recipient, req);
    PlacedParts(m, req, now);
  }

  /** A part another device may repeat is one the message holds already. */
  lemma RepeatedElsewhere(m: Message, recipient: UserId, req: PartRequest, now: Time)
    requires (m.acceptedAt.Some? <==> AllHeld(m)) && req.device != m.senderDevice && !Conflicts(m, recipient, req)
    ensures Placed(m, req, now) == m
  {
    assert m.partTexts[req.partNumber - 1].Some?;
  }

  lemma OtherDeviceKeepsMessage(s: State, clock: Time, u: Upload, sent: set<nat>, req: PartRequest, cfg: Settings,
                                now: Time, key: MessageKey)
    requires MessagesOk(s, clock) && HoldsExactly(s, u, sent) && u.Key() in s.messages && req.device != u.device
    requires RequestedKey(s, req) == Some(u.Key())
    ensures var t := AcceptPart(s, req, cfg, now).0;
      (key in t.messages <==> key in s.messages) && (key in s.messages ==> t.messages[key] == s.messages[key])
  {
    PartAt(s, req, cfg, now, key);
    if key == u.Key() && IsProperRequest(s, req) && !Conflicts(s.messages[key], req.recipient.value, req) {
      assert MessageOk(key.sender, s.messages[key], s.nextMessageId, clock);
      RepeatedElsewhere(s.messages[key], req.recipient.value, req, now);
    }
  }

  /** Another device under the same id can neither add nor change a part, accepted or not. */
  lemma OtherDeviceChangesNothing(s: State, clock: Time, u: Upload, sent: set<nat>, req: PartRequest, cfg: Settings,
                                  now: Time)
    requires MessagesOk(s, clock) && HoldsExactly(s, u, sent) && u.Key() in s.messages && req.device != u.device
    requires RequestedKey(s, req) == Some(u.Key())
    ensures AcceptPart(s, req, cfg, now).0.messages == s.messages
  {
    var t := AcceptPart(s, req, cfg, now).0;
    forall key ensures (key in t.messages <==> key in s.messages)
      && (key in s.messages ==> t.messages[key] == s.messages[key]) {
      OtherDeviceKeepsMessage(s, clock, u, sent, req, cfg, now, key);
    }
  }

  /** A request about another message leaves the upload alone. */
  lemma UnrelatedPart(s: State, u: Upload, sent: set<nat>, req: PartRequest, cfg: Settings, now: Time)
    requires HoldsExactly(s, u, sent) && RequestedKey(s, req) != Some(u.Key())
    ensures HoldsExactly(AcceptPart(s, req, cfg, now).0, u, sent)
  {
    PartAt(s, req, cfg, now, u.Key());
  }

  lemma OtherStepKeepsUpload(s: State, u: Upload, sent: set<nat>, step: Step, cfg: Settings, clock: Time, now: Time)
    requires Inv(s, clock) && clock <= now && cfg.Valid() && Enabled(s, step, cfg, now)
    requires HoldsExactly(s, u, sent) && !step.PartArrives?
    ensures HoldsExactly(Apply(s, step, cfg, now), u, sent)
  {
    OtherStepsKeepUploads(s, step, cfg, now, u.Key());
    StepKeepsInv(s, step, cfg, clock, now);
    if u.Key() in s.messages {
      MessageEvolved(s, Apply(s, step, cfg, now), u.Key());
    }
  }

  lemma MessageEvolved(s: State, t: State, key: MessageKey)
    requires Evolves(s, t) && key in s.messages
    ensures key in t.messages && MessageEvolves(s.messages[key], t.messages[key])
  {
  }

  lemma ProceedIs(p: Progress, e: Event, u: Upload)
    ensures Proceed(u)(p, e).now.tables == Apply(p.now.tables, e.step, e.cfg, e.now)
    ensures e.step.PartArrives? ==>
      Proceed(u)(p, e).now.tables == AcceptPart(p.now.tables, e.step.request, e.cfg, e.now).0
    ensures !(IsAboutUpload(p.now, e, u) && e.step.request.device == u.device) ==> Proceed(u)(p, e).sent == p.sent
  {
    assert Proceed(u)(p, e).now == Next()(p.now, e);
    assert Next()(p.now, e) == Snapshot(Apply(p.now.tables, e.step, e.cfg, e.now), e.now);
  }

  lemma EventKeepsUpload(p: Progress, e: Event, u: Upload)
    requires u.Valid() && UploadOk(p, u) && MayUpload(u)(p, e)
    ensures HoldsExactly(Proceed(u)(p, e).now.tables, u, Proceed(u)(p, e).sent)
      && Proceed(u)(p, e).sent <= AllParts(|u.parts|)
  {
    var s := p.now.tables;
    ProceedIs(p, e, u);
    if IsAboutUpload(p.now, e, u) {
      var req := e.step.request;
      if req.device == u.device {
        OwnPartIsStored(s, u, p.sent, req, e.cfg, e.now);
      } else {
        OtherDeviceChangesNothing(s, p.now.clock, u, p.sent, req, e.cfg, e.now);
      }
    } else if e.step.PartArrives? {
      UnrelatedPart(s, u, p.sent, e.step.request, e.cfg, e.now);
    } else {
      OtherStepKeepsUpload(s, u, p.sent, e.step, e.cfg, p.now.clock, e.now);
    }
  }

  lemma EventKeepsUploadOk(p: Progress, e: Event, u: Upload)
    requires u.Valid() && UploadOk(p, u) && MayUpload(u)(p, e)
    ensures UploadOk(Proceed(u)(p, e), u)
  {
    EventKeepsInv(p.now, e);
    EventKeepsUpload(p, e, u);
  }

  lemma RunKeepsUpload(p: Progress, events: seq<Event>, u: Upload)
    requires u.Valid() && UploadOk(p, u) && Allowed(Proceed(u), MayUpload(u), p, events)
    ensures UploadOk(RunFrom(Proceed(u), p, events), u)
  {
    forall x: Progress, e: Event | UploadOk(x, u) && MayUpload(u)(x, e) ensures UploadOk(Proceed(u)(x, e), u) {
      EventKeepsUploadOk(x, e, u);
    }
    KeptByRun(Proceed(u), MayUpload(u), (x: Progress) => UploadOk(x, u), p, events);
  }

  lemma {:induction false} AllHeldTexts(held: seq<Option<Text>>, parts: seq<Text>)
    requires |held| == |parts| && forall i | 0 <= i < |parts| :: held[i] == Some(parts[i])
    ensures HeldTexts(held) == parts
  {
    if held != [] {
      AllHeldTexts(held[1..], parts[1..]);
      assert parts == [parts[0]] + parts[1..];
    }
  }

  /** The message is accepted exactly when every part was sent, and then its text is the parts in order. */
  lemma CompleteUpload(p: Progress, u: Upload)
    requires u.Valid() && UploadOk(p, u) && u.Key() in p.now.tables.messages
    ensures var m := p.now.tables.messages[u.Key()];
      && (m.acceptedAt.Some? <==> p.sent == AllParts(|u.parts|))
      && (m.acceptedAt.Some? ==> m.text == Some(Join(u.parts)))
  {
    var s := p.now.tables;
    var m := s.messages[u.Key()];
    assert MessageOk(u.user, m, s.nextMessageId, p.now.clock);
    if AllHeld(m) {
      forall i: nat | i in AllParts(|u.parts|) ensures i in p.sent {
        assert m.partTexts[i - 1].Some?;
      }
      AllHeldTexts(m.partTexts, u.parts);
    }
  }

  /**
   End to end: split a text and let one device send the parts, in whatever order and with whatever
   repeats, in a run where other devices of the user use the same id for anything they like and
   everything else goes on. Then the message holds exactly the parts the device sent, unchanged;
   it is accepted exactly when each part was sent at least once, and its text is the original.
   */
  lemma EndToEnd(start: Snapshot, events: seq<Event>, u: Upload, text: Text, clusters: seq<Text>)
    requires InOrder(start) && u.recipient != u.user && u.Key() !in start.tables.messages
    requires Splitting.SplitMessageText(text, clusters) == Splitting.SplitInto(u.parts)
    requires Allowed(Proceed(u), MayUpload(u), Progress(start, {}), events)
    ensures var end := RunFrom(Proceed(u), Progress(start, {}), events);
      && HoldsExactly(end.now.tables, u, end.sent)
      && (u.Key() in end.now.tables.messages ==>
            var m := end.now.tables.messages[u.Key()];
            && (m.acceptedAt.Some? <==> end.sent == AllParts(|u.parts|))
            && (m.acceptedAt.Some? ==> m.text == Some(text)))
  {
    Splitting.SplitIsOptimal(text, clusters, []);
    assert UploadOk(Progress(start, {}), u);
    RunKeepsUpload(Progress(start, {}), events, u);
    var end := RunFrom(Proceed(u), Progress(start, {}), events);
    if u.Key() in end.now.tables.messages {
      CompleteUpload(end, u);
    }
  }

  // ----- acceptance -----------------------------------------------------------------------------------------------

  /** The step that accepts a message. */
  predicate AcceptedBy(s: State, t: State, key: MessageKey) {
    && (key in s.messages ==> s.messages[key].acceptedAt.None?)
    && key in t.messages && t.messages[key].acceptedAt.Some?
  }

  lemma AcceptanceRows(s: State, key: MessageKey, recipient: UserId, req: PartRequest, cfg: Settings, now: Time,
                       device: DeviceId)
    requires RowsOk(s) && key in s.messages && s.messages[key].acceptedAt.None?
    requires PlacePart(s, key, recipient, req, cfg, now).0.messages[key].acceptedAt.Some?
    ensures var t := PlacePart(s, key, recipient, req, cfg, now).0;
      && (RowKey(key, device) in t.deliveries <==> device in DevicesOf(s, s.messages[key].recipient))
      && RowKey(key, device) !in s.deliveries
      && t.devices == s.devices
  {
    NoRowsBeforeAcceptance(s, key);
    PlacedTables(s, key, recipient, req, cfg, now);
    var s1 := s.(messages := s.messages[key := Placed(s.messages[key], req, now)]);
    FanOutRowAt(s1, key, s.messages[key].recipient, cfg, now, RowKey(key, device));
    assert DevicesOf(s1, s.messages[key].recipient) == DevicesOf(s, s.messages[key].recipient);
  }

  /** Only a proper request about this very message accepts it, at its own time. */
  lemma AcceptingRequest(s: State, req: PartRequest, cfg: Settings, now: Time, key: MessageKey)
    requires AcceptedBy(s, AcceptPart(s, req, cfg, now).0, key)
    ensures IsProperRequest(s, req) && RequestedKey(s, req) == Some(key)
    ensures AcceptPart(s, req, cfg, now).0.messages[key].acceptedAt == Some(now)
  {
    PartAt(s, req, cfg, now, key);
  }

  lemma CreatedRowsOk(s: State, req: PartRequest, clock: Time)
    requires Inv(s, clock) && IsProperRequest(s, req)
    ensures RowsOk(FindOrCreateMessage(s, RequestedKey(s, req).value, req.recipient.value, req))
  {
    CreateKeepsInv(s, RequestedKey(s, req).value, req.recipient.value, req, clock);
  }

  lemma AcceptingPartRows(s: State, req: PartRequest, cfg: Settings, now: Time, key: MessageKey, device: DeviceId)
    requires IsProperRequest(s, req) && RequestedKey(s, req) == Some(key)
      && AcceptedBy(s, AcceptPart(s, req, cfg, now).0, key)
    requires RowsOk(FindOrCreateMessage(s, key, req.recipient.value, req))
    ensures var t := AcceptPart(s, req, cfg, now).0;
      && RowKey(key, device) !in s.deliveries
      && (RowKey(key, device) in t.deliveries <==> device in DevicesOf(s, t.messages[key].recipient))
  {
    var recipient := req.recipient.value;
    var s1 := FindOrCreateMessage(s, key, recipient, req);
    AcceptanceRows(s1, key, recipient, req, cfg, now, device);
    PlacePartAt(s1, key, recipient, req, cfg, now, key);
    PlacedParts(s1.messages[key], req, now);
  }

  /**
   At acceptance, and only then, exactly the recipient's devices of that moment get a delivery of
   the message, one each.
   */
  lemma OneDeliveryPerDevice(s: State, step: Step, cfg: Settings, clock: Time, now: Time, key: MessageKey,
                             device: DeviceId)
    requires Inv(s, clock) && clock <= now && cfg.Valid() && Enabled(s, step, cfg, now)
    requires AcceptedBy(s, Apply(s, step, cfg, now), key)
    ensures var t := Apply(s, step, cfg, now);
      && RowKey(key, device) !in s.deliveries
      && (RowKey(key, device) in t.deliveries <==> device in DevicesOf(s, t.messages[key].recipient))
      && t.messages[key].acceptedAt == Some(now)
  {
    if step.PartArrives? {
      AcceptingRequest(s, step.request, cfg, now, key);
      CreatedRowsOk(s, step.request, clock);
      AcceptingPartRows(s, step.request, cfg, now, key, device);
    } else {
      OtherStepsKeepUploads(s, step, cfg, now, key);
      assert false;
    }
  }

  /** Accepted once: after acceptance, no run changes the time, the text or a part. */
  lemma AcceptedOnce(w: Snapshot, events: seq<Event>, key: MessageKey)
    requires InOrder(w) && IsRun(w, events) && key in w.tables.messages && w.tables.messages[key].acceptedAt.Some?
    ensures key in Final(w, events).tables.messages
    ensures var m, n := w.tables.messages[key], Final(w, events).tables.messages[key];
      n.acceptedAt == m.acceptedAt && n.text == m.text && n.partTexts == m.partTexts && n.recipient == m.recipient
  {
    RunEvolves(w, events);
    MessageEvolved(w.tables, Final(w, events).tables, key);
    var m := w.tables.messages[key];
    assert MessageOk(key.sender, m, w.tables.nextMessageId, w.clock);
  }

  // ----- on the wire ------------------------------------------------------------------------------------------------

  /** The part of an accepted message as it is sent to a device. */
  function PartOnWire(username: Text, key: MessageKey, m: Message, number: nat): ProtocolMessages.ProtocolMessage
    requires 1 <= number <= |m.partTexts| && m.partTexts[number - 1].Some?
  {
    ProtocolMessages.PartDelivery(username, key.clientId, number, |m.partTexts|, m.partTexts[number - 1].value)
  }

  /**
   Every part a reachable state holds can be written as an "m" of at most 150 bytes, which parses
   back to the same part.
   */
  lemma StoredPartsTravel(w: Snapshot, key: MessageKey, number: nat, username: Text, nfc: Text -> Text)
    requires Reachable(w) && key in w.tables.messages && 1 <= number <= |w.tables.messages[key].partTexts|
    requires w.tables.messages[key].partTexts[number - 1].Some?
    requires FieldGrammar.IsValidUsername(username) && ProtocolMessages.IsMessageId(key.clientId)
    ensures var m := PartOnWire(username, key, w.tables.messages[key], number);
      var text := Formatting.Format(m, nfc);
      text.Some? && Utf8Bytes(text.value) <= 150 && Parsing.Parse(text.value) == ProtocolMessages.Message(m)
  {
    ReachableInv(w);
    assert MessageOk(key.sender, w.tables.messages[key], w.tables.nextMessageId, w.clock);
    var m := PartOnWire(username, key, w.tables.messages[key], number);
    RoundTrips.PartFitsBudget(m, nfc);
    RoundTrips.ParseOfFormat(m, nfc);
  }
}
