/**
 The delivery engine's service transactions as functions from the tables before to the tables
 after. Each is one atomic step. A username arrives already looked up, and the list a query
 returns is passed in wherever several orders are possible.
 */
module Transitions {
  import opened Options
  import opened Texts
  import opened Times
  import opened RetrySchedule
  import opened Tables
  import opened DeliveryRows
  import opened ReceiptRows

  function SignedInUser(s: State, device: DeviceId): Option<UserId> {
    if device in s.devices then s.devices[device].user else None
  }

  // ----- refresh sessions: who owns what -----------------------------------------------------

  predicate IsActiveSession(s: State, sid: SessionId, device: DeviceId, peer: UserId) {
    && sid in s.sessions
    && s.sessions[sid].state.Active?
    && s.sessions[sid].device == device
    && s.sessions[sid].peer == peer
  }

  /** The active session of a device with a peer, if there is one. */
  ghost function ActiveSession(s: State, device: DeviceId, peer: UserId): (r: Option<SessionId>)
    ensures r.Some? ==> IsActiveSession(s, r.value, device, peer)
    ensures r.None? ==> forall sid :: !IsActiveSession(s, sid, device, peer)
  {
    if exists sid :: IsActiveSession(s, sid, device, peer)
    then var sid :| IsActiveSession(s, sid, device, peer); Some(sid)
    else None
  }

  predicate Owns(s: State, sid: SessionId, k: RowKey) {
    k in s.deliveries && s.deliveries[k].session == Some(sid)
  }

  predicate IsHead(s: State, sid: SessionId, k: RowKey) {
    Owns(s, sid, k) && s.deliveries[k].state.Pending?
  }

  predicate IsQueued(s: State, sid: SessionId, k: RowKey) {
    Owns(s, sid, k) && s.deliveries[k].state.Queued?
  }

  function Owned(s: State, sid: SessionId): set<RowKey> {
    set k | k in s.deliveries && Owns(s, sid, k)
  }

  function Outstanding(s: State, sid: SessionId): set<RowKey> {
    set k | k in s.deliveries && (IsHead(s, sid, k) || IsQueued(s, sid, k))
  }

  function AcceptedAt(s: State, k: RowKey): Time {
    if k.message in s.messages && s.messages[k.message].acceptedAt.Some?
    then s.messages[k.message].acceptedAt.value else 0.0
  }

  function RowOrder(s: State, k: RowKey): nat {
    if k.message in s.messages then s.messages[k.message].id else 0
  }

  /** Acceptance order: by acceptance time, then by the message's database id. */
  predicate Before(s: State, a: RowKey, b: RowKey) {
    || AcceptedAt(s, a) < AcceptedAt(s, b)
    || (AcceptedAt(s, a) == AcceptedAt(s, b) && RowOrder(s, a) < RowOrder(s, b))
  }

  /** A queued row that no queued row of the session precedes. */
  ghost predicate IsNextHead(s: State, sid: SessionId, k: RowKey) {
    IsQueued(s, sid, k) && forall q :: IsQueued(s, sid, q) ==> !Before(s, q, k)
  }

  ghost function NextHead(s: State, sid: SessionId): (r: Option<RowKey>)
    ensures r.Some? ==> IsNextHead(s, sid, r.value)
    ensures r.None? ==> forall k :: !IsNextHead(s, sid, k)
  {
    if exists k :: IsNextHead(s, sid, k)
    then var k :| IsNextHead(s, sid, k); Some(k)
    else None
  }

  /** The session whose head this pending row is. */
  function HeadSession(s: State, d: Delivery): (r: Option<SessionId>) {
    if d.session.Some? && d.session.value in s.sessions && s.sessions[d.session.value].state.Active?
    then d.session else None
  }

  function UpdateDelivery(s: State, k: RowKey, d: Delivery): State {
    s.(deliveries := s.deliveries[k := d])
  }

  function SetSessionState(s: State, sid: SessionId, st: SessionState): State {
    if sid in s.sessions then s.(sessions := s.sessions[sid := s.sessions[sid].(state := st)]) else s
  }

  /** The first queued row becomes the head; without one the session completes. */
  ghost function AdvanceSession(s: State, sid: SessionId, cfg: Settings, now: Time): State {
    match NextHead(s, sid)
    case None => SetSessionState(s, sid, Completed)
    case Some(k) => UpdateDelivery(s, k, Arm(s.deliveries[k], cfg, now))
  }

  function QueuedFailed(s: State, sid: SessionId): map<RowKey, Delivery> {
    map k | k in s.deliveries :: if IsQueued(s, sid, k) then FailStopped(s.deliveries[k]) else s.deliveries[k]
  }

  /** The head was given up: what is queued behind it fails unsent. */
  function StopSession(s: State, sid: SessionId): State {
    SetSessionState(s.(deliveries := QueuedFailed(s, sid)), sid, Stopped)
  }

  // ----- M: a message part arrives ------------------------------------------------------------

  datatype PartRequest = PartRequest(
    device: DeviceId,
    recipient: Option<UserId>,
    clientId: nat,
    partNumber: nat,
    partCount: nat,
    text: Text)

  datatype RequestError = NotSignedIn | NoSuchUser | SelfAddressed | PartInvalid | IdConflict | NotFound

  datatype PartReply = PartRefused(error: RequestError) | SendStatus(receivedSet: seq<bool>)

  predicate ValidPartNumbering(number: nat, count: nat) {
    1 <= number <= count <= MAXIMUM_PART_COUNT
  }

  predicate AllHeld(m: Message) {
    forall i | 0 <= i < |m.partTexts| :: m.partTexts[i].Some?
  }

  function HeldTexts(parts: seq<Option<Text>>): (r: seq<Text>) {
    if parts == [] then []
    else (if parts[0].Some? then [parts[0].value] else []) + HeldTexts(parts[1..])
  }

  function ReceivedSet(m: Message): (r: seq<bool>)
    ensures |r| == |m.partTexts|
  {
    seq(|m.partTexts|, i requires 0 <= i < |m.partTexts| => m.partTexts[i].Some?)
  }

  function NewMessage(s: State, recipient: UserId, req: PartRequest): Message {
    Message(s.nextMessageId, recipient, req.device, seq(req.partCount, i => None), None, None, None, None)
  }

  function FindOrCreateMessage(s: State, key: MessageKey, recipient: UserId, req: PartRequest): State {
    if key in s.messages then s
    else s.(messages := s.messages[key := NewMessage(s, recipient, req)], nextMessageId := s.nextMessageId + 1)
  }

  /** The request contradicts what is stored. */
  predicate Conflicts(m: Message, recipient: UserId, req: PartRequest) {
    || m.recipient != recipient
    || |m.partTexts| != req.partCount
    || !(1 <= req.partNumber <= |m.partTexts|)
    || (var held := m.partTexts[req.partNumber - 1];
        || (held.Some? && held.value != req.text)
        || (m.acceptedAt.None? && held.None? && m.senderDevice != req.device))
  }

  function StorePart(m: Message, req: PartRequest): Message {
    if 1 <= req.partNumber <= |m.partTexts| && m.partTexts[req.partNumber - 1].None?
    then m.(partTexts := m.partTexts[req.partNumber - 1 := Some(req.text)])
    else m
  }

  /** The recipient's devices at this moment. */
  function DevicesOf(s: State, user: UserId): set<DeviceId> {
    set d | d in s.devices && s.devices[d].user == Some(user)
  }

  ghost function FanOutRow(s: State, key: MessageKey, device: DeviceId, cfg: Settings, now: Time): Delivery {
    match ActiveSession(s, device, key.sender)
    case None => NewPending(cfg, now)
    case Some(sid) => NewQueued(sid, cfg)
  }

  /** One delivery per device of the recipient; a device refreshing the conversation gets it queued behind. */
  ghost function FanOut(s: State, key: MessageKey, recipient: UserId, cfg: Settings, now: Time): State {
    s.(deliveries := s.deliveries +
         map k | k in (set d | d in DevicesOf(s, recipient) :: RowKey(key, d)) :: FanOutRow(s, key, k.device, cfg, now),
       sessions := map sid | sid in s.sessions ::
         if s.sessions[sid].state.Active? && s.sessions[sid].peer == key.sender
           && s.sessions[sid].device in DevicesOf(s, recipient)
         then s.sessions[sid].(messagesTotal := s.sessions[sid].messagesTotal + 1)
         else s.sessions[sid])
  }

  ghost function AcceptMessage(s: State, key: MessageKey, cfg: Settings, now: Time): State
    requires key in s.messages
  {
    var m := s.messages[key];
    var accepted := m.(text := Some(Join(HeldTexts(m.partTexts))), acceptedAt := Some(now));
    FanOut(s.(messages := s.messages[key := accepted]), key, m.recipient, cfg, now)
  }

  ghost function PlacePart(s: State, key: MessageKey, recipient: UserId, req: PartRequest, cfg: Settings,
                           now: Time): (State, PartReply)
    requires key in s.messages
  {
    var m := s.messages[key];
    if Conflicts(m, recipient, req) then (s, PartRefused(IdConflict)) else
      var stored := StorePart(m, req);
      var s1 := s.(messages := s.messages[key := stored]);
      var s2 := if stored.acceptedAt.None? && AllHeld(stored) then AcceptMessage(s1, key, cfg, now) else s1;
      (s2, SendStatus(ReceivedSet(stored)))
  }

  ghost function AcceptPart(s: State, req: PartRequest, cfg: Settings, now: Time): (State, PartReply) {
    var user := SignedInUser(s, req.device);
    if user.None? then (s, PartRefused(NotSignedIn))
    else if req.recipient.None? then (s, PartRefused(NoSuchUser))
    else if req.recipient == user then (s, PartRefused(SelfAddressed))
    else if !ValidPartNumbering(req.partNumber, req.partCount)
      || !IsValidPartText(req.text) then (s, PartRefused(PartInvalid))
    else
      var key := MessageKey(user.value, req.clientId);
      PlacePart(FindOrCreateMessage(s, key, req.recipient.value, req), key, req.recipient.value, req, cfg, now)
  }

  // ----- K, R and C: what a device reports ------------------------------------------------------

  datatype ReadReply = ReadRefused(error: RequestError) | ReadNoted(message: MessageKey)

  /** A message the device's user may report on. */
  predicate IsIncoming(s: State, device: DeviceId, key: MessageKey) {
    && key in s.messages
    && s.messages[key].acceptedAt.Some?
    && SignedInUser(s, device) == Some(s.messages[key].recipient)
  }

  /** The part numbers a received-set reports. */
  function Reported(received: seq<bool>): (parts: set<nat>)
    ensures forall i: nat :: i in parts <==> 1 <= i <= |received| && received[i - 1]
  {
    if received == [] then {}
    else Reported(received[..|received| - 1]) + (if received[|received| - 1] then {|received|} else {})
  }

  /** The row is delivered, and if it was a head its session moves on. */
  ghost function Deliver(s: State, k: RowKey, received: Option<set<nat>>, cfg: Settings, now: Time): State
    requires k in s.deliveries
  {
    var d := s.deliveries[k];
    var head := if d.state.Pending? then HeadSession(s, d) else None;
    var s1 := UpdateDelivery(s, k, MarkDelivered(d, received));
    if head.None? then s1 else AdvanceSession(s1, head.value, cfg, now)
  }

  function ConfirmedMessage(m: Message, isRead: bool, now: Time): Message {
    m.(deliveredAt := if m.deliveredAt.None? then Some(now) else m.deliveredAt,
       readAt := if isRead && m.readAt.None? then Some(now) else m.readAt)
  }

  predicate LevelRises(m: Message, isRead: bool) {
    m.deliveredAt.None? || (isRead && m.readAt.None?)
  }

  /** Every current device of the sender: a new receipt at the message's level, or the existing one raised to read. */
  function RaisedReceipt(s: State, k: RowKey, level: nat, cfg: Settings, now: Time): Receipt {
    if k !in s.receipts then NewReceipt(level, cfg, now)
    else if level == READ_LEVEL then RaiseToRead(s.receipts[k], cfg, now)
    else s.receipts[k]
  }

  function RaiseReceipts(s: State, key: MessageKey, level: nat, cfg: Settings, now: Time): State {
    s.(receipts := s.receipts +
         map k | k in (set d | d in DevicesOf(s, key.sender) :: RowKey(key, d)) :: RaisedReceipt(s, k, level, cfg, now))
  }

  /** The message's first delivery and read times, and the receipts a new level starts. */
  function ConfirmMessage(s: State, key: MessageKey, isRead: bool, cfg: Settings, now: Time): State
    requires key in s.messages
  {
    var m := s.messages[key];
    if !LevelRises(m, isRead) then s else
      var m1 := ConfirmedMessage(m, isRead, now);
      RaiseReceipts(s.(messages := s.messages[key := m1]), key, m1.Level(), cfg, now)
  }

  /** The suggested timeout of the round's latest packet that is no longer prepared, searching below an id. */
  function LastRoundSuggestion(s: State, k: RowKey, arm: nat, attempt: nat, below: PacketId): Option<nat> {
    if below == 0 then None
    else
      var id := below - 1;
      if && id in s.packets && s.packets[id].row == k && s.packets[id].purpose.DeliveryPart?
         && s.packets[id].armGeneration == arm && s.packets[id].attemptNumber == attempt
           && !s.packets[id].state.Prepared?
      then s.packets[id].suggestedTimeout
      else LastRoundSuggestion(s, k, arm, attempt, id)
  }

  function RoundSuggestion(s: State, k: RowKey, d: Delivery): Option<nat> {
    LastRoundSuggestion(s, k, d.armGeneration, d.attemptCount, s.nextPacketId)
  }

  /** A status K concerns a live row when sender, id, length and delivery row all match. */
  predicate StatusApplies(s: State, device: DeviceId, sender: Option<UserId>, clientId: nat, received: seq<bool>) {
    && sender.Some?
    && var key := MessageKey(sender.value, clientId);
    && IsIncoming(s, device, key)
    && |received| == |s.messages[key].partTexts|
    && RowKey(key, device) in s.deliveries
    && s.deliveries[RowKey(key, device)].Live()
  }

  ghost function RecordStatus(s: State, device: DeviceId, sender: Option<UserId>, clientId: nat, received: seq<bool>,
                              cfg: Settings, now: Time): State
  {
    if !StatusApplies(s, device, sender, clientId, received) then s else
      var key := MessageKey(sender.value, clientId);
      var k := RowKey(key, device);
      var d := s.deliveries[k];
      if Reported(received) != s.messages[key].Parts()
      then UpdateDelivery(s, k, IncompleteStatus(d, Reported(received), RoundSuggestion(s, k, d), cfg, now))
      else ConfirmMessage(Deliver(s, k, Some(Reported(received)), cfg, now), key, false, cfg, now)
  }

  ghost function RecordRead(s: State, device: DeviceId, sender: Option<UserId>, clientId: nat, cfg: Settings,
                            now: Time): State {
    if sender.None? || !IsIncoming(s, device, MessageKey(sender.value, clientId)) then s else
      var key := MessageKey(sender.value, clientId);
      var k := RowKey(key, device);
      var s1 := if k in s.deliveries && s.deliveries[k].Live() then Deliver(s, k, None, cfg, now) else s;
      ConfirmMessage(s1, key, true, cfg, now)
  }

  function RecordReceiptConfirmation(s: State, device: DeviceId, recipient: Option<UserId>, clientId: nat,
                                     level: nat): State {
    var user := SignedInUser(s, device);
    if user.None? || recipient.None? then s else
      var key := MessageKey(user.value, clientId);
      var k := RowKey(key, device);
      if && key in s.messages && s.messages[key].acceptedAt.Some? && s.messages[key].recipient == recipient.value
         && k in s.receipts
      then s.(receipts := s.receipts[k := Confirm(s.receipts[k], level)])
      else s
  }

  // ----- F: refresh --------------------------------------------------------------------------

  datatype RefreshTarget = AllPeers | OnePeer(peer: Option<UserId>)

  datatype RefreshReply = RefreshRefused(error: RequestError) | RefreshAnnounced(count: nat)

  /** Rows a new session may claim: given up, cancelled, or pending without an owner. */
  predicate TakenOver(s: State, device: DeviceId, user: UserId, k: RowKey) {
    && k in s.deliveries
    && k.device == device
    && k.message in s.messages
    && s.messages[k.message].recipient == user
    && s.messages[k.message].acceptedAt.Some?
    && var d := s.deliveries[k];
    (d.state.Failed? || d.state.Cancelled? || (d.state.Pending? && d.session.None?))
  }

  /** Messages for the user still undelivered everywhere and unknown to this device. */
  predicate Missed(s: State, device: DeviceId, user: UserId, key: MessageKey) {
    && key in s.messages
    && s.messages[key].recipient == user
    && s.messages[key].acceptedAt.Some?
    && s.messages[key].deliveredAt.None?
    && RowKey(key, device) !in s.deliveries
  }

  function TakenKeys(s: State, device: DeviceId, user: UserId, peer: UserId): set<RowKey> {
    set k | k in s.deliveries && TakenOver(s, device, user, k) && k.message.sender == peer
  }

  function MissedKeys(s: State, device: DeviceId, user: UserId, peer: UserId): set<RowKey> {
    set key | key in s.messages && Missed(s, device, user, key) && key.sender == peer :: RowKey(key, device)
  }

  function PeersWithMissedMessages(s: State, device: DeviceId, user: UserId): set<UserId> {
    (set k | k in s.deliveries && TakenOver(s, device, user, k) :: k.message.sender)
    + (set key | key in s.messages && Missed(s, device, user, key) :: key.sender)
    + (set sid | sid in s.sessions && s.sessions[sid].state.Active? && s.sessions[sid].device == device ::
      s.sessions[sid].peer)
    - {user}
  }

  /** The tables once a new session owns its whole scope, before its first head is armed. */
  function OpenScope(s: State, device: DeviceId, peer: UserId, taken: set<RowKey>, missed: set<RowKey>,
                     cfg: Settings): State {
    var sid := s.nextSessionId;
    s.(sessions := s.sessions[sid := Session(device, peer, Active, |taken| + |missed|)],
       nextSessionId := sid + 1,
       deliveries := map k | k in s.deliveries.Keys + missed ::
         if k !in s.deliveries then NewQueued(sid, cfg)
         else if k in taken then TakeIntoSession(s.deliveries[k], sid)
         else s.deliveries[k])
  }

  function OpenSession(s: State, device: DeviceId, user: UserId, peer: UserId, cfg: Settings): State {
    OpenScope(s, device, peer, TakenKeys(s, device, user, peer), MissedKeys(s, device, user, peer), cfg)
  }

  /** The head of a session, if it has one. */
  ghost function Head(s: State, sid: SessionId): (r: Option<RowKey>)
    ensures r.Some? ==> IsHead(s, sid, r.value)
    ensures r.None? ==> forall k :: !IsHead(s, sid, k)
  {
    if exists k :: IsHead(s, sid, k) then var k :| IsHead(s, sid, k); Some(k) else None
  }

  ghost function RestartSession(s: State, sid: SessionId, cfg: Settings, now: Time): State {
    match Head(s, sid)
    case None => s
    case Some(k) => UpdateDelivery(s, k, RestartHead(s.deliveries[k], cfg, now))
  }

  /** What one F does for one peer, and the number of messages it announces. */
  ghost function RefreshPeer(s: State, device: DeviceId, user: UserId, peer: UserId, cfg: Settings,
                             now: Time): (State, nat) {
    match ActiveSession(s, device, peer)
    case Some(sid) =>
      var s1 := RestartSession(s, sid, cfg, now);
      (s1, |Outstanding(s1, sid)|)
    case None =>
      var scope := |TakenKeys(s, device, user, peer)| + |MissedKeys(s, device, user, peer)|;
      if scope == 0 then (s, 0)
      else (AdvanceSession(OpenSession(s, device, user, peer, cfg), s.nextSessionId, cfg, now), scope)
  }

  ghost function RefreshPeers(s: State, device: DeviceId, user: UserId, peers: seq<UserId>, cfg: Settings,
                              now: Time): (State, nat)
    decreases |peers|
  {
    if peers == [] then (s, 0)
    else
      var first := RefreshPeer(s, device, user, peers[0], cfg, now);
      var rest := RefreshPeers(first.0, device, user, peers[1..], cfg, now);
      (rest.0, first.1 + rest.1)
  }

  /** Receipts on this device of messages it sent in the conversation. */
  predicate RearmedByRefresh(s: State, device: DeviceId, user: UserId, peer: UserId, k: RowKey) {
    && k in s.receipts
    && k.device == device
    && k.message in s.messages
    && k.message.sender == user
    && s.messages[k.message].recipient == peer
    && s.messages[k.message].senderDevice == device
  }

  function RearmReceipts(s: State, device: DeviceId, user: UserId, peer: UserId, cfg: Settings, now: Time): State {
    s.(receipts := map k | k in s.receipts ::
         if RearmedByRefresh(s, device, user, peer, k)
         then RearmForRefresh(s.receipts[k], s.messages[k.message].Level(), cfg, now)
         else s.receipts[k])
  }

  /** `peers` lists the conversations in scope of an "F *", in the order they are refreshed. */
  ghost function StartRefresh(s: State, device: DeviceId, target: RefreshTarget, peers: seq<UserId>, cfg: Settings,
                              now: Time): (State, nat) {
    var user := SignedInUser(s, device);
    if user.None? then (s, 0)
    else match target
      case AllPeers => RefreshPeers(s, device, user.value, peers, cfg, now)
      case OnePeer(peer) =>
        if peer.None? || peer == user then (s, 0)
        else RefreshPeer(RearmReceipts(s, device, user.value, peer.value, cfg, now), device, user.value, peer.value,
          cfg, now)
  }

  ghost predicate ListsSet(peers: seq<UserId>, all: set<UserId>) {
    && (forall i, j | 0 <= i < j < |peers| :: peers[i] != peers[j])
    && (forall p :: p in peers <==> p in all)
  }

  // ----- the sender loop: preparing packets -----------------------------------------------------

  datatype Candidate = DeliveryCandidate(key: RowKey) | ReceiptCandidate(key: RowKey)

  const CANDIDATE_LIMIT_PER_KIND: nat := 20

  /** The device's deliveries in progress: pending with a round started. */
  function InProgress(s: State, device: DeviceId): set<RowKey> {
    set k | k in s.deliveries && k.device == device && s.deliveries[k].state.Pending?
      && s.deliveries[k].roundStartedAt.Some?
  }

  predicate OnNode(s: State, device: DeviceId) {
    device in s.devices && s.devices[device].onNode
  }

  predicate DueDelivery(s: State, k: RowKey, cfg: Settings, now: Time) {
    && k in s.deliveries
    && var d := s.deliveries[k];
    && d.state.Pending?
    && d.nextAttemptAt.Some? && d.nextAttemptAt.value <= now
    && OnNode(s, k.device)
    && (d.roundStartedAt.Some? || |InProgress(s, k.device)| < cfg.activeLimit)
  }

  predicate DueReceipt(s: State, k: RowKey, now: Time) {
    && k in s.receipts
    && var r := s.receipts[k];
    && r.state.ReceiptPending?
    && r.nextAttemptAt.Some? && r.nextAttemptAt.value <= now
    && OnNode(s, k.device)
  }

  predicate IsDue(s: State, c: Candidate, cfg: Settings, now: Time) {
    match c
    case DeliveryCandidate(k) => DueDelivery(s, k, cfg, now)
    case ReceiptCandidate(k) => DueReceipt(s, k, now)
  }

  function DueTime(s: State, c: Candidate): Time {
    match c
    case DeliveryCandidate(k) =>
      if k in s.deliveries && s.deliveries[k].nextAttemptAt.Some? then s.deliveries[k].nextAttemptAt.value else 0.0
    case ReceiptCandidate(k) =>
      if k in s.receipts && s.receipts[k].nextAttemptAt.Some? then s.receipts[k].nextAttemptAt.value else 0.0
  }

  function CountKind(cands: seq<Candidate>, deliveries: bool): nat {
    if cands == [] then 0
    else (if cands[0].DeliveryCandidate? == deliveries then 1 else 0) + CountKind(cands[1..], deliveries)
  }

  /** What the two candidate queries return, merged by due time, deliveries first on a tie; ids break other ties. */
  ghost predicate IsCandidateList(s: State, cands: seq<Candidate>, cfg: Settings, now: Time) {
    && (forall c | c in cands :: IsDue(s, c, cfg, now))
    && (forall i, j | 0 <= i < j < |cands| ::
          && cands[i] != cands[j]
          && (|| DueTime(s, cands[i]) < DueTime(s, cands[j])
              || (DueTime(s, cands[i]) == DueTime(s, cands[j])
                && !(cands[i].ReceiptCandidate? && cands[j].DeliveryCandidate?))))
    && CountKind(cands, true) <= CANDIDATE_LIMIT_PER_KIND
    && CountKind(cands, false) <= CANDIDATE_LIMIT_PER_KIND
    && (forall c :: IsDue(s, c, cfg, now) && c !in cands ==>
          && CountKind(cands, c.DeliveryCandidate?) == CANDIDATE_LIMIT_PER_KIND
          && forall l | l in cands && l.DeliveryCandidate? == c.DeliveryCandidate? :: DueTime(s, l) <= DueTime(s, c))
  }

  /** The lowest part number of a set, searching upwards. */
  function LowestPart(parts: set<nat>, from: nat, last: nat): (r: Option<nat>)
    ensures r.Some? ==> r.value in parts && from <= r.value <= last
    ensures r.Some? ==> forall i: nat | from <= i < r.value :: i !in parts
    ensures r.None? ==> forall i: nat | from <= i <= last :: i !in parts
    decreases last + 1 - from
  {
    if from > last then None
    else if from in parts then Some(from)
    else LowestPart(parts, from + 1, last)
  }

  function InsertPacket(s: State, p: Packet): (State, Option<PacketId>) {
    (s.(packets := s.packets[s.nextPacketId := p], nextPacketId := s.nextPacketId + 1), Some(s.nextPacketId))
  }

  function PartPacket(k: RowKey, d: Delivery, part: nat): Packet {
    Packet(k, DeliveryPart(part), d.armGeneration, d.attemptCount, Prepared, None, None, None)
  }

  /** Giving up a head ends its session too. */
  function FailExhaustedDelivery(s: State, k: RowKey): State
    requires k in s.deliveries
  {
    var d := s.deliveries[k];
    var head := HeadSession(s, d);
    var s1 := UpdateDelivery(s, k, FailExhausted(d));
    if head.None? then s1 else StopSession(s1, head.value)
  }

  /** The packet of the lowest part left in the row's round. */
  function PrepareLowestPart(s: State, k: RowKey): (State, Option<PacketId>)
    requires k in s.deliveries && k.message in s.messages
  {
    var d := s.deliveries[k];
    match LowestPart(PartsLeft(d), 1, |s.messages[k.message].partTexts|)
    case None => (s, None)
    case Some(part) => InsertPacket(s, PartPacket(k, d, part))
  }

  function PrepareDelivery(s: State, k: RowKey, cfg: Settings, now: Time): (State, Option<PacketId>) {
    if k !in s.deliveries || k.message !in s.messages || !s.deliveries[k].state.Pending? then (s, None) else
      var d := s.deliveries[k];
      if PartsLeft(d) != {} then PrepareLowestPart(s, k)
      else if d.roundParts != {} then (UpdateDelivery(s, k, CompleteRound(d, RoundSuggestion(s, k, d), cfg, now)), None)
      else if d.attemptCount >= d.maximumAttempts then (FailExhaustedDelivery(s, k), None)
      else if d.roundStartedAt.None? && |InProgress(s, k.device)| >= cfg.activeLimit then (s, None)
      else PrepareLowestPart(UpdateDelivery(s, k, StartRound(d, s.messages[k.message].Parts(), now)), k)
  }

  function ReceiptPacket(k: RowKey, r: Receipt): Packet {
    Packet(k, ReceiptPush(r.targetLevel), r.armGeneration, r.attemptCount, Prepared, None, None, None)
  }

  /** A packet for the level the receipt targets now, as one more attempt or as part of the current one. */
  function PrepareReceipt(s: State, k: RowKey, now: Time): (State, Option<PacketId>) {
    if k !in s.receipts || !s.receipts[k].state.ReceiptPending? then (s, None) else
      var r := s.receipts[k];
      if r.roundPending then InsertPacket(s, ReceiptPacket(k, r))
      else if r.attemptCount >= r.maximumAttempts then (s.(receipts := s.receipts[k := FailReceipt(r)]), None)
      else
        var started := StartAttempt(r, now);
        InsertPacket(s.(receipts := s.receipts[k := started]), ReceiptPacket(k, started))
  }

  function PrepareCandidate(s: State, c: Candidate, cfg: Settings, now: Time): (State, Option<PacketId>) {
    match c
    case DeliveryCandidate(k) => PrepareDelivery(s, k, cfg, now)
    case ReceiptCandidate(k) => PrepareReceipt(s, k, now)
  }

  /** Walks the candidates until one yields a packet. */
  function PrepareNext(s: State, cands: seq<Candidate>, cfg: Settings, now: Time): (State, Option<PacketId>)
    decreases |cands|
  {
    if cands == [] then (s, None)
    else
      var first := PrepareCandidate(s, cands[0], cfg, now);
      if first.1.Some? then first else PrepareNext(first.0, cands[1..], cfg, now)
  }

  // ----- the life of a packet -----------------------------------------------------------------

  predicate CountsAsSent(outcome: SendOutcome) {
    !(outcome.Rejected? && (outcome.errorCode == ERR_CODE_NOT_FOUND || outcome.errorCode == ERR_CODE_TABLE_FULL))
  }

  function Suggestion(outcome: SendOutcome): Option<nat> {
    if outcome.SentToNode? then Some(outcome.suggestedTimeout) else None
  }

  function PacketAfter(p: Packet, outcome: SendOutcome, now: Time): Packet {
    match outcome
    case SentToNode(code, timeout) =>
      p.(state := QueuedOnNode, acknowledgementCode := Some(code), suggestedTimeout := Some(timeout),
        queuedAt := Some(now))
    case Rejected(_) => p.(state := RejectedByNode)
    case Unknown => p.(state := OutcomeUnknown)
  }

  /** The row still is in the arm and round the packet was prepared in. */
  predicate MatchesDelivery(s: State, p: Packet) {
    && p.purpose.DeliveryPart?
    && p.row in s.deliveries
    && s.deliveries[p.row].state.Pending?
    && s.deliveries[p.row].armGeneration == p.armGeneration
    && s.deliveries[p.row].attemptCount == p.attemptNumber
  }

  predicate MatchesReceipt(s: State, p: Packet) {
    && p.purpose.ReceiptPush?
    && p.row in s.receipts
    && s.receipts[p.row].state.ReceiptPending?
    && s.receipts[p.row].armGeneration == p.armGeneration
    && s.receipts[p.row].attemptCount == p.attemptNumber
    && s.receipts[p.row].roundPending
  }

  function CountAsSent(s: State, p: Packet, suggestion: Option<nat>, cfg: Settings, now: Time): State {
    if MatchesDelivery(s, p) then
      UpdateDelivery(s, p.row, PartSent(s.deliveries[p.row], p.purpose.part, suggestion, cfg, now))
    else if MatchesReceipt(s, p) then
      s.(receipts := s.receipts[p.row := ReceiptSent(s.receipts[p.row], suggestion, cfg, now)])
    else s
  }

  function MarkMissingOnNode(s: State, device: DeviceId): State {
    if device in s.devices then s.(devices := s.devices[device := s.devices[device].(onNode := false)]) else s
  }

  function RecordOutcome(s: State, id: PacketId, outcome: SendOutcome, cfg: Settings, now: Time): State {
    if id !in s.packets || !s.packets[id].state.Prepared? then s else
      var p := s.packets[id];
      var s1 := if outcome == Rejected(ERR_CODE_NOT_FOUND) then MarkMissingOnNode(s, p.row.device) else s;
      var s2 := if CountsAsSent(outcome) then CountAsSent(s1, p, Suggestion(outcome), cfg, now) else s1;
      s2.(packets := s2.packets[id := PacketAfter(p, outcome, now)])
  }

  const LATE_ACKNOWLEDGEMENT_SECONDS: real := 600.0

  /** A firmware ACK marks every packet that expects its code and was queued in the last ten minutes. */
  function Acknowledged(p: Packet, code: nat, now: Time): Packet {
    if && p.acknowledgementCode == Some(code)
       && (p.state.QueuedOnNode? || p.state.AcknowledgementTimedOut?)
       && p.queuedAt.Some? && now - LATE_ACKNOWLEDGEMENT_SECONDS <= p.queuedAt.value
    then p.(state := NodeAcknowledged) else p
  }

  function RecordNodeAcknowledgement(s: State, code: nat, now: Time): State {
    s.(packets := map id | id in s.packets :: Acknowledged(s.packets[id], code, now))
  }

  function TimedOut(p: Packet): Packet {
    if p.state.QueuedOnNode? then p.(state := AcknowledgementTimedOut) else p
  }

  function RecordDeadline(s: State, id: PacketId): State {
    if id in s.packets then s.(packets := s.packets[id := TimedOut(s.packets[id])]) else s
  }

  /** Without a link no acknowledgement is awaited any longer. */
  function DropAwaiting(s: State): State {
    s.(packets := map id | id in s.packets :: TimedOut(s.packets[id]))
  }

  function Recovered(p: Packet): Packet {
    if p.state.Prepared? then p.(state := OutcomeUnknown) else TimedOut(p)
  }

  /** No packet is left prepared or awaiting after a restart. */
  function RecoverAtStartup(s: State): State {
    s.(packets := map id | id in s.packets :: Recovered(s.packets[id]))
  }

  // ----- devices ------------------------------------------------------------------------------

  /** Cancels the device's live deliveries, its receipts and its active sessions, and moves it to the user. */
  function RelinkDevice(s: State, device: DeviceId, user: UserId): State
    requires device in s.devices
  {
    s.(deliveries := map k | k in s.deliveries ::
      if k.device == device then CancelForRelink(s.deliveries[k]) else s.deliveries[k],
       receipts := map k | k in s.receipts ::
         if k.device == device then CancelReceiptForRelink(s.receipts[k]) else s.receipts[k],
       sessions := map sid | sid in s.sessions ::
         if s.sessions[sid].device == device && s.sessions[sid].state.Active?
         then s.sessions[sid].(state := SessionCancelled) else s.sessions[sid],
       devices := s.devices[device := s.devices[device].(user := Some(user))])
  }

  function LinkDevice(s: State, device: DeviceId, user: UserId): State {
    if device !in s.devices || s.devices[device].user == Some(user) then s
    else if s.devices[device].user.None? then s.(devices := s.devices[device := s.devices[device].(user := Some(user))])
    else RelinkDevice(s, device, user)
  }

  function AddDevice(s: State, device: DeviceId): State {
    if device in s.devices then s else s.(devices := s.devices[device := Device(None, false)])
  }

  function SetOnNode(s: State, device: DeviceId, onNode: bool): State {
    if device in s.devices then s.(devices := s.devices[device := s.devices[device].(onNode := onNode)]) else s
  }

  // ----- one step -----------------------------------------------------------------------------

  datatype Step =
    | PartArrives(request: PartRequest)
    | StatusArrives(device: DeviceId, sender: Option<UserId>, clientId: nat, received: seq<bool>)
    | ReadArrives(device: DeviceId, sender: Option<UserId>, clientId: nat)
    | ConfirmationArrives(device: DeviceId, recipient: Option<UserId>, clientId: nat, level: nat)
    | RefreshArrives(device: DeviceId, target: RefreshTarget, peers: seq<UserId>)
    | PacketPrepared(candidates: seq<Candidate>)
    | OutcomeRecorded(packet: PacketId, outcome: SendOutcome)
    | NodeAcknowledges(code: nat)
    | DeadlinePasses(packet: PacketId)
    | LinkLost
    | WorkerRestarts
    | DeviceLinked(device: DeviceId, user: UserId)
    | DeviceAdded(device: DeviceId)
    | NodeSyncChanges(device: DeviceId, onNode: bool)

  /** The lists a step carries are what the queries return in this state. */
  ghost predicate Enabled(s: State, step: Step, cfg: Settings, now: Time) {
    match step
    case PacketPrepared(cands) => IsCandidateList(s, cands, cfg, now)
    case RefreshArrives(device, AllPeers, peers) =>
      SignedInUser(s, device).Some? ==>
        ListsSet(peers, PeersWithMissedMessages(s, device, SignedInUser(s, device).value))
    case _ => true
  }

  ghost function Apply(s: State, step: Step, cfg: Settings, now: Time): State {
    match step
    case PartArrives(req) => AcceptPart(s, req, cfg, now).0
    case StatusArrives(device, sender, clientId, received) =>
      RecordStatus(s, device, sender, clientId, received, cfg, now)
    case ReadArrives(device, sender, clientId) => RecordRead(s, device, sender, clientId, cfg, now)
    case ConfirmationArrives(device, recipient, clientId, level) =>
      RecordReceiptConfirmation(s, device, recipient, clientId, level)
    case RefreshArrives(device, target, peers) => StartRefresh(s, device, target, peers, cfg, now).0
    case PacketPrepared(cands) => PrepareNext(s, cands, cfg, now).0
    case OutcomeRecorded(id, outcome) => RecordOutcome(s, id, outcome, cfg, now)
    case NodeAcknowledges(code) => RecordNodeAcknowledgement(s, code, now)
    case DeadlinePasses(id) => RecordDeadline(s, id)
    case LinkLost => DropAwaiting(s)
    case WorkerRestarts => RecoverAtStartup(s)
    case DeviceLinked(device, user) => LinkDevice(s, device, user)
    case DeviceAdded(device) => AddDevice(s, device)
    case NodeSyncChanges(device, onNode) => SetOnNode(s, device, onNode)
  }
}
