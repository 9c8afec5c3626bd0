/**
 The rows of the delivery engine's tables. A message is identified by its sender and the id the
 client chose, which the database keeps unique; a delivery or a receipt by its message and device.
 The database's own message id is kept as a field, because acceptance order breaks ties by it.
 */
module Tables {
  import opened Options
  import opened Texts
  import opened Times

  type UserId = nat
  type DeviceId = nat
  type SessionId = nat
  type PacketId = nat

  datatype MessageKey = MessageKey(sender: UserId, clientId: nat)
  datatype RowKey = RowKey(message: MessageKey, device: DeviceId)

  /** A contact, and the user who signed in on it. */
  datatype Device = Device(user: Option<UserId>, onNode: bool)

  datatype Message = Message(
    id: nat,
    recipient: UserId,
    senderDevice: DeviceId,
    partTexts: seq<Option<Text>>,
    text: Option<Text>,
    acceptedAt: Option<Time>,
    deliveredAt: Option<Time>,
    readAt: Option<Time>)
  {
    /** How far the message got: nowhere, delivered, or read. */
    function Level(): nat {
      if readAt.Some? then 2 else if deliveredAt.Some? then 1 else 0
    }

    function Parts(): set<nat> {
      AllParts(|partTexts|)
    }
  }

  /** The part numbers of a message of n parts. */
  function AllParts(n: nat): (parts: set<nat>)
    ensures forall i: nat :: i in parts <==> 1 <= i <= n
  {
    if n == 0 then {} else AllParts(n - 1) + {n}
  }

  datatype DeliveryState = Pending | Queued | Delivered | Failed | Cancelled

  datatype Delivery = Delivery(
    state: DeliveryState,
    session: Option<SessionId>,
    attemptCount: nat,
    maximumAttempts: nat,
    armGeneration: nat,
    nextAttemptAt: Option<Time>,
    roundParts: set<nat>,
    receivedParts: set<nat>,
    roundStartedAt: Option<Time>,
    lastSentAt: Option<Time>)
  {
    /** The row may still be delivered, and a relink cancels it. */
    predicate Live() {
      state.Pending? || state.Queued? || state.Failed?
    }
  }

  datatype SessionState = Active | Completed | Stopped | SessionCancelled

  datatype Session = Session(device: DeviceId, peer: UserId, state: SessionState, messagesTotal: nat)

  datatype ReceiptState = ReceiptPending | Confirmed | ReceiptFailed | ReceiptCancelled

  datatype Receipt = Receipt(
    state: ReceiptState,
    targetLevel: nat,
    confirmedLevel: nat,
    attemptCount: nat,
    maximumAttempts: nat,
    armGeneration: nat,
    roundPending: bool,
    nextAttemptAt: Option<Time>,
    roundStartedAt: Option<Time>,
    lastSentAt: Option<Time>)

  datatype Purpose =
    | DeliveryPart(part: nat)
    | ReceiptPush(level: nat)

  datatype PacketState =
    | Prepared
    | QueuedOnNode
    | NodeAcknowledged
    | AcknowledgementTimedOut
    | RejectedByNode
    | OutcomeUnknown

  /** A packet, with its row's arm and attempt as they were when it was prepared. */
  datatype Packet = Packet(
    row: RowKey,
    purpose: Purpose,
    armGeneration: nat,
    attemptNumber: nat,
    state: PacketState,
    suggestedTimeout: Option<nat>,
    acknowledgementCode: Option<nat>,
    queuedAt: Option<Time>)

  /** What the node answered to a send. */
  datatype SendOutcome =
    | SentToNode(acknowledgementCode: nat, suggestedTimeout: nat)
    | Rejected(errorCode: nat)
    | Unknown

  const ERR_CODE_NOT_FOUND: nat := 2
  const ERR_CODE_TABLE_FULL: nat := 3

  /** Every table of the delivery engine. */
  datatype State = State(
    devices: map<DeviceId, Device>,
    messages: map<MessageKey, Message>,
    deliveries: map<RowKey, Delivery>,
    sessions: map<SessionId, Session>,
    receipts: map<RowKey, Receipt>,
    packets: map<PacketId, Packet>,
    nextMessageId: nat,
    nextSessionId: nat,
    nextPacketId: nat)
}
