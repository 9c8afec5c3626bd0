/** HT1 messages as values, the layout of their fields, and what else a text may turn out to be. */
module ProtocolMessages {
  import opened Options
  import opened Texts
  import opened Decimals
  import opened FieldGrammar

  datatype ReceiptLevel = AtDelivered | AtRead

  datatype ProtocolMessage =
    // client to server
    | AccountRequest(username: Text, password: Text)
    | QueryRequest(username: Text)
    | MessagePartRequest(peer: Text, id: nat, partNumber: nat, partCount: nat, partText: Text)
    | DeliveryAcknowledgement(peer: Text, id: nat, receivedSet: Text)
    | ReadRequest(peer: Text, id: nat)
    | ReceiptAcknowledgement(peer: Text, id: nat, level: ReceiptLevel)
    | RefreshRequest(target: Text)
    // server to client
    | AccountReply(username: Text)
    | QueryReply(username: Text, userExists: bool)
    | SendStatusReply(peer: Text, id: nat, receivedSet: Text)
    | PartDelivery(peer: Text, id: nat, partNumber: nat, partCount: nat, partText: Text)
    | ReadReply(peer: Text, id: nat)
    | ReceiptNotice(peer: Text, id: nat, level: ReceiptLevel)
    | RefreshReply(target: Text, messageCount: nat)
    | ErrorReply(code: Text, requestType: Text, reference: Option<Text>)
  {
    predicate IsFromServer() {
      AccountReply? || QueryReply? || SendStatusReply? || PartDelivery? || ReadReply? || ReceiptNotice?
        || RefreshReply? || ErrorReply?
    }

    /** A request the server answers; acknowledgements are never answered. */
    predicate IsAnswerable() {
      AccountRequest? || QueryRequest? || MessagePartRequest? || ReadRequest? || RefreshRequest?
    }
  }

  datatype Parsed =
    | Message(message: ProtocolMessage)
    | OtherText(text: Text)
    | UnsupportedVersion(version: Text, nextCharacter: Text)
    | UnknownMessageType(letter: CodePoint)
    | SyntaxError(requestType: Text, correlationFields: seq<Text>)

  // The letter of each message type: requests and acknowledgements of a client, replies and pushes of the server.
  const ACCOUNT_REQUEST: CodePoint := 65 // A
  const QUERY_REQUEST: CodePoint := 81 // Q
  const MESSAGE_PART_REQUEST: CodePoint := 77 // M
  const DELIVERY_ACKNOWLEDGEMENT: CodePoint := 75 // K
  const READ_REQUEST: CodePoint := 82 // R
  const RECEIPT_ACKNOWLEDGEMENT: CodePoint := 67 // C
  const REFRESH_REQUEST: CodePoint := 70 // F
  const ACCOUNT_REPLY: CodePoint := 97 // a
  const QUERY_REPLY: CodePoint := 113 // q
  const SEND_STATUS_REPLY: CodePoint := 107 // k
  const PART_DELIVERY: CodePoint := 109 // m
  const READ_REPLY: CodePoint := 114 // r
  const RECEIPT_NOTICE: CodePoint := 115 // s
  const REFRESH_REPLY: CodePoint := 102 // f
  const ERROR_REPLY: CodePoint := 101 // e

  /** The letter after "HT1 ". */
  function Letter(m: ProtocolMessage): (c: CodePoint)
    ensures IsLetter(c)
    ensures IsLowerCase(c) <==> m.IsFromServer()
  {
    match m
    case AccountRequest(_, _) => ACCOUNT_REQUEST
    case QueryRequest(_) => QUERY_REQUEST
    case MessagePartRequest(_, _, _, _, _) => MESSAGE_PART_REQUEST
    case DeliveryAcknowledgement(_, _, _) => DELIVERY_ACKNOWLEDGEMENT
    case ReadRequest(_, _) => READ_REQUEST
    case ReceiptAcknowledgement(_, _, _) => RECEIPT_ACKNOWLEDGEMENT
    case RefreshRequest(_) => REFRESH_REQUEST
    case AccountReply(_) => ACCOUNT_REPLY
    case QueryReply(_, _) => QUERY_REPLY
    case SendStatusReply(_, _, _) => SEND_STATUS_REPLY
    case PartDelivery(_, _, _, _, _) => PART_DELIVERY
    case ReadReply(_, _) => READ_REPLY
    case ReceiptNotice(_, _, _) => RECEIPT_NOTICE
    case RefreshReply(_, _) => REFRESH_REPLY
    case ErrorReply(_, _, _) => ERROR_REPLY
  }

  // ----- layouts --------------------------------------------------------------------------------------

  datatype Field =
    | UsernameField
    | IdField
    | TargetField
    | PartNumberingField
    | ReceivedSetField
    | LevelField
    | ExistenceField
    | CountField

  predicate Matches(f: Field, t: Text) {
    match f
    case UsernameField => IsValidUsername(t)
    case IdField => IsMessageIdField(t)
    case TargetField => IsRefreshTargetField(t)
    case PartNumberingField => IsPartField(t)
    case ReceivedSetField => IsReceivedSetField(t)
    case LevelField => IsReceiptLevelField(t)
    case ExistenceField => IsExistenceField(t)
    case CountField => IsMessageCountField(t)
  }

  /** Usernames, ids and refresh targets are repeated by an error reply once they parsed. */
  predicate IsCorrelationField(f: Field) {
    f.UsernameField? || f.IdField? || f.TargetField?
  }

  /** The fields after the letter; a tail takes everything after the last header field verbatim. */
  datatype Layout = Layout(header: seq<Field>, hasTail: bool)

  function LayoutOf(letter: CodePoint): Option<Layout> {
    match letter
    case ACCOUNT_REQUEST => Some(Layout([UsernameField], true))
    case QUERY_REQUEST => Some(Layout([UsernameField], false))
    case MESSAGE_PART_REQUEST => Some(Layout([UsernameField, IdField, PartNumberingField], true))
    case DELIVERY_ACKNOWLEDGEMENT => Some(Layout([UsernameField, IdField, ReceivedSetField], false))
    case READ_REQUEST => Some(Layout([UsernameField, IdField], false))
    case RECEIPT_ACKNOWLEDGEMENT => Some(Layout([UsernameField, IdField, LevelField], false))
    case REFRESH_REQUEST => Some(Layout([TargetField], false))
    case ACCOUNT_REPLY => Some(Layout([UsernameField], false))
    case QUERY_REPLY => Some(Layout([UsernameField, ExistenceField], false))
    case SEND_STATUS_REPLY => Some(Layout([UsernameField, IdField, ReceivedSetField], false))
    case PART_DELIVERY => Some(Layout([UsernameField, IdField, PartNumberingField], true))
    case READ_REPLY => Some(Layout([UsernameField, IdField], false))
    case RECEIPT_NOTICE => Some(Layout([UsernameField, IdField, LevelField], false))
    case REFRESH_REPLY => Some(Layout([TargetField, CountField], false))
    case _ => None
  }

  function ExpectedCount(l: Layout): nat {
    if l.hasTail then |l.header| + 1 else |l.header|
  }

  predicate MatchesLayout(l: Layout, fields: seq<Text>) {
    && |fields| == ExpectedCount(l)
    && (forall i | 0 <= i < |l.header| :: Matches(l.header[i], fields[i]))
    && (l.hasTail ==> IsTailField(fields[|fields| - 1]))
  }

  function ReadLevel(t: Text): ReceiptLevel {
    if t == Chars("R") then AtRead else AtDelivered
  }

  function ShowLevel(l: ReceiptLevel): Text {
    if l.AtRead? then Chars("R") else Chars("D")
  }

  function ShowPart(number: nat, count: nat): Text {
    Decimal(number) + [SLASH] + Decimal(count)
  }

  /** The message of a letter and fields that match its layout. */
  function Build(letter: CodePoint, fields: seq<Text>): ProtocolMessage
    requires LayoutOf(letter).Some? && MatchesLayout(LayoutOf(letter).value, fields)
  {
    var layout := LayoutOf(letter).value;
    assert forall i | 0 <= i < |layout.header| :: Matches(layout.header[i], fields[i]);
    match letter
    case ACCOUNT_REQUEST => AccountRequest(fields[0], fields[1])
    case QUERY_REQUEST => QueryRequest(fields[0])
    case MESSAGE_PART_REQUEST =>
      assert Matches(layout.header[1], fields[1]) && Matches(layout.header[2], fields[2]);
      MessagePartRequest(fields[0], Value(fields[1]), ReadPartField(fields[2]).0, ReadPartField(fields[2]).1, fields[3])
    case DELIVERY_ACKNOWLEDGEMENT => assert Matches(layout.header[1], fields[1]);
      DeliveryAcknowledgement(fields[0], Value(fields[1]), fields[2])
    case READ_REQUEST => assert Matches(layout.header[1], fields[1]); ReadRequest(fields[0], Value(fields[1]))
    case RECEIPT_ACKNOWLEDGEMENT => assert Matches(layout.header[1], fields[1]);
      ReceiptAcknowledgement(fields[0], Value(fields[1]), ReadLevel(fields[2]))
    case REFRESH_REQUEST => RefreshRequest(fields[0])
    case ACCOUNT_REPLY => AccountReply(fields[0])
    case QUERY_REPLY => QueryReply(fields[0], fields[1] == [49])
    case SEND_STATUS_REPLY => assert Matches(layout.header[1], fields[1]);
      SendStatusReply(fields[0], Value(fields[1]), fields[2])
    case PART_DELIVERY =>
      assert Matches(layout.header[1], fields[1]) && Matches(layout.header[2], fields[2]);
      PartDelivery(fields[0], Value(fields[1]), ReadPartField(fields[2]).0, ReadPartField(fields[2]).1, fields[3])
    case READ_REPLY => assert Matches(layout.header[1], fields[1]); ReadReply(fields[0], Value(fields[1]))
    case RECEIPT_NOTICE => assert Matches(layout.header[1], fields[1]);
      ReceiptNotice(fields[0], Value(fields[1]), ReadLevel(fields[2]))
    case REFRESH_REPLY => assert Matches(layout.header[1], fields[1]); RefreshReply(fields[0], Value(fields[1]))
  }

  /** The fields of a message other than an error reply, as they are written. */
  function Fields(m: ProtocolMessage): seq<Text>
    requires !m.ErrorReply?
  {
    match m
    case AccountRequest(username, password) => [username, password]
    case QueryRequest(username) => [username]
    case MessagePartRequest(peer, id, number, count, text) => [peer, Decimal(id), ShowPart(number, count), text]
    case DeliveryAcknowledgement(peer, id, received) => [peer, Decimal(id), received]
    case ReadRequest(peer, id) => [peer, Decimal(id)]
    case ReceiptAcknowledgement(peer, id, level) => [peer, Decimal(id), ShowLevel(level)]
    case RefreshRequest(target) => [target]
    case AccountReply(username) => [username]
    case QueryReply(username, userExists) => [username, if userExists then [49] else [48]]
    case SendStatusReply(peer, id, received) => [peer, Decimal(id), received]
    case PartDelivery(peer, id, number, count, text) => [peer, Decimal(id), ShowPart(number, count), text]
    case ReadReply(peer, id) => [peer, Decimal(id)]
    case ReceiptNotice(peer, id, level) => [peer, Decimal(id), ShowLevel(level)]
    case RefreshReply(target, count) => [target, Decimal(count)]
  }

  function ErrorFields(code: Text, requestType: Text, reference: Option<Text>): seq<Text> {
    [code, requestType] + (if reference.Some? then [reference.value] else [])
  }

  // ----- grammar-valid messages ------------------------------------------------------------------------

  predicate IsMessageId(id: nat) {
    1 <= id <= MESSAGE_ID_MAXIMUM
  }

  predicate IsTwoDigits(n: nat) {
    1 <= n <= 99
  }

  /** Every field value is one the grammar can carry. */
  predicate InGrammar(m: ProtocolMessage) {
    match m
    case AccountRequest(username, password) => IsValidUsername(username) && IsTailField(password)
    case QueryRequest(username) => IsValidUsername(username)
    case MessagePartRequest(peer, id, number, count, text) =>
      IsValidUsername(peer) && IsMessageId(id) && IsTwoDigits(number) && IsTwoDigits(count) && IsTailField(text)
    case DeliveryAcknowledgement(peer, id, received) =>
      IsValidUsername(peer) && IsMessageId(id) && IsReceivedSetField(received)
    case ReadRequest(peer, id) => IsValidUsername(peer) && IsMessageId(id)
    case ReceiptAcknowledgement(peer, id, _) => IsValidUsername(peer) && IsMessageId(id)
    case RefreshRequest(target) => IsRefreshTargetField(target)
    case AccountReply(username) => IsValidUsername(username)
    case QueryReply(username, _) => IsValidUsername(username)
    case SendStatusReply(peer, id, received) => IsValidUsername(peer) && IsMessageId(id) && IsReceivedSetField(received)
    case PartDelivery(peer, id, number, count, text) =>
      IsValidUsername(peer) && IsMessageId(id) && IsTwoDigits(number) && IsTwoDigits(count) && IsTailField(text)
    case ReadReply(peer, id) => IsValidUsername(peer) && IsMessageId(id)
    case ReceiptNotice(peer, id, _) => IsValidUsername(peer) && IsMessageId(id)
    case RefreshReply(target, count) => IsRefreshTargetField(target) && count <= 9999
    case ErrorReply(code, requestType, reference) =>
      IsErrorCodeField(code) && IsRequestTypeField(requestType)
        && (reference.Some? ==> IsErrorReferenceField(reference.value))
  }
}
