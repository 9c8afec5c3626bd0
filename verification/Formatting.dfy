/** Writing a message as the text of one direct message; a message that breaks a rule has no text. */
module Formatting {
  import opened Options
  import opened Texts
  import opened FieldGrammar
  import opened ProtocolMessages

  const DIRECT_MESSAGE_MAXIMUM_BYTES := 150
  const PART_HEADER_MAXIMUM_BYTES := 46
  const REFRESH_REPLY_MAXIMUM_MESSAGE_COUNT := 9999

  const PREFIX: Text := Chars("HT1 ")

  predicate IsPartNumbering(number: nat, count: nat) {
    1 <= number <= count <= MAXIMUM_PART_COUNT
  }

  predicate HasControl(t: Text) {
    exists i | 0 <= i < |t| :: IsControl(t[i])
  }

  predicate HasSurrogate(t: Text) {
    exists i | 0 <= i < |t| :: IsSurrogate(t[i])
  }

  /** The rules for a password in normal form. */
  predicate IsValidPassword(t: Text) {
    && !HasSurrogate(t)
    && !HasControl(t)
    && 8 <= |t| <= 64
    && t[0] != SPACE
    && t[|t| - 1] != SPACE
    && Utf8Bytes(t) <= 64
  }

  /** What each formatter checks before it writes; `nfc` is Unicode normalisation form C. */
  predicate Writable(m: ProtocolMessage, nfc: Text -> Text) {
    match m
    case AccountRequest(username, password) => IsValidPassword(nfc(password)) && IsValidUsername(username)
    case QueryRequest(username) => IsValidUsername(username)
    case MessagePartRequest(peer, id, number, count, text) =>
      IsValidUsername(peer) && IsMessageId(id) && IsPartNumbering(number, count) && IsValidPartText(text)
    case DeliveryAcknowledgement(peer, id, received) =>
      IsValidUsername(peer) && IsMessageId(id) && IsReceivedSetField(received)
    case ReadRequest(peer, id) => IsValidUsername(peer) && IsMessageId(id)
    case ReceiptAcknowledgement(peer, id, level) => IsValidUsername(peer) && IsMessageId(id)
    case RefreshRequest(target) => IsRefreshTargetField(target)
    case AccountReply(username) => IsValidUsername(username)
    case QueryReply(username, _) => IsValidUsername(username)
    case SendStatusReply(peer, id, received) => IsValidUsername(peer) && IsMessageId(id) && IsReceivedSetField(received)
    case PartDelivery(peer, id, number, count, text) =>
      IsValidUsername(peer) && IsMessageId(id) && IsPartNumbering(number, count) && IsValidPartText(text)
    case ReadReply(peer, id) => IsValidUsername(peer) && IsMessageId(id)
    case ReceiptNotice(peer, id, level) => IsValidUsername(peer) && IsMessageId(id)
    case RefreshReply(target, _) => IsRefreshTargetField(target)
    case ErrorReply(code, requestType, reference) =>
      IsErrorCodeField(code) && IsRequestTypeField(requestType)
        && (reference.Some? ==> IsErrorReferenceField(reference.value))
  }

  /** A refresh reply shows at most 9999 messages. */
  function Shown(m: ProtocolMessage): ProtocolMessage {
    if m.RefreshReply? && m.messageCount > REFRESH_REPLY_MAXIMUM_MESSAGE_COUNT
    then m.(messageCount := REFRESH_REPLY_MAXIMUM_MESSAGE_COUNT) else m
  }

  function WrittenFields(m: ProtocolMessage): (fields: seq<Text>)
    ensures |fields| >= 1
  {
    match m
    case ErrorReply(code, requestType, reference) => ErrorFields(code, requestType, reference)
    case _ => Fields(Shown(m))
  }

  function Written(m: ProtocolMessage): Text {
    PREFIX + JoinFields([[Letter(m)]] + WrittenFields(m))
  }

  /** Within the byte limit, and every character can travel. */
  predicate IsSendable(t: Text) {
    && |t| >= |PREFIX| && t[..|PREFIX|] == PREFIX
    && NUL !in t
    && !HasSurrogate(t)
    && Utf8Bytes(t) <= DIRECT_MESSAGE_MAXIMUM_BYTES
  }

  /** The text of a message, or none where the formatter raises. */
  function Format(m: ProtocolMessage, nfc: Text -> Text): Option<Text> {
    if Writable(m, nfc) && IsSendable(Written(m)) then Some(Written(m)) else None
  }
}
