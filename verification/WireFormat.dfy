/** How each HT1 message looks on the air, written out kind by kind. */
module WireFormat {
  import opened Options
  import opened Texts
  import opened Decimals
  import opened FieldGrammar
  import opened ProtocolMessages
  import opened Parsing
  import opened Formatting
  import opened RoundTrips

  function User(kind: Text, name: Text): Text {
    Chars("HT1 ") + kind + Chars(" ") + name
  }

  function UserAndId(kind: Text, name: Text, id: nat): Text {
    User(kind, name) + Chars(" ") + Decimal(id)
  }

  function Part(kind: Text, name: Text, id: nat, number: nat, count: nat, text: Text): Text {
    UserAndId(kind, name, id) + Chars(" ") + Decimal(number) + Chars("/") + Decimal(count) + Chars(" ") + text
  }

  function LevelText(level: ReceiptLevel): Text {
    if level.AtDelivered? then Chars("D") else Chars("R")
  }

  function Wire(m: ProtocolMessage): Text {
    match m
    case AccountRequest(username, password) => User(Chars("A"), username) + Chars(" ") + password
    case QueryRequest(username) => User(Chars("Q"), username)
    case MessagePartRequest(peer, id, number, count, text) => Part(Chars("M"), peer, id, number, count, text)
    case DeliveryAcknowledgement(peer, id, received) => UserAndId(Chars("K"), peer, id) + Chars(" ") + received
    case ReadRequest(peer, id) => UserAndId(Chars("R"), peer, id)
    case ReceiptAcknowledgement(peer, id, level) => UserAndId(Chars("C"), peer, id) + Chars(" ") + LevelText(level)
    case RefreshRequest(target) => User(Chars("F"), target)
    case AccountReply(username) => User(Chars("a"), username)
    case QueryReply(username, known) =>
      User(Chars("q"), username) + Chars(" ") + (if known then Chars("1") else Chars("0"))
    case SendStatusReply(peer, id, received) => UserAndId(Chars("k"), peer, id) + Chars(" ") + received
    case PartDelivery(peer, id, number, count, text) => Part(Chars("m"), peer, id, number, count, text)
    case ReadReply(peer, id) => UserAndId(Chars("r"), peer, id)
    case ReceiptNotice(peer, id, level) => UserAndId(Chars("s"), peer, id) + Chars(" ") + LevelText(level)
    case RefreshReply(target, count) =>
      User(Chars("f"), target) + Chars(" ") + Decimal(if count > 9999 then 9999 else count)
    case ErrorReply(code, requestType, reference) =>
      if reference.Some? then User(Chars("e"), code) + Chars(" ") + requestType + Chars(" ") + reference.value
      else User(Chars("e"), code) + Chars(" ") + requestType
  }

  lemma JoinStep(first: Text, fields: seq<Text>)
    requires |fields| >= 1
    ensures JoinFields([first] + fields) == first + Chars(" ") + JoinFields(fields)
  {
    assert ([first] + fields)[1..] == fields && Chars(" ") == [SPACE];
  }

  lemma Regroup(start: Text, first: Text, rest: Text)
    ensures start + (first + Chars(" ") + rest) == start + first + Chars(" ") + rest
  {
  }

  /** What stands before the first field. */
  function Start(kind: CodePoint): Text {
    PREFIX + [kind] + Chars(" ")
  }

  lemma StartOfUser(kind: CodePoint, a: Text)
    ensures User([kind], a) == Start(kind) + a
  {
  }

  lemma StartOfFields(kind: CodePoint, fields: seq<Text>)
    requires |fields| >= 1
    ensures PREFIX + JoinFields([[kind]] + fields) == Start(kind) + JoinFields(fields)
  {
    JoinStep([kind], fields);
    Regroup(PREFIX, [kind], JoinFields(fields));
  }

  lemma OneField(kind: CodePoint, a: Text)
    ensures PREFIX + JoinFields([[kind]] + [a]) == User([kind], a)
  {
    StartOfFields(kind, [a]);
    StartOfUser(kind, a);
  }

  lemma TwoFields(kind: CodePoint, a: Text, b: Text)
    ensures PREFIX + JoinFields([[kind]] + [a, b]) == User([kind], a) + Chars(" ") + b
  {
    StartOfFields(kind, [a, b]);
    StartOfUser(kind, a);
    JoinTwo(a, b);
    Regroup(Start(kind), a, b);
  }

  lemma JoinTwo(a: Text, b: Text)
    ensures JoinFields([a, b]) == a + Chars(" ") + b
  {
    JoinStep(a, [b]);
    assert [a] + [b] == [a, b];
  }

  lemma ThreeFields(kind: CodePoint, a: Text, b: Text, c: Text)
    ensures PREFIX + JoinFields([[kind]] + [a, b, c]) == User([kind], a) + Chars(" ") + b + Chars(" ") + c
  {
    TwoFields(kind, a, JoinFields([b, c]));
    JoinTwo(a, JoinFields([b, c]));
    StartOfFields(kind, [a, JoinFields([b, c])]);
    StartOfFields(kind, [a, b, c]);
    JoinStep(a, [b, c]);
    assert [a] + [b, c] == [a, b, c];
    JoinTwo(b, c);
    Regroup(User([kind], a) + Chars(" "), b, c);
  }

  lemma FourFields(kind: CodePoint, a: Text, b: Text, c: Text, d: Text)
    ensures PREFIX + JoinFields([[kind]] + [a, b, c, d]) ==
      User([kind], a) + Chars(" ") + b + Chars(" ") + c + Chars(" ") + d
  {
    ThreeFields(kind, a, b, JoinFields([c, d]));
    StartOfFields(kind, [a, b, JoinFields([c, d])]);
    StartOfFields(kind, [a, b, c, d]);
    JoinTwo(c, d);
    JoinStep(a, [b, c, d]);
    JoinStep(b, [c, d]);
    JoinStep(a, [b, JoinFields([c, d])]);
    JoinTwo(b, JoinFields([c, d]));
    assert [a] + [b, c, d] == [a, b, c, d] && [b] + [c, d] == [b, c, d];
    assert [a] + [b, JoinFields([c, d])] == [a, b, JoinFields([c, d])];
    Regroup(User([kind], a) + Chars(" ") + b + Chars(" "), c, d);
  }

  lemma PartOnWire(kind: CodePoint, name: Text, id: nat, number: nat, count: nat, text: Text)
    ensures PREFIX + JoinFields([[kind]] + [name, Decimal(id), ShowPart(number, count), text])
         == Part([kind], name, id, number, count, text)
  {
    FourFields(kind, name, Decimal(id), ShowPart(number, count), text);
    assert Chars("/") == [SLASH];
    var start := UserAndId([kind], name, id) + Chars(" ");
    assert start + (Decimal(number) + Chars("/") + Decimal(count))
      == start + Decimal(number) + Chars("/") + Decimal(count);
  }

  lemma ErrorOnWire(code: Text, requestType: Text, reference: Option<Text>)
    ensures Written(ErrorReply(code, requestType, reference)) == Wire(ErrorReply(code, requestType, reference))
  {
    assert Chars("e") == [ERROR_REPLY];
    if reference.Some? {
      ThreeFields(ERROR_REPLY, code, requestType, reference.value);
      assert ErrorFields(code, requestType, reference) == [code, requestType, reference.value];
    } else {
      TwoFields(ERROR_REPLY, code, requestType);
      assert ErrorFields(code, requestType, reference) == [code, requestType];
    }
  }

  lemma KindLetters()
    ensures Chars("A") == [ACCOUNT_REQUEST] && Chars("Q") == [QUERY_REQUEST] && Chars("M") == [MESSAGE_PART_REQUEST]
    ensures Chars("K") == [DELIVERY_ACKNOWLEDGEMENT] && Chars("R") == [READ_REQUEST]
    ensures Chars("C") == [RECEIPT_ACKNOWLEDGEMENT] && Chars("F") == [REFRESH_REQUEST]
    ensures Chars("a") == [ACCOUNT_REPLY] && Chars("q") == [QUERY_REPLY] && Chars("k") == [SEND_STATUS_REPLY]
    ensures Chars("m") == [PART_DELIVERY] && Chars("r") == [READ_REPLY] && Chars("s") == [RECEIPT_NOTICE]
    ensures Chars("f") == [REFRESH_REPLY] && Chars("1") == [49] && Chars("0") == [48]
  {
  }

  lemma RequestOnWire(m: ProtocolMessage)
    requires !m.IsFromServer()
    ensures Written(m) == Wire(m)
  {
    KindLetters();
    match m
    case AccountRequest(username, password) => TwoFields(ACCOUNT_REQUEST, username, password);
    case QueryRequest(username) => OneField(QUERY_REQUEST, username);
    case MessagePartRequest(peer, id, number, count, text) =>
      PartOnWire(MESSAGE_PART_REQUEST, peer, id, number, count, text);
    case DeliveryAcknowledgement(peer, id, received) =>
      ThreeFields(DELIVERY_ACKNOWLEDGEMENT, peer, Decimal(id), received);
    case ReadRequest(peer, id) => TwoFields(READ_REQUEST, peer, Decimal(id));
    case ReceiptAcknowledgement(peer, id, level) =>
      ThreeFields(RECEIPT_ACKNOWLEDGEMENT, peer, Decimal(id), ShowLevel(level));
    case RefreshRequest(target) => OneField(REFRESH_REQUEST, target);
  }

  lemma ReplyOnWire(m: ProtocolMessage)
    requires m.IsFromServer() && !m.ErrorReply?
    ensures Written(m) == Wire(m)
  {
    KindLetters();
    match m
    case AccountReply(username) => OneField(ACCOUNT_REPLY, username);
    case QueryReply(username, known) => TwoFields(QUERY_REPLY, username, if known then [49] else [48]);
    case SendStatusReply(peer, id, received) => ThreeFields(SEND_STATUS_REPLY, peer, Decimal(id), received);
    case PartDelivery(peer, id, number, count, text) => PartOnWire(PART_DELIVERY, peer, id, number, count, text);
    case ReadReply(peer, id) => TwoFields(READ_REPLY, peer, Decimal(id));
    case ReceiptNotice(peer, id, level) => ThreeFields(RECEIPT_NOTICE, peer, Decimal(id), ShowLevel(level));
    case RefreshReply(target, count) => TwoFields(REFRESH_REPLY, target, Decimal(Shown(m).messageCount));
  }

  lemma WrittenIsWire(m: ProtocolMessage)
    ensures Written(m) == Wire(m)
  {
    if m.ErrorReply? {
      ErrorOnWire(m.code, m.requestType, m.reference);
    } else if m.IsFromServer() {
      ReplyOnWire(m);
    } else {
      RequestOnWire(m);
    }
  }

  /** Whatever is formatted looks like this on the air, and is read back from it. */
  lemma FormattedIsWire(m: ProtocolMessage, nfc: Text -> Text)
    requires Format(m, nfc).Some?
    ensures Format(m, nfc).value == Wire(m) && Parse(Wire(m)) == Message(Shown(m))
  {
    WrittenIsWire(m);
    ParseOfFormat(m, nfc);
  }

  /** A text that reads as a message is the message's text on the air. */
  lemma ParsedIsWire(t: Text)
    requires Parse(t).Message?
    ensures t == Wire(Parse(t).message)
  {
    TextOfParsed(t);
    WrittenIsWire(Parse(t).message);
  }
}
