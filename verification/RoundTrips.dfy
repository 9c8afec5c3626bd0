/** The parser and the formatter undo each other, and every text the server writes fits one direct message. */
module RoundTrips {
  import opened Options
  import opened Texts
  import opened Decimals
  import opened FieldGrammar
  import opened ProtocolMessages
  import opened Parsing
  import opened Formatting

  // ----- single fields ----------------------------------------------------------------------------------

  lemma {:induction false} PowersMultiply(a: nat, b: nat)
    ensures PowerOfTen(a + b) == PowerOfTen(a) * PowerOfTen(b)
  {
    if a > 0 {
      PowersMultiply(a - 1, b);
      assert a + b - 1 == a - 1 + b;
    }
  }

  lemma LevelWritten(l: ReceiptLevel)
    ensures IsReceiptLevelField(ShowLevel(l)) && ReadLevel(ShowLevel(l)) == l
  {
    assert Chars("D")[0] != Chars("R")[0];
  }

  lemma SixteenDigits()
    ensures PowerOfTen(16) == MESSAGE_ID_MAXIMUM + 1
  {
    assert PowerOfTen(4) == 10000;
    PowersMultiply(4, 4);
    PowersMultiply(8, 8);
  }

  lemma IdWritten(id: nat)
    requires IsMessageId(id)
    ensures IsMessageIdField(Decimal(id)) && Value(Decimal(id)) == id
  {
    SixteenDigits();
    DigitsBound(id, 16);
    ValueOfDecimal(id);
  }

  lemma IdRead(t: Text)
    requires IsMessageIdField(t)
    ensures IsMessageId(Value(t)) && Decimal(Value(t)) == t
  {
    SixteenDigits();
    DecimalOfValue(t);
    DigitsBound(Value(t), 16);
  }

  lemma SmallNumberWritten(n: nat)
    requires IsTwoDigits(n)
    ensures IsPartNumberField(Decimal(n)) && Value(Decimal(n)) == n
  {
    assert PowerOfTen(2) == 100;
    DigitsBound(n, 2);
    ValueOfDecimal(n);
  }

  lemma SmallNumberRead(t: Text)
    requires IsPartNumberField(t)
    ensures IsTwoDigits(Value(t)) && Decimal(Value(t)) == t
  {
    assert PowerOfTen(2) == 100;
    DecimalOfValue(t);
    DigitsBound(Value(t), 2);
  }

  lemma PartWritten(number: nat, count: nat)
    requires IsTwoDigits(number) && IsTwoDigits(count)
    ensures IsPartField(ShowPart(number, count)) && ReadPartField(ShowPart(number, count)) == (number, count)
  {
    SmallNumberWritten(number);
    SmallNumberWritten(count);
    var t := ShowPart(number, count);
    var i := |Decimal(number)|;
    assert t[..i] == Decimal(number) && t[i] == SLASH && t[i + 1..] == Decimal(count);
    assert i == 2 ==> t[1] == Decimal(number)[1];
    assert SlashAt(t) == i;
  }

  lemma PartRead(t: Text)
    requires IsPartField(t)
    ensures var (number, count) := ReadPartField(t);
      IsTwoDigits(number) && IsTwoDigits(count) && ShowPart(number, count) == t
  {
    var i := SlashAt(t);
    SmallNumberRead(t[..i]);
    SmallNumberRead(t[i + 1..]);
    assert t == t[..i] + [SLASH] + t[i + 1..];
  }

  lemma CountWritten(n: nat)
    requires n <= 9999
    ensures IsMessageCountField(Decimal(n)) && Value(Decimal(n)) == n
  {
    assert PowerOfTen(4) == 10000;
    DigitsBound(n, 4);
    ValueOfDecimal(n);
  }

  lemma CountRead(t: Text)
    requires IsMessageCountField(t)
    ensures AllDigits(t) && Value(t) <= 9999 && Decimal(Value(t)) == t
  {
    assert PowerOfTen(4) == 10000;
    if t == [ZERO] {
      assert t[..0] == [];
    } else {
      DecimalOfValue(t);
      DigitsBound(Value(t), 4);
    }
  }

  /** No header field holds a space. */
  lemma HeaderHasNoSpace(f: Field, t: Text)
    requires Matches(f, t)
    ensures NoSpace(t)
  {
    if f.PartNumberingField? {
      var i := SlashAt(t);
      forall j | 0 <= j < |t| ensures t[j] != SPACE {
        if j < i {
          assert t[..i][j] == t[j];
        } else if j > i {
          assert t[i + 1..][j - i - 1] == t[j];
        }
      }
    }
  }

  // ----- fields and messages ------------------------------------------------------------------------------

  ghost predicate Reread(m: ProtocolMessage)
    requires !m.ErrorReply?
  {
    && LayoutOf(Letter(m)).Some?
    && MatchesLayout(LayoutOf(Letter(m)).value, Fields(m))
    && Build(Letter(m), Fields(m)) == m
  }

  lemma PartFieldsMatch(peer: Text, id: nat, number: nat, count: nat, text: Text)
    requires IsValidUsername(peer) && IsMessageId(id) && IsTwoDigits(number) && IsTwoDigits(count) && IsTailField(text)
    ensures MatchesLayout(Layout([UsernameField, IdField, PartNumberingField], true),
      [peer, Decimal(id), ShowPart(number, count), text])
    ensures Value(Decimal(id)) == id
    ensures IsPartField(ShowPart(number, count)) && ReadPartField(ShowPart(number, count)) == (number, count)
  {
    IdWritten(id);
    PartWritten(number, count);
  }

  lemma RereadPart(m: ProtocolMessage)
    requires (m.MessagePartRequest? || m.PartDelivery?) && InGrammar(m)
    ensures Reread(m)
  {
    PartFieldsMatch(m.peer, m.id, m.partNumber, m.partCount, m.partText);
    assert Fields(m) == [m.peer, Decimal(m.id), ShowPart(m.partNumber, m.partCount), m.partText];
  }

  lemma RereadReport(m: ProtocolMessage)
    requires (m.DeliveryAcknowledgement? || m.SendStatusReply? || m.ReadRequest? || m.ReadReply?) && InGrammar(m)
    ensures Reread(m)
  {
    IdWritten(m.id);
  }

  lemma RereadLevel(m: ProtocolMessage)
    requires (m.ReceiptAcknowledgement? || m.ReceiptNotice?) && InGrammar(m)
    ensures Reread(m)
  {
    IdWritten(m.id);
    LevelWritten(m.level);
  }

  lemma RereadName(m: ProtocolMessage)
    requires m.AccountRequest? || m.QueryRequest? || m.RefreshRequest? || m.AccountReply? || m.QueryReply?
      || m.RefreshReply?
    requires InGrammar(m)
    ensures Reread(m)
  {
    if m.RefreshReply? {
      CountWritten(m.messageCount);
    }
  }

  /** Writing the fields of a message and building a message from them are inverse, one way ... */
  lemma BuildOfFields(m: ProtocolMessage)
    requires !m.ErrorReply? && InGrammar(m)
    ensures Reread(m)
  {
    if m.MessagePartRequest? || m.PartDelivery? {
      RereadPart(m);
    } else if m.DeliveryAcknowledgement? || m.SendStatusReply? || m.ReadRequest? || m.ReadReply? {
      RereadReport(m);
    } else if m.ReceiptAcknowledgement? || m.ReceiptNotice? {
      RereadLevel(m);
    } else {
      RereadName(m);
    }
  }

  ghost predicate Rebuilt(letter: CodePoint, fields: seq<Text>)
    requires LayoutOf(letter).Some? && MatchesLayout(LayoutOf(letter).value, fields)
  {
    var m := Build(letter, fields);
    !m.ErrorReply? && Letter(m) == letter && Fields(m) == fields && InGrammar(m)
  }

  lemma RebuiltName(letter: CodePoint, fields: seq<Text>)
    requires letter in {ACCOUNT_REQUEST, QUERY_REQUEST, REFRESH_REQUEST, ACCOUNT_REPLY}
      && MatchesLayout(LayoutOf(letter).value, fields)
    ensures Rebuilt(letter, fields)
  {
    assert Matches(LayoutOf(letter).value.header[0], fields[0]);
  }

  lemma RebuiltPair(letter: CodePoint, fields: seq<Text>)
    requires letter in {QUERY_REPLY, REFRESH_REPLY} && MatchesLayout(LayoutOf(letter).value, fields)
    ensures Rebuilt(letter, fields)
  {
    var header := LayoutOf(letter).value.header;
    assert Matches(header[0], fields[0]) && Matches(header[1], fields[1]);
    if letter == REFRESH_REPLY {
      CountRead(fields[1]);
    } else {
      assert fields[1] == [49] || fields[1] == [48];
    }
  }

  lemma RebuiltId(letter: CodePoint, fields: seq<Text>)
    requires letter in {READ_REQUEST, READ_REPLY} && MatchesLayout(LayoutOf(letter).value, fields)
    ensures Rebuilt(letter, fields)
  {
    var header := LayoutOf(letter).value.header;
    assert Matches(header[0], fields[0]) && Matches(header[1], fields[1]);
    IdRead(fields[1]);
  }

  lemma RebuiltReport(letter: CodePoint, fields: seq<Text>)
    requires letter in {DELIVERY_ACKNOWLEDGEMENT, RECEIPT_ACKNOWLEDGEMENT, SEND_STATUS_REPLY, RECEIPT_NOTICE}
      && MatchesLayout(LayoutOf(letter).value, fields)
    ensures Rebuilt(letter, fields)
  {
    var header := LayoutOf(letter).value.header;
    assert Matches(header[0], fields[0]) && Matches(header[1], fields[1]) && Matches(header[2], fields[2]);
    IdRead(fields[1]);
  }

  /** The fields of a part, read and written again. */
  lemma PartFieldsRead(letter: CodePoint, fields: seq<Text>)
    requires letter in {MESSAGE_PART_REQUEST, PART_DELIVERY} && MatchesLayout(LayoutOf(letter).value, fields)
    ensures |fields| == 4 && IsValidUsername(fields[0]) && IsMessageIdField(fields[1]) && IsPartField(fields[2])
    ensures IsMessageId(Value(fields[1])) && Decimal(Value(fields[1])) == fields[1]
    ensures var (number, count) := ReadPartField(fields[2]);
      IsTwoDigits(number) && IsTwoDigits(count) && ShowPart(number, count) == fields[2]
  {
    var header := LayoutOf(letter).value.header;
    assert Matches(header[0], fields[0]) && Matches(header[1], fields[1]) && Matches(header[2], fields[2]);
    IdRead(fields[1]);
    PartRead(fields[2]);
  }

  lemma RebuiltPart(letter: CodePoint, fields: seq<Text>)
    requires letter in {MESSAGE_PART_REQUEST, PART_DELIVERY} && MatchesLayout(LayoutOf(letter).value, fields)
    ensures Rebuilt(letter, fields)
  {
    PartFieldsRead(letter, fields);
    assert fields == [fields[0], fields[1], fields[2], fields[3]];
  }

  /** ... and the other. */
  lemma FieldsOfBuild(letter: CodePoint, fields: seq<Text>)
    requires LayoutOf(letter).Some? && MatchesLayout(LayoutOf(letter).value, fields)
    ensures Rebuilt(letter, fields)
  {
    if letter in {ACCOUNT_REQUEST, QUERY_REQUEST, REFRESH_REQUEST, ACCOUNT_REPLY} {
      RebuiltName(letter, fields);
    } else if letter in {QUERY_REPLY, REFRESH_REPLY} {
      RebuiltPair(letter, fields);
    } else if letter in {READ_REQUEST, READ_REPLY} {
      RebuiltId(letter, fields);
    } else if letter in {DELIVERY_ACKNOWLEDGEMENT, RECEIPT_ACKNOWLEDGEMENT, SEND_STATUS_REPLY, RECEIPT_NOTICE} {
      RebuiltReport(letter, fields);
    } else {
      RebuiltPart(letter, fields);
    }
  }

  lemma CutOfJoin(layout: Layout, fields: seq<Text>)
    requires MatchesLayout(layout, fields) && |fields| >= 1
    ensures CutFields(JoinFields(fields), layout) == fields
  {
    forall i | 0 <= i < |layout.header| ensures NoSpace(fields[i]) {
      HeaderHasNoSpace(layout.header[i], fields[i]);
    }
    if layout.hasTail {
      SplitOfJoin(fields, |layout.header|);
    } else {
      WholeSplitOfJoin(fields);
    }
  }

  lemma JoinOfCut(layout: Layout, t: Text)
    ensures JoinFields(CutFields(t, layout)) == t
  {
    JoinOfSplit(t, if layout.hasTail then |layout.header| else |t|);
  }

  // ----- whole texts ------------------------------------------------------------------------------------------

  /** A text of the server's version: prefix, letter, space, fields. */
  lemma ParseOfVersionOne(letter: CodePoint, rest: Text)
    requires IsLetter(letter)
    ensures Parse(PREFIX + [letter, SPACE] + rest) == ParseBody([letter, SPACE] + rest)
    ensures ([letter, SPACE] + rest)[2..] == rest
  {
    var t := PREFIX + [letter, SPACE] + rest;
    assert t[..4] == PREFIX && t[4..] == [letter, SPACE] + rest;
    assert t[0] == 72 && t[1] == 84 && t[2] == 49 && t[3] == SPACE;
    assert t[2..3] == Chars("1");
  }

  lemma WrittenShape(m: ProtocolMessage)
    ensures Written(m) == PREFIX + [Letter(m), SPACE] + JoinFields(WrittenFields(m))
  {
    var fields := [[Letter(m)]] + WrittenFields(m);
    assert fields[1..] == WrittenFields(m);
    assert [Letter(m)] + [SPACE] + JoinFields(WrittenFields(m)) == [Letter(m), SPACE] + JoinFields(WrittenFields(m));
  }

  lemma ErrorReferenceShape(reference: Text)
    requires IsErrorReferenceField(reference)
    ensures var fields := Split(reference);
      && 1 <= |fields| <= 2 && JoinFields(fields) == reference && NoSpaces(fields)
  {
    JoinOfSplit(reference, |reference|);
    var fields := Split(reference);
    if |fields| == 2 {
      HeaderHasNoSpace(UsernameField, fields[0]);
      HeaderHasNoSpace(IdField, fields[1]);
    } else if IsRefreshTargetField(fields[0]) {
      HeaderHasNoSpace(TargetField, fields[0]);
    }
  }

  /** Joining after the second field does not care where the reference is cut. */
  lemma JoinAfterTwo(a: Text, b: Text, rest: seq<Text>)
    requires |rest| >= 1
    ensures JoinFields([a, b] + rest) == a + [SPACE] + (b + [SPACE] + JoinFields(rest))
  {
    assert ([a, b] + rest)[1..] == [b] + rest && ([b] + rest)[1..] == rest;
  }

  lemma ParseOfErrorReply(code: Text, requestType: Text, reference: Option<Text>)
    requires InGrammar(ErrorReply(code, requestType, reference))
    ensures ParseErrorReply(JoinFields(ErrorFields(code, requestType, reference)))
      == Message(ErrorReply(code, requestType, reference))
  {
    if reference.None? {
      assert ErrorFields(code, requestType, reference) == [code, requestType];
      WholeSplitOfJoin([code, requestType]);
    } else {
      var r := Split(reference.value);
      ErrorReferenceShape(reference.value);
      var fields := [code, requestType] + r;
      JoinAfterTwo(code, requestType, r);
      JoinAfterTwo(code, requestType, [reference.value]);
      assert NoSpaces(fields) by {
        forall i | 0 <= i < |fields| ensures NoSpace(fields[i]) {
          assert i >= 2 ==> fields[i] == r[i - 2];
        }
      }
      WholeSplitOfJoin(fields);
      assert fields[2..] == r;
    }
  }

  lemma ErrorReplyRead(t: Text)
    requires ParseErrorReply(t).Message?
    ensures var m := ParseErrorReply(t).message;
      m.ErrorReply? && InGrammar(m) && JoinFields(ErrorFields(m.code, m.requestType, m.reference)) == t
  {
    JoinOfSplit(t, |t|);
    var fields := Split(t);
    if |fields| == 2 {
      assert fields == [fields[0], fields[1]];
    } else {
      var rest := fields[2..];
      assert fields == [fields[0], fields[1]] + rest;
      JoinAfterTwo(fields[0], fields[1], rest);
      JoinAfterTwo(fields[0], fields[1], [JoinFields(rest)]);
    }
  }

  lemma ParseOfErrorBody(m: ProtocolMessage)
    requires InGrammar(m) && m.ErrorReply?
    ensures ParseBody([Letter(m), SPACE] + JoinFields(ErrorFields(m.code, m.requestType, m.reference))) == Message(m)
  {
    ParseOfErrorReply(m.code, m.requestType, m.reference);
    var rest := JoinFields(ErrorFields(m.code, m.requestType, m.reference));
    assert ([Letter(m), SPACE] + rest)[2..] == rest;
  }

  lemma ParseOfJoined(letter: CodePoint, fields: seq<Text>)
    requires LayoutOf(letter).Some? && MatchesLayout(LayoutOf(letter).value, fields) && |fields| >= 1
    ensures ParseFields(letter, JoinFields(fields), LayoutOf(letter).value) == Message(Build(letter, fields))
  {
    CutOfJoin(LayoutOf(letter).value, fields);
  }

  lemma BodyParsesAsFields(letter: CodePoint, rest: Text)
    requires IsLetter(letter) && LayoutOf(letter).Some? && letter != ERROR_REPLY
    ensures ParseBody([letter, SPACE] + rest) == ParseFields(letter, rest, LayoutOf(letter).value)
  {
    assert ([letter, SPACE] + rest)[2..] == rest;
  }

  lemma ParseOfFieldsBody(m: ProtocolMessage)
    requires InGrammar(m) && !m.ErrorReply?
    ensures ParseBody([Letter(m), SPACE] + JoinFields(Fields(m))) == Message(m)
  {
    BuildOfFields(m);
    ParseOfJoined(Letter(m), Fields(m));
    BodyParsesAsFields(Letter(m), JoinFields(Fields(m)));
  }

  lemma ParseOfBody(m: ProtocolMessage)
    requires InGrammar(m)
    ensures ParseBody([Letter(m), SPACE]
      + JoinFields(if m.ErrorReply? then ErrorFields(m.code, m.requestType, m.reference) else Fields(m))) == Message(m)
  {
    if m.ErrorReply? {
      ParseOfErrorBody(m);
    } else {
      ParseOfFieldsBody(m);
    }
  }

  // ----- the two directions ---------------------------------------------------------------------------------------

  lemma PartTextIsTail(t: Text)
    requires IsValidPartText(t)
    ensures IsTailField(t)
  {
  }

  /** What stands inside a sendable text holds neither NUL nor a surrogate. */
  lemma InsideSendable(before: Text, inside: Text, t: Text)
    requires IsSendable(t) && t == before + inside
    ensures IsTailField(inside)
  {
    forall i | 0 <= i < |inside| ensures inside[i] != NUL && !IsSurrogate(inside[i]) {
      assert t[|before| + i] == inside[i];
    }
  }

  lemma WritableIsInGrammar(m: ProtocolMessage, nfc: Text -> Text)
    requires Writable(m, nfc) && IsSendable(Written(m))
    ensures InGrammar(Shown(m))
  {
    if m.AccountRequest? {
      WrittenShape(m);
      var before := PREFIX + [Letter(m), SPACE] + (m.username + [SPACE]);
      assert JoinFields(Fields(m)) == m.username + [SPACE] + m.password;
      assert Written(m) == before + m.password;
      InsideSendable(before, m.password, Written(m));
    } else if m.MessagePartRequest? || m.PartDelivery? {
      PartTextIsTail(m.partText);
    }
  }

  lemma LetterOfShown(m: ProtocolMessage)
    ensures Letter(Shown(m)) == Letter(m)
    ensures WrittenFields(m) == if m.ErrorReply? then ErrorFields(m.code, m.requestType, m.reference)
      else Fields(Shown(m))
  {
  }

  /** Parsing what was formatted gives the message back; a refresh count above 9999 comes back as 9999. */
  lemma ParseOfFormat(m: ProtocolMessage, nfc: Text -> Text)
    requires Format(m, nfc).Some?
    ensures Parse(Format(m, nfc).value) == Message(Shown(m))
  {
    WritableIsInGrammar(m, nfc);
    WrittenShape(m);
    LetterOfShown(m);
    ParseOfVersionOne(Letter(m), JoinFields(WrittenFields(m)));
    ParseOfBody(Shown(m));
  }

  lemma BodyOfParsed(body: Text)
    requires ParseBody(body).Message?
    ensures var m := ParseBody(body).message;
      InGrammar(m) && body == [Letter(m), SPACE]
        + JoinFields(if m.ErrorReply? then ErrorFields(m.code, m.requestType, m.reference) else Fields(m))
  {
    var letter := body[0];
    assert body == [letter, SPACE] + body[2..];
    if letter == ERROR_REPLY {
      ErrorReplyRead(body[2..]);
    } else {
      var layout := LayoutOf(letter).value;
      var fields := CutFields(body[2..], layout);
      FieldsOfBuild(letter, fields);
      JoinOfCut(layout, body[2..]);
    }
  }

  lemma PrefixOfVersionOne(t: Text)
    requires VersionDigits(t).Some? && t[2..2 + VersionDigits(t).value] == Chars("1")
    ensures VersionDigits(t).value == 1 && t == PREFIX + t[4..]
  {
    assert |t[2..2 + VersionDigits(t).value]| == 1;
    assert t[2] == t[2..3][0] == 49;
    assert t[..4] == PREFIX;
  }

  /** Only one text means a message: the one the formatter would write. */
  lemma TextOfParsed(t: Text)
    requires Parse(t).Message?
    ensures var m := Parse(t).message;
      InGrammar(m) && Shown(m) == m && Written(m) == t
  {
    PrefixOfVersionOne(t);
    var m := Parse(t).message;
    BodyOfParsed(t[4..]);
    WrittenShape(m);
    LetterOfShown(m);
    assert PREFIX + [Letter(m), SPACE] + JoinFields(WrittenFields(m))
      == PREFIX + ([Letter(m), SPACE] + JoinFields(WrittenFields(m)));
  }

  /** Formatting what was parsed gives the text back, for every message the formatter accepts. */
  lemma FormatOfParse(t: Text, nfc: Text -> Text)
    requires Parse(t).Message? && Format(Parse(t).message, nfc).Some?
    ensures Format(Parse(t).message, nfc) == Some(t)
  {
    TextOfParsed(t);
  }

  /** No two texts mean the same message. */
  lemma OneTextPerMessage(t: Text, u: Text)
    requires Parse(t).Message? && Parse(t) == Parse(u)
    ensures t == u
  {
    TextOfParsed(t);
    TextOfParsed(u);
  }

  // ----- the byte budget ---------------------------------------------------------------------------------------------

  /** ASCII without NUL. */
  predicate IsPlain(t: Text) {
    forall i | 0 <= i < |t| :: 0 < t[i] < 0x80
  }

  lemma {:induction false} PlainBytes(t: Text)
    requires IsPlain(t)
    ensures Utf8Bytes(t) == |t|
  {
    if t != [] {
      PlainBytes(t[1..]);
    }
  }

  lemma FieldIsPlain(f: Field, t: Text)
    requires Matches(f, t)
    ensures IsPlain(t) && |t| <= 16
  {
    if f.PartNumberingField? {
      var i := SlashAt(t);
      forall j | 0 <= j < |t| ensures 0 < t[j] < 0x80 {
        if j < i {
          assert t[..i][j] == t[j];
        } else if j > i {
          assert t[i + 1..][j - i - 1] == t[j];
        }
      }
    }
  }

  /** A plain header before a tail that can travel: every byte is accounted for. */
  lemma SendableText(header: Text, tail: Text)
    requires IsPlain(header) && PREFIX <= header && IsTailField(tail)
      && |header| + Utf8Bytes(tail) <= DIRECT_MESSAGE_MAXIMUM_BYTES
    ensures IsSendable(header + tail) && Utf8Bytes(header + tail) == |header| + Utf8Bytes(tail)
  {
    var t := header + tail;
    PlainBytes(header);
    Utf8BytesConcat(header, tail);
    assert t[..|PREFIX|] == header[..|PREFIX|];
    forall i | 0 <= i < |t| ensures t[i] != NUL && !IsSurrogate(t[i]) {
      if i >= |header| {
        assert t[i] == tail[i - |header|];
      }
    }
  }

  function PartHeader(letter: CodePoint, peer: Text, id: nat, number: nat, count: nat): Text {
    PREFIX + [letter, SPACE] + (peer + [SPACE] + (Decimal(id) + [SPACE] + (ShowPart(number, count) + [SPACE])))
  }

  /** The longest header of a part is 46 bytes. */
  lemma PartHeaderFits(letter: CodePoint, peer: Text, id: nat, number: nat, count: nat)
    requires IsLetter(letter) && IsValidUsername(peer) && IsMessageId(id) && IsPartNumbering(number, count)
    ensures var header := PartHeader(letter, peer, id, number, count);
      IsPlain(header) && PREFIX <= header && |header| <= PART_HEADER_MAXIMUM_BYTES
      && |header| == 10 + |peer| + |Decimal(id)| + |Decimal(number)| + |Decimal(count)|
  {
    IdWritten(id);
    PartWritten(number, count);
    SmallNumberWritten(number);
    SmallNumberWritten(count);
    FieldIsPlain(UsernameField, peer);
    FieldIsPlain(IdField, Decimal(id));
    FieldIsPlain(PartNumberingField, ShowPart(number, count));
  }

  lemma WrittenPart(m: ProtocolMessage)
    requires m.PartDelivery? || m.MessagePartRequest?
    ensures Written(m) == PartHeader(Letter(m), m.peer, m.id, m.partNumber, m.partCount) + m.partText
  {
    WrittenShape(m);
    PartFieldsJoined(m.peer, Decimal(m.id), ShowPart(m.partNumber, m.partCount), m.partText);
    assert WrittenFields(m) == [m.peer, Decimal(m.id), ShowPart(m.partNumber, m.partCount), m.partText];
  }

  /** A part is a header of at most 46 bytes and its text: at most 150 bytes, so it is always sendable. */
  lemma PartFitsBudget(m: ProtocolMessage, nfc: Text -> Text)
    requires (m.PartDelivery? || m.MessagePartRequest?) && Writable(m, nfc)
    ensures Format(m, nfc).Some?
    ensures Utf8Bytes(Format(m, nfc).value) <= PART_HEADER_MAXIMUM_BYTES
      + Utf8Bytes(m.partText) <= DIRECT_MESSAGE_MAXIMUM_BYTES
  {
    PartHeaderFits(Letter(m), m.peer, m.id, m.partNumber, m.partCount);
    PartTextIsTail(m.partText);
    SendableText(PartHeader(Letter(m), m.peer, m.id, m.partNumber, m.partCount), m.partText);
    WrittenPart(m);
  }

  /** The budget is exact: the longest username, id and numbering with a full part take all 150 bytes. */
  lemma BudgetIsReached(m: ProtocolMessage, nfc: Text -> Text)
    requires (m.PartDelivery? || m.MessagePartRequest?) && Writable(m, nfc)
    ensures Utf8Bytes(Written(m)) == DIRECT_MESSAGE_MAXIMUM_BYTES <==>
      |m.peer| == 16 && m.id >= 1_000_000_000_000_000 && m.partNumber == 10
        && Utf8Bytes(m.partText) == PART_TEXT_MAXIMUM_BYTES
  {
    PartHeaderFits(Letter(m), m.peer, m.id, m.partNumber, m.partCount);
    PartTextIsTail(m.partText);
    SendableText(PartHeader(Letter(m), m.peer, m.id, m.partNumber, m.partCount), m.partText);
    WrittenPart(m);
    IdWritten(m.id);
    FifteenDigits(m.id);
    SmallNumberWritten(m.partNumber);
    SmallNumberWritten(m.partCount);
  }

  lemma FifteenDigits(id: nat)
    ensures |Decimal(id)| <= 15 <==> id < 1_000_000_000_000_000
  {
    assert PowerOfTen(5) == 100000;
    PowersMultiply(5, 5);
    PowersMultiply(5, 10);
    DigitsBound(id, 15);
  }

  lemma PartFieldsJoined(a: Text, b: Text, c: Text, d: Text)
    ensures JoinFields([a, b, c, d]) == a + [SPACE] + (b + [SPACE] + (c + [SPACE])) + d
  {
    assert [a, b, c, d][1..] == [b, c, d] && [b, c, d][1..] == [c, d] && [c, d][1..] == [d];
    assert JoinFields([c, d]) == c + [SPACE] + d;
    assert JoinFields([b, c, d]) == b + [SPACE] + (c + [SPACE] + d);
  }

  /** Plain fields of at most `longest` characters join to a plain text. */
  lemma {:induction false} PlainFieldsJoin(fields: seq<Text>, longest: nat)
    requires |fields| >= 1 && forall i | 0 <= i < |fields| :: IsPlain(fields[i]) && |fields[i]| <= longest
    ensures IsPlain(JoinFields(fields)) && |JoinFields(fields)| <= |fields| * (longest + 1)
    decreases |fields|
  {
    if |fields| > 1 {
      PlainFieldsJoin(fields[1..], longest);
      assert |fields| * (longest + 1) == (|fields| - 1) * (longest + 1) + (longest + 1);
    } else {
      assert 1 * (longest + 1) == longest + 1;
    }
  }

  lemma PlainTextFits(m: ProtocolMessage, longest: nat)
    requires forall i | 0 <= i < |WrittenFields(m)| :: IsPlain(WrittenFields(m)[i]) && |WrittenFields(m)[i]| <= longest
    requires |WrittenFields(m)| * (longest + 1) <= 140
    ensures IsSendable(Written(m))
  {
    PlainFieldsJoin(WrittenFields(m), longest);
    WrittenShape(m);
    assert Written(m) + [] == Written(m);
    SendableText(Written(m), []);
  }

  lemma ReferenceIsPlain(reference: Text)
    requires IsErrorReferenceField(reference)
    ensures IsPlain(reference) && |reference| <= 34
  {
    ErrorReferenceShape(reference);
    var fields := Split(reference);
    if |fields| == 2 {
      FieldIsPlain(UsernameField, fields[0]);
      FieldIsPlain(IdField, fields[1]);
    } else if IsRefreshTargetField(fields[0]) {
      FieldIsPlain(TargetField, fields[0]);
    }
    PlainFieldsJoin(fields, 16);
  }

  lemma ShortMessageFits(m: ProtocolMessage, nfc: Text -> Text)
    requires Writable(m, nfc) && !m.AccountRequest? && !m.PartDelivery? && !m.MessagePartRequest? && !m.ErrorReply?
    ensures IsSendable(Written(m))
  {
    var shown := Shown(m);
    BuildOfFields(shown);
    var header := LayoutOf(Letter(shown)).value.header;
    forall i | 0 <= i < |WrittenFields(m)| ensures IsPlain(WrittenFields(m)[i]) && |WrittenFields(m)[i]| <= 16 {
      FieldIsPlain(header[i], Fields(shown)[i]);
    }
    PlainTextFits(m, 16);
  }

  lemma ErrorReplyFits(m: ProtocolMessage, nfc: Text -> Text)
    requires Writable(m, nfc) && m.ErrorReply?
    ensures IsSendable(Written(m))
  {
    if m.reference.Some? {
      ReferenceIsPlain(m.reference.value);
    }
    forall i | 0 <= i < |WrittenFields(m)| ensures IsPlain(WrittenFields(m)[i]) && |WrittenFields(m)[i]| <= 34 {
    }
    PlainTextFits(m, 34);
  }

  /**
   A message whose fields pass the formatter's rules never breaks the byte budget; only a sign-in
   request, whose password is written as given and not in normal form, can still be too long or
   hold what cannot travel.
   */
  lemma WritableIsSendable(m: ProtocolMessage, nfc: Text -> Text)
    requires Writable(m, nfc)
    ensures Format(m, nfc).Some? <==>
      (m.AccountRequest? ==>
        IsTailField(m.password) && 7 + |m.username| + Utf8Bytes(m.password) <= DIRECT_MESSAGE_MAXIMUM_BYTES)
  {
    if m.AccountRequest? {
      AccountRequestFits(m);
    } else if m.PartDelivery? || m.MessagePartRequest? {
      PartFitsBudget(m, nfc);
    } else if m.ErrorReply? {
      ErrorReplyFits(m, nfc);
    } else {
      ShortMessageFits(m, nfc);
    }
  }

  lemma AccountRequestFits(m: ProtocolMessage)
    requires m.AccountRequest? && IsValidUsername(m.username)
    ensures IsSendable(Written(m)) <==>
      IsTailField(m.password) && 7 + |m.username| + Utf8Bytes(m.password) <= DIRECT_MESSAGE_MAXIMUM_BYTES
  {
    WrittenShape(m);
    var header := PREFIX + [Letter(m), SPACE] + (m.username + [SPACE]);
    assert JoinFields([m.username, m.password]) == m.username + [SPACE] + m.password;
    assert Written(m) == header + m.password;
    FieldIsPlain(UsernameField, m.username);
    PlainBytes(header);
    Utf8BytesConcat(header, m.password);
    if IsTailField(m.password) && 7 + |m.username| + Utf8Bytes(m.password) <= DIRECT_MESSAGE_MAXIMUM_BYTES {
      SendableText(header, m.password);
    }
    if IsSendable(Written(m)) {
      InsideSendable(header, m.password, Written(m));
    }
  }
}
