/** Which received text is answered, with which error, under which reply key; no reply ever earns a reply. */
module Replies {
  import opened Options
  import opened Texts
  import opened Decimals
  import opened FieldGrammar
  import opened ProtocolMessages
  import opened Parsing
  import opened Formatting
  import opened RoundTrips

  const COLON: CodePoint := 58

  predicate IsRequestLetter(c: CodePoint) {
    c in {ACCOUNT_REQUEST, QUERY_REQUEST, MESSAGE_PART_REQUEST, READ_REQUEST, REFRESH_REQUEST}
  }

  predicate IsRequestType(t: Text) {
    |t| == 1 && IsRequestLetter(t[0])
  }

  /** How many correlation fields identify a request of this type. */
  function CorrelationCount(requestType: Text): Option<nat> {
    if !IsRequestType(requestType) then None
    else if requestType[0] == MESSAGE_PART_REQUEST || requestType[0] == READ_REQUEST then Some(2)
    else Some(1)
  }

  // ----- error replies ----------------------------------------------------------------------------------

  /** The reference is left out unless every correlation field of the type parsed. */
  function SyntaxErrorReference(requestType: Text, correlation: seq<Text>): Option<Text> {
    var required := CorrelationCount(requestType);
    if required.None? || |correlation| < required.value then None
    else Some(JoinFields(correlation[..required.value]))
  }

  /** The error the grammar alone answers. */
  function GrammarErrorReply(p: Parsed): Option<ProtocolMessage> {
    match p
    case SyntaxError(requestType, correlation) =>
      if !IsRequestType(requestType) && requestType != UNKNOWN_REQUEST_TYPE then None
      else Some(ErrorReply(Chars("SYNTAX"), requestType, SyntaxErrorReference(requestType, correlation)))
    case UnsupportedVersion(version, next) =>
      if |next| == 1 && IsUpperCase(next[0])
        then Some(ErrorReply(Chars("VERSION"), UNKNOWN_REQUEST_TYPE, Some(version))) else None
    case UnknownMessageType(letter) =>
      if IsUpperCase(letter) then Some(ErrorReply(Chars("UNSUPPORTED"), [letter], None)) else None
    case _ => None
  }

  /** The correlation fields of a request, as they were sent. */
  function RequestCorrelation(r: ProtocolMessage): (fields: seq<Text>)
    requires r.IsAnswerable()
    ensures Some(|fields|) == CorrelationCount([Letter(r)])
  {
    match r
    case AccountRequest(username, _) => [username]
    case QueryRequest(username) => [username]
    case MessagePartRequest(peer, id, _, _, _) => [peer, Decimal(id)]
    case ReadRequest(peer, id) => [peer, Decimal(id)]
    case RefreshRequest(target) => [target]
  }

  /** A refusal by a service, pointing at the request it refuses. */
  function RequestErrorReply(code: Text, r: ProtocolMessage): ProtocolMessage
    requires r.IsAnswerable()
  {
    ErrorReply(code, [Letter(r)], Some(JoinFields(RequestCorrelation(r))))
  }

  // ----- reply keys ---------------------------------------------------------------------------------------

  function Lower(t: Text): (l: Text)
    ensures |l| == |t|
    ensures forall i | 0 <= i < |t| :: l[i] == (if IsUpperCase(t[i]) then t[i] + 32 else t[i])
  {
    seq(|t|, i requires 0 <= i < |t| => if IsUpperCase(t[i]) then t[i] + 32 else t[i])
  }

  function JoinKey(letter: CodePoint, fields: seq<Text>): Text {
    if fields == [] then [letter]
    else if |fields| == 1 then [letter, COLON] + Lower(fields[0])
    else [letter, COLON] + Lower(fields[0]) + [COLON] + Lower(fields[1])
  }

  function RequestKey(r: ProtocolMessage): Text
    requires r.IsAnswerable()
  {
    JoinKey(Letter(r), RequestCorrelation(r))
  }

  function UnreferencedKey(rowId: nat): Text {
    [QUESTION_MARK, COLON] + Decimal(rowId)
  }

  /** With enough fields parsed, the key the correct request would have; otherwise one of its own. */
  function SyntaxErrorKey(requestType: Text, correlation: seq<Text>, rowId: nat): Text {
    var required := CorrelationCount(requestType);
    if required.None? || |correlation| < required.value then UnreferencedKey(rowId)
    else JoinKey(requestType[0], correlation[..required.value])
  }

  /** Which key the answer to a text goes under; none for a text nobody answers. */
  function ReplyKey(p: Parsed, rowId: nat): Option<Text> {
    match p
    case Message(m) => if m.IsAnswerable() then Some(RequestKey(m)) else None
    case SyntaxError(requestType, correlation) =>
      if IsRequestType(requestType) then Some(SyntaxErrorKey(requestType, correlation, rowId))
      else if requestType == UNKNOWN_REQUEST_TYPE then Some(UnreferencedKey(rowId))
      else None
    case UnsupportedVersion(_, next) =>
      if |next| == 1 && IsUpperCase(next[0]) then Some(UnreferencedKey(rowId)) else None
    case UnknownMessageType(letter) => if IsUpperCase(letter) then Some(UnreferencedKey(rowId)) else None
    case OtherText(_) => None
  }

  // ----- who is answered ------------------------------------------------------------------------------------

  /**
   The reply to one received text: services answer well-formed requests (`serve`, none for a
   sign-in whose password was not kept), the grammar answers malformed ones, and nothing answers
   a sender that is no contact or a message that is not plain text.
   */
  function ReplyTo(t: Text, isContact: bool, isPlainText: bool,
                   serve: ProtocolMessage -> Option<ProtocolMessage>): Option<ProtocolMessage> {
    if !isContact || !isPlainText then None else ReplyToParsed(Parse(t), serve)
  }

  function ReplyToParsed(p: Parsed, serve: ProtocolMessage -> Option<ProtocolMessage>): Option<ProtocolMessage> {
    match p
    case OtherText(_) => None
    case Message(m) => if m.IsAnswerable() then serve(m) else None
    case _ => GrammarErrorReply(p)
  }

  // ----- no loops -----------------------------------------------------------------------------------------------

  /** A text of any version whose type letter is lower-case. */
  predicate IsServerTraffic(t: Text) {
    && VersionDigits(t).Some?
    && |t| > 3 + VersionDigits(t).value
    && IsLowerCase(t[3 + VersionDigits(t).value])
  }

  /** A version 1 text whose type letter is that of an acknowledgement. */
  predicate IsAcknowledgementTraffic(t: Text) {
    |t| > 4 && t[..4] == PREFIX && (t[4] == DELIVERY_ACKNOWLEDGEMENT || t[4] == RECEIPT_ACKNOWLEDGEMENT)
  }

  lemma BuildKeepsLetter(letter: CodePoint, fields: seq<Text>)
    requires LayoutOf(letter).Some? && MatchesLayout(LayoutOf(letter).value, fields)
    ensures Letter(Build(letter, fields)) == letter
  {
    FieldsOfBuild(letter, fields);
  }

  /** What the body of a version 1 text can parse to, by its first letter. */
  lemma BodyByLetter(body: Text)
    requires body != [] && IsLetter(body[0])
    ensures var p := ParseBody(body);
      || (p.Message? && Letter(p.message) == body[0])
      || (p.UnknownMessageType? && p.letter == body[0] && LayoutOf(body[0]).None?)
      || (p.SyntaxError? && p.requestType == [body[0]])
  {
    var letter := body[0];
    if |body| >= 2 && body[1] == SPACE {
      if letter == ERROR_REPLY {
        var p := ParseErrorReply(body[2..]);
        assert p.Message? ==> p.message.ErrorReply?;
      } else if LayoutOf(letter).Some? {
        var layout := LayoutOf(letter).value;
        var fields := CutFields(body[2..], layout);
        if MatchesLayout(layout, fields) {
          BuildKeepsLetter(letter, fields);
        }
      }
    }
  }

  lemma NoReplyToLowerCaseBody(body: Text, serve: ProtocolMessage -> Option<ProtocolMessage>)
    requires body != [] && IsLowerCase(body[0])
    ensures ReplyToParsed(ParseBody(body), serve).None?
  {
    BodyByLetter(body);
  }

  /** Nothing lower-case is ever answered, in whatever version. */
  lemma NoReplyToServerTraffic(t: Text, isContact: bool, isPlainText: bool,
                               serve: ProtocolMessage -> Option<ProtocolMessage>)
    requires IsServerTraffic(t)
    ensures ReplyTo(t, isContact, isPlainText, serve).None?
  {
    var n := VersionDigits(t).value;
    var body := t[3 + n..];
    assert body[0] == t[3 + n];
    if t[2..2 + n] == Chars("1") {
      NoReplyToLowerCaseBody(body, serve);
    } else {
      assert Parse(t) == UnsupportedVersion(t[2..2 + n], body[..1]);
    }
  }

  lemma NoReplyToAcknowledgementBody(body: Text, serve: ProtocolMessage -> Option<ProtocolMessage>)
    requires body != [] && (body[0] == DELIVERY_ACKNOWLEDGEMENT || body[0] == RECEIPT_ACKNOWLEDGEMENT)
    ensures ReplyToParsed(ParseBody(body), serve).None?
  {
    BodyByLetter(body);
  }

  /** A text that starts with the server's own prefix is parsed by its body. */
  lemma ParseAfterPrefix(t: Text)
    requires |t| >= 4 && t[..4] == PREFIX
    ensures Parse(t) == ParseBody(t[4..])
  {
    assert t[0] == t[..4][0] && t[1] == t[..4][1] && t[2] == t[..4][2] && t[3] == t[..4][3];
    assert t[2..3] == Chars("1");
  }

  /** No acknowledgement is ever answered, even a malformed one. */
  lemma NoReplyToAcknowledgement(t: Text, isContact: bool, isPlainText: bool,
                                 serve: ProtocolMessage -> Option<ProtocolMessage>)
    requires IsAcknowledgementTraffic(t)
    ensures ReplyTo(t, isContact, isPlainText, serve).None?
  {
    ParseAfterPrefix(t);
    NoReplyToAcknowledgementBody(t[4..], serve);
  }

  lemma ServerTextIsServerTraffic(m: ProtocolMessage, nfc: Text -> Text)
    requires m.IsFromServer() && Format(m, nfc).Some?
    ensures IsServerTraffic(Format(m, nfc).value)
  {
    var t := Format(m, nfc).value;
    WrittenShape(m);
    assert t[..4] == PREFIX;
    assert t[0] == 72 && t[1] == 84 && t[2] == 49 && t[3] == SPACE && t[4] == Letter(m);
  }

  /** No text the server can write earns a reply from any server. */
  lemma NoReplyToServerText(m: ProtocolMessage, nfc: Text -> Text, isContact: bool, isPlainText: bool,
                            serve: ProtocolMessage -> Option<ProtocolMessage>)
    requires m.IsFromServer() && Format(m, nfc).Some?
    ensures ReplyTo(Format(m, nfc).value, isContact, isPlainText, serve).None?
  {
    ServerTextIsServerTraffic(m, nfc);
    NoReplyToServerTraffic(Format(m, nfc).value, isContact, isPlainText, serve);
  }

  /** No loops: whatever a relay answers to whatever text, no relay answers that answer. */
  lemma NoReplyLoops(t: Text, nfc: Text -> Text, isContact: bool, isPlainText: bool,
                     serve: ProtocolMessage -> Option<ProtocolMessage>,
                       other: ProtocolMessage -> Option<ProtocolMessage>)
    requires forall m :: serve(m).Some? ==> serve(m).value.IsFromServer()
    requires var reply := ReplyTo(t, isContact, isPlainText, serve); reply.Some? && Format(reply.value, nfc).Some?
    ensures var reply := ReplyTo(t, isContact, isPlainText, serve).value;
      ReplyTo(Format(reply, nfc).value, true, true, other).None?
  {
    var reply := ReplyTo(t, isContact, isPlainText, serve).value;
    NoReplyToServerText(reply, nfc, true, true, other);
  }

  // ----- keys and answers agree -----------------------------------------------------------------------------------

  /** A text has a reply key exactly when a service or the grammar answers it. */
  lemma KeyExactlyWhenAnswered(p: Parsed, rowId: nat)
    ensures ReplyKey(p, rowId).Some? <==> (p.Message? && p.message.IsAnswerable()) || GrammarErrorReply(p).Some?
  {
  }

  /** Leading correlation fields come first. */
  lemma {:induction false} CorrelationStarts(header: seq<Field>, fields: seq<Text>)
    requires |header| == |fields|
    ensures var c := Correlation(header, fields);
      && (|header| >= 1 && IsCorrelationField(header[0]) ==> |c| >= 1 && c[0] == fields[0])
      && (|header| >= 2 && IsCorrelationField(header[0]) && IsCorrelationField(header[1]) ==>
        |c| >= 2 && c[1] == fields[1])
  {
    if header != [] {
      CorrelationStarts(header[1..], fields[1..]);
    }
  }

  /** Joining a username and an id, a username or a target gives a proper error reference. */
  lemma ReferenceOfFields(fields: seq<Text>)
    requires (|fields| == 1 && IsRefreshTargetField(fields[0]))
      || (|fields| == 2 && IsValidUsername(fields[0]) && IsMessageIdField(fields[1]))
    ensures IsErrorReferenceField(JoinFields(fields))
  {
    if |fields| == 1 {
      HeaderHasNoSpace(TargetField, fields[0]);
    } else {
      HeaderHasNoSpace(UsernameField, fields[0]);
      HeaderHasNoSpace(IdField, fields[1]);
    }
    WholeSplitOfJoin(fields);
  }

  /** The correlation fields of the first n fields that matched, cut to what a reference repeats. */
  lemma ReferenceOfMatched(header: seq<Field>, fields: seq<Text>, n: nat, required: nat)
    requires n <= |header| && n <= |fields| && forall i | 0 <= i < n :: Matches(header[i], fields[i])
    requires |header| >= required
    requires (required == 1 && (header[0].UsernameField? || header[0].TargetField?))
      || (required == 2 && header[0].UsernameField? && header[1].IdField?)
    ensures var correlation := Correlation(header[..n], fields[..n]);
      |correlation| >= required ==>
        IsErrorReferenceField(JoinFields(correlation[..required])) && NoColon(correlation[0])
  {
    var h, f := header[..n], fields[..n];
    var correlation := Correlation(h, f);
    CorrelationStarts(h, f);
    CorrelationCountBound(h, f);
    if |correlation| >= required {
      assert Matches(header[0], fields[0]);
      FieldHasNoColon(header[0], fields[0]);
      if required == 2 {
        assert Matches(header[1], fields[1]);
      }
      assert correlation[..required] == fields[..required];
      ReferenceOfFields(correlation[..required]);
    }
  }

  /** The header of a request starts with what its errors refer to. */
  lemma RequestHeaderStarts(letter: CodePoint)
    requires IsRequestLetter(letter)
    ensures var header, required := LayoutOf(letter).value.header, CorrelationCount([letter]).value;
      && |header| >= required
      && ((required == 1 && (header[0].UsernameField? || header[0].TargetField?))
          || (required == 2 && header[0].UsernameField? && header[1].IdField?))
  {
  }

  /** What the parser found of a malformed request is what an error reference may repeat. */
  lemma SyntaxErrorFields(letter: CodePoint, t: Text)
    requires IsRequestLetter(letter)
    requires var layout := LayoutOf(letter).value; ParseFields(letter, t, layout).SyntaxError?
    ensures var correlation := ParseFields(letter, t, LayoutOf(letter).value).correlationFields;
      var required := CorrelationCount([letter]).value;
      |correlation| >= required ==>
        IsErrorReferenceField(JoinFields(correlation[..required])) && NoColon(correlation[0])
  {
    var layout := LayoutOf(letter).value;
    var fields := CutFields(t, layout);
    var n := MatchingFields(layout.header, fields);
    RequestHeaderStarts(letter);
    ReferenceOfMatched(layout.header, fields, n, CorrelationCount([letter]).value);
    assert ParseFields(letter, t, layout).correlationFields == Correlation(layout.header[..n], fields[..n]);
  }

  lemma {:induction false} CorrelationCountBound(header: seq<Field>, fields: seq<Text>)
    requires |header| == |fields|
    ensures |Correlation(header, fields)| <= |header|
  {
    if header != [] {
      CorrelationCountBound(header[1..], fields[1..]);
    }
  }

  lemma ErrorCodesAreCodes()
    ensures IsErrorCodeField(Chars("SYNTAX")) && IsErrorCodeField(Chars("VERSION"))
      && IsErrorCodeField(Chars("UNSUPPORTED"))
  {
  }

  lemma VersionIsReference(version: Text)
    requires IsVersionNumberField(version)
    ensures IsErrorReferenceField(version)
  {
    assert NoSpace(version);
    WholeSplitOfJoin([version]);
  }

  lemma SyntaxErrorReferenceOk(body: Text)
    requires ParseBody(body).SyntaxError?
    ensures var p := ParseBody(body);
      var reference := SyntaxErrorReference(p.requestType, p.correlationFields);
      reference.Some? ==>
        IsErrorReferenceField(reference.value) && |p.correlationFields| >= 1 && NoColon(p.correlationFields[0])
  {
    if body != [] && IsLetter(body[0]) && IsRequestLetter(body[0]) && |body| >= 2 && body[1] == SPACE {
      SyntaxErrorFields(body[0], body[2..]);
    }
  }

  lemma ErrorIsSendable(code: Text, requestType: Text, reference: Option<Text>, nfc: Text -> Text)
    requires IsErrorCodeField(code) && IsRequestTypeField(requestType)
    requires reference.Some? ==> IsErrorReferenceField(reference.value)
    ensures Format(ErrorReply(code, requestType, reference), nfc).Some?
  {
    WritableIsSendable(ErrorReply(code, requestType, reference), nfc);
  }

  lemma SyntaxErrorIsSendable(body: Text, nfc: Text -> Text)
    requires ParseBody(body).SyntaxError? && GrammarErrorReply(ParseBody(body)).Some?
    ensures Format(GrammarErrorReply(ParseBody(body)).value, nfc).Some?
  {
    var p := ParseBody(body);
    ErrorCodesAreCodes();
    SyntaxErrorReferenceOk(body);
    ErrorIsSendable(Chars("SYNTAX"), p.requestType, SyntaxErrorReference(p.requestType, p.correlationFields), nfc);
  }

  /** Every error the grammar answers can be written and sent. */
  lemma GrammarErrorsAreSendable(t: Text, nfc: Text -> Text)
    requires GrammarErrorReply(Parse(t)).Some?
    ensures Format(GrammarErrorReply(Parse(t)).value, nfc).Some?
  {
    ErrorCodesAreCodes();
    var n := VersionDigits(t).value;
    match Parse(t)
    case SyntaxError(_, _) =>
      SyntaxErrorIsSendable(t[3 + n..], nfc);
    case UnsupportedVersion(version, _) =>
      VersionIsReference(version);
      ErrorIsSendable(Chars("VERSION"), UNKNOWN_REQUEST_TYPE, Some(version), nfc);
    case UnknownMessageType(letter) =>
      ErrorIsSendable(Chars("UNSUPPORTED"), [letter], None, nfc);
  }

  /** Every error a service answers to a request that parsed can be written and sent. */
  lemma RequestErrorsAreSendable(t: Text, code: Text, nfc: Text -> Text)
    requires Parse(t).Message? && Parse(t).message.IsAnswerable() && IsErrorCodeField(code)
    ensures Format(RequestErrorReply(code, Parse(t).message), nfc).Some?
  {
    TextOfParsed(t);
    var r := Parse(t).message;
    if r.MessagePartRequest? || r.ReadRequest? {
      IdWritten(r.id);
    }
    ReferenceOfFields(RequestCorrelation(r));
    WritableIsSendable(RequestErrorReply(code, r), nfc);
  }

  // ----- which requests share a key --------------------------------------------------------------------------------

  /** The same correlation fields, compared as usernames are: without case. */
  predicate SameFields(a: seq<Text>, b: seq<Text>) {
    |a| == |b| && forall i | 0 <= i < |a| :: Lower(a[i]) == Lower(b[i])
  }

  predicate NoColon(t: Text) {
    forall i | 0 <= i < |t| :: t[i] != COLON
  }

  lemma ColonSplits(a: Text, b: Text, c: Text, d: Text)
    requires NoColon(a) && NoColon(c) && a + [COLON] + b == c + [COLON] + d
    ensures a == c && b == d
  {
    var t, u := a + [COLON] + b, c + [COLON] + d;
    assert t[|a|] == COLON && u[|c|] == COLON;
    assert t[..|a|] == a && u[..|c|] == c;
    assert t[|a| + 1..] == b && u[|c| + 1..] == d;
  }

  lemma KeysOfOneAgree(letter: CodePoint, a: Text, b: Text)
    ensures JoinKey(letter, [a]) == JoinKey(letter, [b]) <==> Lower(a) == Lower(b)
  {
    assert JoinKey(letter, [a])[2..] == Lower(a) && JoinKey(letter, [b])[2..] == Lower(b);
  }

  lemma KeyOfTwo(letter: CodePoint, a: Text, x: Text)
    ensures JoinKey(letter, [a, x]) == [letter, COLON] + (Lower(a) + [COLON] + Lower(x))
  {
  }

  lemma SameAfterPrefix(p: Text, a: Text, b: Text)
    ensures p + a == p + b <==> a == b
  {
    assert (p + a)[|p|..] == a && (p + b)[|p|..] == b;
  }

  lemma KeysOfTwoAgree(letter: CodePoint, a: Text, x: Text, b: Text, y: Text)
    requires NoColon(a) && NoColon(b)
    ensures JoinKey(letter, [a, x]) == JoinKey(letter, [b, y]) <==> Lower(a) == Lower(b) && Lower(x) == Lower(y)
  {
    var ka, kb := Lower(a) + [COLON] + Lower(x), Lower(b) + [COLON] + Lower(y);
    KeyOfTwo(letter, a, x);
    KeyOfTwo(letter, b, y);
    SameAfterPrefix([letter, COLON], ka, kb);
    if ka == kb {
      ColonSplits(Lower(a), Lower(x), Lower(b), Lower(y));
    }
  }

  /** Two keys with the same letter agree exactly when their fields do, case aside. */
  lemma KeysAgree(letter: CodePoint, a: seq<Text>, b: seq<Text>)
    requires 1 <= |a| == |b| <= 2 && NoColon(a[0]) && NoColon(b[0])
    ensures JoinKey(letter, a) == JoinKey(letter, b) <==> SameFields(a, b)
  {
    if |a| == 1 {
      assert a == [a[0]] && b == [b[0]];
      KeysOfOneAgree(letter, a[0], b[0]);
    } else {
      assert a == [a[0], a[1]] && b == [b[0], b[1]];
      KeysOfTwoAgree(letter, a[0], a[1], b[0], b[1]);
    }
  }

  lemma FieldHasNoColon(f: Field, t: Text)
    requires IsCorrelationField(f) && Matches(f, t)
    ensures NoColon(t)
  {
  }

  lemma RequestFieldsHaveNoColon(r: ProtocolMessage)
    requires r.IsAnswerable() && InGrammar(r)
    ensures NoColon(RequestCorrelation(r)[0])
  {
    FieldHasNoColon(TargetField, RequestCorrelation(r)[0]);
  }

  /** Requests share a reply key exactly when they are of one type and name the same peer, id or target, case aside. */
  lemma RequestKeysAgree(q: ProtocolMessage, r: ProtocolMessage)
    requires q.IsAnswerable() && r.IsAnswerable() && InGrammar(q) && InGrammar(r)
    ensures RequestKey(q) == RequestKey(r) <==>
      Letter(q) == Letter(r) && SameFields(RequestCorrelation(q), RequestCorrelation(r))
  {
    RequestFieldsHaveNoColon(q);
    RequestFieldsHaveNoColon(r);
    assert RequestKey(q)[0] == Letter(q) && RequestKey(r)[0] == Letter(r);
    if Letter(q) == Letter(r) {
      KeysAgree(Letter(q), RequestCorrelation(q), RequestCorrelation(r));
    }
  }

  /**
   A malformed request whose references parsed has the reply key of the corrected request and of
   no other; and when the correction repeats the fields letter for letter, both errors carry the
   same reference.
   */
  lemma CorrectedRequestHasSameKey(t: Text, rowId: nat, r: ProtocolMessage)
    requires r.IsAnswerable() && InGrammar(r)
    requires Parse(t).SyntaxError? && Parse(t).requestType == [Letter(r)]
    requires |Parse(t).correlationFields| >= CorrelationCount([Letter(r)]).value
    ensures var found := Parse(t).correlationFields[..CorrelationCount([Letter(r)]).value];
      && (ReplyKey(Parse(t), rowId) == Some(RequestKey(r)) <==> SameFields(found, RequestCorrelation(r)))
      && (found == RequestCorrelation(r) ==>
        GrammarErrorReply(Parse(t)).value.reference == RequestErrorReply([], r).reference)
  {
    SyntaxErrorReferenceOk(t[3 + VersionDigits(t).value..]);
    FoundFieldsKey(Parse(t), rowId, r);
    if Parse(t).correlationFields[..CorrelationCount([Letter(r)]).value] == RequestCorrelation(r) {
      FoundFieldsReference(Parse(t), r);
    }
  }

  lemma FoundFieldsKey(p: Parsed, rowId: nat, r: ProtocolMessage)
    requires r.IsAnswerable() && InGrammar(r) && p.SyntaxError? && p.requestType == [Letter(r)]
    requires |p.correlationFields| >= CorrelationCount([Letter(r)]).value && NoColon(p.correlationFields[0])
    ensures ReplyKey(p, rowId) == Some(RequestKey(r)) <==>
      SameFields(p.correlationFields[..CorrelationCount([Letter(r)]).value], RequestCorrelation(r))
  {
    RequestFieldsHaveNoColon(r);
    KeysAgree(Letter(r), p.correlationFields[..CorrelationCount([Letter(r)]).value], RequestCorrelation(r));
  }

  lemma FoundFieldsReference(p: Parsed, r: ProtocolMessage)
    requires r.IsAnswerable() && p.SyntaxError? && p.requestType == [Letter(r)]
    requires |p.correlationFields| >= CorrelationCount([Letter(r)]).value
    requires p.correlationFields[..CorrelationCount([Letter(r)]).value] == RequestCorrelation(r)
    ensures GrammarErrorReply(p).Some? && GrammarErrorReply(p).value.reference == RequestErrorReply([], r).reference
  {
  }

  /** A reply without a reference has a key of its own: no request's, and no other row's. */
  lemma UnreferencedKeysAreUnique(row: nat, other: nat, r: ProtocolMessage)
    requires r.IsAnswerable()
    ensures UnreferencedKey(row) != RequestKey(r)
    ensures UnreferencedKey(row) == UnreferencedKey(other) <==> row == other
  {
    assert RequestKey(r)[0] == Letter(r) && UnreferencedKey(row)[0] == QUESTION_MARK;
    assert UnreferencedKey(row)[2..] == Decimal(row) && UnreferencedKey(other)[2..] == Decimal(other);
    ValueOfDecimal(row);
    ValueOfDecimal(other);
  }

  /** Lower-casing the decimal digits of an id changes nothing, so equal keys mean equal ids. */
  lemma SameIdsInKeys(q: ProtocolMessage, r: ProtocolMessage)
    requires (q.MessagePartRequest? && r.MessagePartRequest?) || (q.ReadRequest? && r.ReadRequest?)
    requires SameFields(RequestCorrelation(q), RequestCorrelation(r))
    ensures q.id == r.id && Lower(q.peer) == Lower(r.peer)
  {
    assert Lower(RequestCorrelation(q)[1]) == Lower(RequestCorrelation(r)[1]);
    assert Lower(RequestCorrelation(q)[0]) == Lower(RequestCorrelation(r)[0]);
    LowerOfDigits(Decimal(q.id));
    LowerOfDigits(Decimal(r.id));
    ValueOfDecimal(q.id);
    ValueOfDecimal(r.id);
  }

  lemma LowerOfDigits(t: Text)
    requires AllDigits(t)
    ensures Lower(t) == t
  {
  }
}
