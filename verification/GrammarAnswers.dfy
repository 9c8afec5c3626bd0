/** Which texts the grammar itself answers, and with which error, told from the text alone. */
module GrammarAnswers {
  import opened Options
  import opened Texts
  import opened Decimals
  import opened FieldGrammar
  import opened ProtocolMessages
  import opened Parsing
  import opened Formatting
  import opened RoundTrips
  import opened Replies
  import opened WireFormat

  /** A text of some protocol version. */
  function Traffic(version: Text, body: Text): Text {
    Chars("HT") + version + Chars(" ") + body
  }

  /** The text of some message. */
  ghost predicate IsMessageText(t: Text) {
    exists m :: InGrammar(m) && Shown(m) == m && t == Wire(m)
  }

  lemma TrafficDigits(version: Text, body: Text)
    requires IsVersionNumberField(version)
    ensures var t := Traffic(version, body);
      VersionDigits(t) == Some(|version|) && t[2..2 + |version|] == version && t[3 + |version|..] == body
  {
    var t := Traffic(version, body);
    assert t[0] == 72 && t[1] == 84 && t[2..2 + |version|] == version && t[2 + |version|] == SPACE;
    assert forall i | 0 <= i < |version| :: IsDigit(version[i]) && t[2 + i] == version[i];
  }

  lemma TrafficOfDigits(t: Text, n: nat)
    requires VersionDigits(t) == Some(n)
    ensures IsVersionNumberField(t[2..2 + n]) && t == Traffic(t[2..2 + n], t[3 + n..])
  {
    assert t[..2] == Chars("HT") && t[2 + n..3 + n] == Chars(" ");
    assert t == t[..2] + t[2..2 + n] + t[2 + n..3 + n] + t[3 + n..];
  }

  lemma MessageTextParses(m: ProtocolMessage)
    requires InGrammar(m) && Shown(m) == m
    ensures Parse(Wire(m)) == Message(m)
  {
    WrittenIsWire(m);
    WrittenShape(m);
    ParseOfVersionOne(Letter(m), JoinFields(WrittenFields(m)));
    ParseOfBody(m);
  }

  /** A text reads as a message exactly when it is some message's text. */
  lemma ParsesExactly(t: Text)
    ensures Parse(t).Message? <==> IsMessageText(t)
  {
    if Parse(t).Message? {
      TextOfParsed(t);
      ParsedIsWire(t);
    }
    if m :| InGrammar(m) && Shown(m) == m && t == Wire(m) {
      MessageTextParses(m);
    }
  }

  /** Any other text is none of the protocol's, and nobody answers it. */
  lemma OtherTextIsIgnored(t: Text)
    requires forall version, body | IsVersionNumberField(version) :: t != Traffic(version, body)
    ensures Parse(t) == OtherText(t) && GrammarErrorReply(Parse(t)).None? && !IsMessageText(t)
  {
    var n := VersionDigits(t);
    if n.Some? {
      TrafficOfDigits(t, n.value);
    }
    ParsesExactly(t);
  }

  /** The letters of requests, and of acknowledgements, which nobody answers. */
  predicate IsRequest(letter: CodePoint) { letter in Chars("AQMRF") }
  predicate IsAcknowledgement(letter: CodePoint) { letter in Chars("KC") }

  predicate IsSyntaxError(reply: Option<ProtocolMessage>, kind: Text) {
    reply.Some? && reply.value.ErrorReply? && reply.value.code == Chars("SYNTAX") && reply.value.requestType == kind
  }

  /** The error a text of the version earns, but for the reference of a syntax error. */
  ghost predicate IsAnswerTo(reply: Option<ProtocolMessage>, version: Text, body: Text) {
    var first := if body == [] then [] else body[..1];
    var isUpper := body != [] && IsUpperCase(body[0]);
    if version != Chars("1") then
      if isUpper then reply == Some(ErrorReply(Chars("VERSION"), Chars("?"), Some(version))) else reply.None?
    else if body == [] || !IsLetter(body[0]) then reply == Some(ErrorReply(Chars("SYNTAX"), Chars("?"), None))
    else if IsRequest(body[0]) then
      if IsMessageText(Traffic(version, body)) then reply.None? else IsSyntaxError(reply, first)
    else if isUpper && !IsAcknowledgement(body[0]) then reply == Some(ErrorReply(Chars("UNSUPPORTED"), first, None))
    else reply.None?
  }

  lemma RequestLetters(letter: CodePoint)
    ensures IsRequest(letter) <==> IsRequestLetter(letter)
    ensures IsAcknowledgement(letter) <==> letter == DELIVERY_ACKNOWLEDGEMENT || letter == RECEIPT_ACKNOWLEDGEMENT
    ensures Chars("?") == UNKNOWN_REQUEST_TYPE
  {
    assert Chars("AQMRF") == [65, 81, 77, 82, 70] && Chars("KC") == [75, 67];
  }

  /** An upper-case letter that is neither a request's nor an acknowledgement's has no layout. */
  lemma UnknownLetters(letter: CodePoint)
    requires IsUpperCase(letter)
    ensures LayoutOf(letter).None? <==> !IsRequest(letter) && !IsAcknowledgement(letter)
  {
    RequestLetters(letter);
  }

  lemma VersionOneAnswer(body: Text)
    requires body != [] && IsLetter(body[0])
    ensures IsAnswerTo(GrammarErrorReply(ParseBody(body)), Chars("1"), body)
  {
    RequestLetters(body[0]);
    BodyByLetter(body);
    TrafficDigits(Chars("1"), body);
    ParsesExactly(Traffic(Chars("1"), body));
    assert [body[0]] == body[..1];
    if IsUpperCase(body[0]) {
      UnknownLetters(body[0]);
    }
  }

  /** The grammar answers every text of the protocol with exactly the error it earns. */
  lemma GrammarAnswersAsDue(version: Text, body: Text)
    requires IsVersionNumberField(version)
    ensures IsAnswerTo(GrammarErrorReply(Parse(Traffic(version, body))), version, body)
  {
    TrafficDigits(version, body);
    RequestLetters(0);
    if version == Chars("1") && body != [] && IsLetter(body[0]) {
      VersionOneAnswer(body);
    }
  }
}
