/** A strict reader of HT1 texts, driven by the layouts; every text has an outcome. */
module Parsing {
  import opened Options
  import opened Texts
  import opened Decimals
  import opened FieldGrammar
  import opened ProtocolMessages

  const UNKNOWN_REQUEST_TYPE: Text := [QUESTION_MARK]

  /** How many version digits follow "HT" before the space that makes a text protocol traffic. */
  function VersionDigits(t: Text): (r: Option<nat>)
    ensures r.Some? ==>
      1 <= r.value <= 3 && |t| > 2 + r.value && t[2 + r.value] == SPACE && AllDigits(t[2..2 + r.value])
  {
    if |t| < 4 || t[0] != 72 || t[1] != 84 || !IsDigit(t[2]) then None
    else if t[3] == SPACE then Some(1)
    else if |t| >= 5 && IsDigit(t[3]) && t[4] == SPACE then Some(2)
    else if |t| >= 6 && IsDigit(t[3]) && IsDigit(t[4]) && t[5] == SPACE then Some(3)
    else None
  }

  function Parse(t: Text): Parsed {
    match VersionDigits(t)
    case None => OtherText(t)
    case Some(n) =>
      var version, body := t[2..2 + n], t[3 + n..];
      if version != Chars("1") then UnsupportedVersion(version, if body == [] then [] else body[..1])
      else ParseBody(body)
  }

  /** What follows "HT1 ". */
  function ParseBody(body: Text): Parsed {
    if body == [] || !IsLetter(body[0]) then SyntaxError(UNKNOWN_REQUEST_TYPE, [])
    else
      var letter := body[0];
      if letter != ERROR_REPLY && LayoutOf(letter).None? then UnknownMessageType(letter)
      else if |body| < 2 || body[1] != SPACE then SyntaxError([letter], [])
      else if letter == ERROR_REPLY then ParseErrorReply(body[2..])
      else ParseFields(letter, body[2..], LayoutOf(letter).value)
  }

  function CutFields(t: Text, layout: Layout): (fields: seq<Text>)
    ensures |fields| >= 1
  {
    if layout.hasTail then SplitAtMost(t, |layout.header|) else Split(t)
  }

  /** How many leading fields match the header, as far as both go. */
  function MatchingFields(header: seq<Field>, fields: seq<Text>): (n: nat)
    ensures n <= |header| && n <= |fields|
    ensures forall i | 0 <= i < n :: Matches(header[i], fields[i])
    ensures n < |header| && n < |fields| ==> !Matches(header[n], fields[n])
  {
    if header == [] || fields == [] || !Matches(header[0], fields[0]) then 0
    else 1 + MatchingFields(header[1..], fields[1..])
  }

  /** The correlation fields among the first fields. */
  function Correlation(header: seq<Field>, fields: seq<Text>): seq<Text>
    requires |header| == |fields|
  {
    if header == [] then []
    else (if IsCorrelationField(header[0]) then [fields[0]] else []) + Correlation(header[1..], fields[1..])
  }

  function ParseFields(letter: CodePoint, t: Text, layout: Layout): Parsed
    requires LayoutOf(letter) == Some(layout)
  {
    var fields := CutFields(t, layout);
    var n := MatchingFields(layout.header, fields);
    var correlation := Correlation(layout.header[..n], fields[..n]);
    if MatchesLayout(layout, fields) then Message(Build(letter, fields)) else SyntaxError([letter], correlation)
  }

  function ParseErrorReply(t: Text): Parsed {
    var fields := Split(t);
    if !(2 <= |fields| <= 4) then SyntaxError([ERROR_REPLY], [])
    else if !IsErrorCodeField(fields[0]) || !IsRequestTypeField(fields[1]) then SyntaxError([ERROR_REPLY], [])
    else
      var reference := if |fields| == 2 then None else Some(JoinFields(fields[2..]));
      if reference.Some? && !IsErrorReferenceField(reference.value) then SyntaxError([ERROR_REPLY], [])
      else Message(ErrorReply(fields[0], fields[1], reference))
  }

  /** The loop that collects the correlation fields, as the parser runs it. */
  method CheckHeader(header: seq<Field>, fields: seq<Text>) returns (matched: bool, correlation: seq<Text>)
    ensures var n := MatchingFields(header, fields);
      && correlation == Correlation(header[..n], fields[..n])
      && (matched <==> n == |header| || n == |fields|)
  {
    correlation := [];
    ghost var n := MatchingFields(header, fields);
    var i := 0;
    while i < |header| && i < |fields|
      invariant i <= |header| && i <= |fields| && i <= n
      invariant correlation == Correlation(header[..i], fields[..i])
    {
      if !Matches(header[i], fields[i]) {
        return false, correlation;
      }
      CorrelationGrows(header, fields, i);
      if IsCorrelationField(header[i]) {
        correlation := correlation + [fields[i]];
      }
      i := i + 1;
    }
    matched := true;
  }

  lemma {:induction false} CorrelationGrows(header: seq<Field>, fields: seq<Text>, i: nat)
    requires i < |header| && i < |fields|
    ensures Correlation(header[..i + 1], fields[..i + 1]) ==
      Correlation(header[..i], fields[..i]) + (if IsCorrelationField(header[i]) then [fields[i]] else [])
    decreases i
  {
    if i == 0 {
      assert header[..1][1..] == [] && fields[..1][1..] == [];
    } else {
      TailOfTake(header, i + 1);
      TailOfTake(fields, i + 1);
      TailOfTake(header, i);
      TailOfTake(fields, i);
      CorrelationGrows(header[1..], fields[1..], i - 1);
    }
  }

  lemma TailOfTake<T>(s: seq<T>, n: nat)
    requires 1 <= n <= |s|
    ensures s[..n][1..] == s[1..][..n - 1]
  {
  }
}
