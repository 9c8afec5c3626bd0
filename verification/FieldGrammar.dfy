/** Which texts are valid fields of HT1 messages, and how fields are joined and cut at spaces. */
module FieldGrammar {
  import opened Options
  import opened Texts
  import opened Decimals

  const SPACE: CodePoint := 32
  const SLASH: CodePoint := 47
  const STAR: CodePoint := 42
  const QUESTION_MARK: CodePoint := 63
  const UNDERSCORE: CodePoint := 95
  const NUL: CodePoint := 0

  const MESSAGE_ID_MAXIMUM_DIGITS := 16
  const MESSAGE_ID_MAXIMUM := 9_999_999_999_999_999

  predicate IsUpperCase(c: CodePoint) { 65 <= c <= 90 }
  predicate IsLowerCase(c: CodePoint) { 97 <= c <= 122 }
  predicate IsLetter(c: CodePoint) { IsUpperCase(c) || IsLowerCase(c) }
  predicate IsUsernameCharacter(c: CodePoint) { IsLetter(c) || IsDigit(c) }
  predicate IsBit(c: CodePoint) { c == 48 || c == 49 }
  predicate IsErrorCodeCharacter(c: CodePoint) { IsUpperCase(c) || c == UNDERSCORE }

  predicate IsValidUsername(t: Text) {
    3 <= |t| <= 16 && forall i | 0 <= i < |t| :: IsUsernameCharacter(t[i])
  }

  predicate IsMessageIdField(t: Text) {
    IsPlainNumber(t) && |t| <= MESSAGE_ID_MAXIMUM_DIGITS
  }

  /** One or two digits without a leading zero. */
  predicate IsPartNumberField(t: Text) {
    IsPlainNumber(t) && |t| <= 2
  }

  /** Where the slash of "number/count" stands, after one or two characters. */
  function SlashAt(t: Text): nat {
    if |t| >= 2 && t[1] == SLASH then 1 else 2
  }

  predicate IsPartField(t: Text) {
    var i := SlashAt(t);
    i < |t| && t[i] == SLASH && IsPartNumberField(t[..i]) && IsPartNumberField(t[i + 1..])
  }

  function ReadPartField(t: Text): (nat, nat)
    requires IsPartField(t)
  {
    (Value(t[..SlashAt(t)]), Value(t[SlashAt(t) + 1..]))
  }

  predicate IsReceivedSetField(t: Text) {
    1 <= |t| <= MAXIMUM_PART_COUNT && forall i | 0 <= i < |t| :: IsBit(t[i])
  }

  predicate IsReceiptLevelField(t: Text) {
    t == Chars("D") || t == Chars("R")
  }

  predicate IsExistenceField(t: Text) {
    |t| == 1 && IsBit(t[0])
  }

  predicate IsMessageCountField(t: Text) {
    t == [ZERO] || (IsPlainNumber(t) && |t| <= 4)
  }

  predicate IsRefreshTargetField(t: Text) {
    t == [STAR] || IsValidUsername(t)
  }

  predicate IsErrorCodeField(t: Text) {
    1 <= |t| <= 16 && forall i | 0 <= i < |t| :: IsErrorCodeCharacter(t[i])
  }

  predicate IsRequestTypeField(t: Text) {
    |t| == 1 && (IsUpperCase(t[0]) || t[0] == QUESTION_MARK)
  }

  predicate IsVersionNumberField(t: Text) {
    1 <= |t| <= 3 && AllDigits(t)
  }

  /** What an error may point at: a user with or without an id, every user, or a version. */
  predicate IsErrorReferenceField(t: Text) {
    var fields := Split(t);
    || (|fields| == 2 && IsValidUsername(fields[0]) && IsMessageIdField(fields[1]))
    || (|fields| == 1 && (IsRefreshTargetField(fields[0]) || IsVersionNumberField(fields[0])))
  }

  /** A password or part text: no NUL, no lone surrogate, spaces included, possibly empty. */
  predicate IsTailField(t: Text) {
    forall i | 0 <= i < |t| :: t[i] != NUL && !IsSurrogate(t[i])
  }

  // ----- cutting and joining at spaces --------------------------------------------------------------

  function FirstSpace(t: Text): (r: Option<nat>)
    ensures r.Some? ==> r.value < |t| && t[r.value] == SPACE && forall i | 0 <= i < r.value :: t[i] != SPACE
    ensures r.None? ==> NoSpace(t)
  {
    if t == [] then None
    else if t[0] == SPACE then Some(0)
    else match FirstSpace(t[1..])
      case None => None
      case Some(i) => Some(i + 1)
  }

  predicate NoSpace(t: Text) {
    forall i | 0 <= i < |t| :: t[i] != SPACE
  }

  /** Cuts at the first `limit` spaces. */
  function SplitAtMost(t: Text, limit: nat): (fields: seq<Text>)
    ensures |fields| >= 1
    decreases limit
  {
    if limit == 0 || FirstSpace(t).None? then [t]
    else [t[..FirstSpace(t).value]] + SplitAtMost(t[FirstSpace(t).value + 1..], limit - 1)
  }

  /** Cuts at every space; a text has no more spaces than characters. */
  function Split(t: Text): (fields: seq<Text>)
    ensures |fields| >= 1
  {
    SplitAtMost(t, |t|)
  }

  function JoinFields(fields: seq<Text>): Text
    requires |fields| >= 1
  {
    if |fields| == 1 then fields[0] else fields[0] + [SPACE] + JoinFields(fields[1..])
  }

  lemma FirstSpaceIs(t: Text, i: nat)
    requires i < |t| && t[i] == SPACE && forall j | 0 <= j < i :: t[j] != SPACE
    ensures FirstSpace(t) == Some(i)
  {
    var r := FirstSpace(t);
    assert t[i] == SPACE;
    assert r.Some?;
    assert t[r.value] == SPACE;
  }

  /** Joining puts the text together again. */
  lemma {:induction false} JoinOfSplit(t: Text, limit: nat)
    ensures JoinFields(SplitAtMost(t, limit)) == t
    decreases limit
  {
    if limit > 0 && FirstSpace(t).Some? {
      var i := FirstSpace(t).value;
      JoinOfSplit(t[i + 1..], limit - 1);
      JoinOfCut(t, i, SplitAtMost(t[i + 1..], limit - 1));
    }
  }

  lemma JoinOfCut(t: Text, i: nat, rest: seq<Text>)
    requires i < |t| && t[i] == SPACE && |rest| >= 1 && JoinFields(rest) == t[i + 1..]
    ensures JoinFields([t[..i]] + rest) == t
  {
    assert ([t[..i]] + rest)[1..] == rest;
    assert t[..i] + [SPACE] + t[i + 1..] == t;
  }

  predicate NoSpaces(fields: seq<Text>) {
    forall i | 0 <= i < |fields| :: NoSpace(fields[i])
  }

  /** Only the last field may hold spaces. */
  predicate OnlyTailHasSpaces(fields: seq<Text>) {
    forall i | 0 <= i < |fields| - 1 :: NoSpace(fields[i])
  }

  lemma CutFirst(first: Text, rest: Text, limit: nat)
    requires NoSpace(first) && limit > 0
    ensures SplitAtMost(first + [SPACE] + rest, limit) == [first] + SplitAtMost(rest, limit - 1)
  {
    var t := first + [SPACE] + rest;
    FirstSpaceIs(t, |first|);
    assert t[..|first|] == first && t[|first| + 1..] == rest;
  }

  lemma OneField(t: Text, limit: nat)
    requires limit == 0 || NoSpace(t)
    ensures SplitAtMost(t, limit) == [t]
  {
  }

  lemma RestHasNoSpaces(fields: seq<Text>)
    requires |fields| >= 2 && OnlyTailHasSpaces(fields)
    ensures OnlyTailHasSpaces(fields[1..]) && NoSpace(fields[0])
    ensures fields[1..][|fields| - 2] == fields[|fields| - 1]
  {
    var rest := fields[1..];
    forall i | 0 <= i < |rest| - 1 ensures NoSpace(rest[i]) {
      assert rest[i] == fields[i + 1];
    }
  }

  /** One field cut off, and the rest already known to come back. */
  lemma CutJoined(fields: seq<Text>, limit: nat)
    requires |fields| >= 2 && NoSpace(fields[0]) && limit > 0
    requires SplitAtMost(JoinFields(fields[1..]), limit - 1) == fields[1..]
    ensures SplitAtMost(JoinFields(fields), limit) == fields
  {
    var rest := fields[1..];
    assert JoinFields(fields) == fields[0] + [SPACE] + JoinFields(rest);
    CutFirst(fields[0], JoinFields(rest), limit);
    assert SplitAtMost(JoinFields(fields), limit) == [fields[0]] + rest;
    assert [fields[0]] + rest == fields;
  }

  lemma OnlyField(fields: seq<Text>, limit: nat)
    requires |fields| == 1 && (limit == 0 || NoSpace(fields[0]))
    ensures SplitAtMost(JoinFields(fields), limit) == fields
  {
    assert JoinFields(fields) == fields[0];
    OneField(fields[0], limit);
    assert [fields[0]] == fields;
  }

  /** Cutting with room for exactly these fields gives them back, if only the last may hold spaces. */
  lemma {:induction false} SplitOfJoin(fields: seq<Text>, limit: nat)
    requires |fields| >= 1 && OnlyTailHasSpaces(fields)
    requires |fields| - 1 == limit || (|fields| - 1 <= limit && NoSpace(fields[|fields| - 1]))
    ensures SplitAtMost(JoinFields(fields), limit) == fields
    decreases |fields|
  {
    if |fields| == 1 {
      OnlyField(fields, limit);
    } else {
      RestHasNoSpaces(fields);
      SplitOfJoin(fields[1..], limit - 1);
      CutJoined(fields, limit);
    }
  }

  lemma {:induction false} JoinLength(fields: seq<Text>)
    requires |fields| >= 1
    ensures |JoinFields(fields)| >= |fields| - 1
    decreases |fields|
  {
    if |fields| > 1 {
      JoinLength(fields[1..]);
    }
  }

  lemma WholeSplitOfJoin(fields: seq<Text>)
    requires |fields| >= 1 && NoSpaces(fields)
    ensures Split(JoinFields(fields)) == fields
  {
    JoinLength(fields);
    assert NoSpace(fields[|fields| - 1]);
    SplitOfJoin(fields, |JoinFields(fields)|);
  }
}
