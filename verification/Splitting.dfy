/**
 The reference splitter: a text becomes the fewest parts, cut at code points, with grapheme
 clusters kept whole whenever that costs no part more.
 */
module Splitting {
  import opened Texts

  // ----- greedy packing ---------------------------------------------------------------------------

  function Bytes(units: seq<Text>): nat {
    Utf8Bytes(Join(units))
  }

  /** The groups in order, one after the other. */
  function Concat<T>(groups: seq<seq<T>>): seq<T> {
    if groups == [] then [] else groups[0] + Concat(groups[1..])
  }

  /** Each group as one part. */
  function Parts(groups: seq<seq<Text>>): (parts: seq<Text>)
    ensures |parts| == |groups|
    ensures forall i | 0 <= i < |groups| :: parts[i] == Join(groups[i])
  {
    if groups == [] then [] else [Join(groups[0])] + Parts(groups[1..])
  }

  /** Greedy filling, from a part that already holds `current`: the next part begins where the budget is exceeded. */
  function Fill(units: seq<Text>, budget: nat, current: seq<Text>): seq<seq<Text>>
    decreases |units|
  {
    if units == [] then Closed(current)
    else if Bytes(current) + Utf8Bytes(units[0]) > budget then Closed(current) + Fill(units[1..], budget, [units[0]])
    else Fill(units[1..], budget, current + [units[0]])
  }

  function Closed(current: seq<Text>): seq<seq<Text>> {
    if current == [] then [] else [current]
  }

  function CodePoints(t: Text): (units: seq<Text>)
    ensures |units| == |t|
    ensures forall i | 0 <= i < |t| :: units[i] == [t[i]]
  {
    seq(|t|, i requires 0 <= i < |t| => [t[i]])
  }

  /** What is packed: every unit whole, except one longer than a whole part, which goes code point by code point. */
  function Pieces(units: seq<Text>, budget: nat): seq<Text> {
    if units == [] then []
    else (if Utf8Bytes(units[0]) > budget then CodePoints(units[0]) else [units[0]]) + Pieces(units[1..], budget)
  }

  function Pack(units: seq<Text>, budget: nat): seq<seq<Text>> {
    Fill(Pieces(units, budget), budget, [])
  }

  predicate Fit(units: seq<Text>, budget: nat) {
    forall i | 0 <= i < |units| :: Utf8Bytes(units[i]) <= budget
  }

  // ----- what packing keeps -----------------------------------------------------------------------

  lemma BytesConcat(a: seq<Text>, b: seq<Text>)
    ensures Bytes(a + b) == Bytes(a) + Bytes(b)
  {
    JoinConcat(a, b);
    Utf8BytesConcat(Join(a), Join(b));
  }

  lemma BytesOfOne(u: Text)
    ensures Join([u]) == u && Bytes([u]) == Utf8Bytes(u)
  {
    assert [u][1..] == [];
    assert u + [] == u;
  }

  lemma {:induction false} ConcatConcat<T>(a: seq<seq<T>>, b: seq<seq<T>>)
    ensures Concat(a + b) == Concat(a) + Concat(b)
  {
    if a == [] {
      assert a + b == b;
    } else {
      assert (a + b)[1..] == a[1..] + b;
      ConcatConcat(a[1..], b);
    }
  }

  /** Packing loses nothing and reorders nothing. */
  lemma {:induction false} FillKeepsUnits(units: seq<Text>, budget: nat, current: seq<Text>)
    ensures Concat(Fill(units, budget, current)) == current + units
    decreases |units|
  {
    if units == [] {
      assert current + [] == current;
    } else if Bytes(current) + Utf8Bytes(units[0]) > budget {
      FillKeepsUnits(units[1..], budget, [units[0]]);
      ConcatConcat(Closed(current), Fill(units[1..], budget, [units[0]]));
      assert Concat(Closed(current)) == current;
      assert [units[0]] + units[1..] == units;
    } else {
      FillKeepsUnits(units[1..], budget, current + [units[0]]);
      assert current + [units[0]] + units[1..] == current + units;
    }
  }

  predicate Within(groups: seq<seq<Text>>, budget: nat) {
    forall i | 0 <= i < |groups| :: Bytes(groups[i]) <= budget
  }

  /** No part is over the budget. */
  lemma {:induction false} FillStaysWithin(units: seq<Text>, budget: nat, current: seq<Text>)
    requires Fit(units, budget) && Bytes(current) <= budget
    ensures Within(Fill(units, budget, current), budget)
    decreases |units|
  {
    if units != [] {
      var u := units[0];
      BytesOfOne(u);
      BytesConcat(current, [u]);
      if Bytes(current) + Utf8Bytes(u) > budget {
        FillStaysWithin(units[1..], budget, [u]);
      } else {
        FillStaysWithin(units[1..], budget, current + [u]);
      }
    }
  }

  predicate NoneEmpty(groups: seq<seq<Text>>) {
    forall i | 0 <= i < |groups| :: Bytes(groups[i]) > 0
  }

  lemma BytesWithNext(current: seq<Text>, units: seq<Text>)
    requires units != []
    ensures Bytes(current + [units[0]]) == Bytes(current) + Utf8Bytes(units[0])
    ensures (current + [units[0]]) + units[1..] == current + units
    ensures Bytes([units[0]] + units[1..]) >= Utf8Bytes(units[0])
  {
    BytesWithOne(current, units[0]);
    BytesFromOne(units[0], units[1..]);
  }

  lemma BytesWithOne(current: seq<Text>, u: Text)
    ensures Bytes(current + [u]) == Bytes(current) + Utf8Bytes(u)
  {
    BytesOfOne(u);
    BytesConcat(current, [u]);
  }

  lemma BytesFromOne(u: Text, rest: seq<Text>)
    ensures Bytes([u] + rest) >= Utf8Bytes(u)
  {
    BytesOfOne(u);
    BytesConcat([u], rest);
  }

  /** No part is empty, unless the whole text is. */
  lemma {:induction false} FillLeavesNoneEmpty(units: seq<Text>, budget: nat, current: seq<Text>)
    requires Fit(units, budget) && Bytes(current) <= budget && Bytes(current + units) > 0
    ensures NoneEmpty(Fill(units, budget, current))
    decreases |units|
  {
    if units == [] {
      assert current + units == current;
    } else {
      var u := units[0];
      BytesWithNext(current, units);
      assert Fit(units[1..], budget);
      BytesOfOne(u);
      if Bytes(current) + Utf8Bytes(u) > budget {
        FillLeavesNoneEmpty(units[1..], budget, [u]);
      } else {
        FillLeavesNoneEmpty(units[1..], budget, current + [u]);
      }
    }
  }

  /** A run of units inside another has no more bytes. */
  lemma InnerBytes(whole: seq<Text>, from: nat, to: nat)
    requires from <= to <= |whole|
    ensures Bytes(whole[from..to]) <= Bytes(whole)
  {
    assert whole == whole[..from] + (whole[from..to] + whole[to..]);
    BytesConcat(whole[..from], whole[from..to] + whole[to..]);
    BytesConcat(whole[from..to], whole[to..]);
  }

  /**
   Greedy packing is optimal: no grouping of the same units, even one that also has to place
   some units before them, gets by with fewer parts.
   */
  lemma {:induction false} FillIsMinimal(units: seq<Text>, budget: nat, current: seq<Text>, extra: seq<Text>,
                                        groups: seq<seq<Text>>)
    requires Fit(units, budget) && Within(groups, budget) && Concat(groups) == extra + current + units
    ensures |Fill(units, budget, current)| <= |groups|
    decreases |units|
  {
    if units == [] {
      assert current != [] ==> groups != [];
    } else {
      var u, rest := units[0], units[1..];
      assert units == [u] + rest;
      if Bytes(current) + Utf8Bytes(u) > budget {
        assert groups != [];
        var before := extra + current;
        var all := before + units;
        assert groups[0] == all[..|groups[0]|] && Concat(groups[1..]) == all[|groups[0]|..];
        if |groups[0]| > |before| {
          assert groups[0][|extra|..|before| + 1] == current + [u];
          InnerBytes(groups[0], |extra|, |before| + 1);
          BytesConcat(current, [u]);
          BytesOfOne(u);
          assert false;
        } else {
          var later := before[|groups[0]|..];
          assert all[|groups[0]|..] == later + [u] + rest;
          FillIsMinimal(rest, budget, [u], later, groups[1..]);
          assert |Closed(current)| <= 1;
        }
      } else {
        assert extra + (current + [u]) + rest == extra + current + units;
        FillIsMinimal(rest, budget, current + [u], extra, groups);
      }
    }
  }

  // ----- whole texts --------------------------------------------------------------------------------

  lemma {:induction false} JoinCodePoints(t: Text)
    ensures Join(CodePoints(t)) == t
  {
    if t != [] {
      JoinCodePoints(t[1..]);
      assert CodePoints(t)[1..] == CodePoints(t[1..]);
      assert CodePoints(t)[0] == [t[0]];
    }
  }

  lemma CodePointsConcat(a: Text, b: Text)
    ensures CodePoints(a + b) == CodePoints(a) + CodePoints(b)
  {
  }

  lemma CodePointsFit(t: Text, budget: nat)
    requires 4 <= budget
    ensures Fit(CodePoints(t), budget)
  {
    forall i | 0 <= i < |t| ensures Utf8Bytes(CodePoints(t)[i]) <= budget {
      assert CodePoints(t)[i] == [t[i]];
    }
  }

  /** Pieces join to the same text and always fit a part. */
  lemma {:induction false} PiecesKeepText(units: seq<Text>, budget: nat)
    requires 4 <= budget
    ensures Join(Pieces(units, budget)) == Join(units)
    ensures Fit(Pieces(units, budget), budget)
  {
    if units != [] {
      var first := if Utf8Bytes(units[0]) > budget then CodePoints(units[0]) else [units[0]];
      PiecesKeepText(units[1..], budget);
      JoinCodePoints(units[0]);
      BytesOfOne(units[0]);
      CodePointsFit(units[0], budget);
      JoinConcat(first, Pieces(units[1..], budget));
    }
  }

  lemma {:induction false} PiecesOfFitting(units: seq<Text>, budget: nat)
    requires Fit(units, budget)
    ensures Pieces(units, budget) == units
  {
    if units != [] {
      assert Fit(units[1..], budget);
      PiecesOfFitting(units[1..], budget);
    }
  }

  lemma {:induction false} PartsJoin(groups: seq<seq<Text>>)
    ensures Join(Parts(groups)) == Join(Concat(groups))
  {
    if groups != [] {
      PartsJoin(groups[1..]);
      JoinConcat(groups[0], Concat(groups[1..]));
    }
  }

  /** A split of a text at code points: its parts join to it and none is over the budget. */
  predicate IsSplit(text: Text, parts: seq<Text>, budget: nat) {
    Join(parts) == text && forall i | 0 <= i < |parts| :: Utf8Bytes(parts[i]) <= budget
  }

  /** The parts are runs of whole clusters. */
  ghost predicate KeepsWhole(parts: seq<Text>, clusters: seq<Text>) {
    exists groups :: Concat(groups) == clusters && parts == Parts(groups)
  }

  /** Packing gives a split of the text without an empty part. */
  lemma PackSplits(units: seq<Text>, budget: nat)
    requires 4 <= budget
    ensures IsSplit(Join(units), Parts(Pack(units, budget)), budget)
    ensures Join(units) != [] ==>
      forall i | 0 <= i < |Pack(units, budget)| :: Utf8Bytes(Parts(Pack(units, budget))[i]) > 0
  {
    var pieces := Pieces(units, budget);
    PiecesKeepText(units, budget);
    FillKeepsUnits(pieces, budget, []);
    FillStaysWithin(pieces, budget, []);
    assert [] + pieces == pieces;
    PartsJoin(Pack(units, budget));
    if Join(units) != [] {
      FillLeavesNoneEmpty(pieces, budget, []);
    }
  }

  /** Any split of the text is a grouping of its code points. */
  function ByCodePoint(parts: seq<Text>): (groups: seq<seq<Text>>)
    ensures |groups| == |parts|
    ensures forall i | 0 <= i < |parts| :: groups[i] == CodePoints(parts[i])
  {
    if parts == [] then [] else [CodePoints(parts[0])] + ByCodePoint(parts[1..])
  }

  lemma {:induction false} SplitGroupsCodePoints(parts: seq<Text>)
    ensures Concat(ByCodePoint(parts)) == CodePoints(Join(parts))
  {
    if parts != [] {
      SplitGroupsCodePoints(parts[1..]);
      CodePointsConcat(parts[0], Join(parts[1..]));
    }
  }

  lemma {:induction false} CodePointPieces(t: Text, budget: nat)
    requires 4 <= budget
    ensures Pieces(CodePoints(t), budget) == CodePoints(t)
  {
    CodePointsFit(t, budget);
    PiecesOfFitting(CodePoints(t), budget);
  }

  /** Packing code points uses no more parts than any split of the text. */
  lemma CodePointPackIsMinimal(text: Text, budget: nat, other: seq<Text>)
    requires 4 <= budget && IsSplit(text, other, budget)
    ensures |Pack(CodePoints(text), budget)| <= |other|
  {
    var groups := ByCodePoint(other);
    SplitGroupsCodePoints(other);
    CodePointPieces(text, budget);
    CodePointsFit(text, budget);
    forall i | 0 <= i < |groups| ensures Bytes(groups[i]) <= budget {
      JoinCodePoints(other[i]);
    }
    assert [] + [] + CodePoints(text) == CodePoints(text);
    FillIsMinimal(CodePoints(text), budget, [], [], groups);
  }

  /**
   Packing clusters that all fit a part uses no more parts than any split that keeps them whole,
   and keeps them whole.
   */
  lemma ClusterPackIsMinimal(clusters: seq<Text>, budget: nat, groups: seq<seq<Text>>)
    requires Concat(groups) == clusters && Within(groups, budget)
    ensures |Pack(clusters, budget)| <= |groups|
    ensures KeepsWhole(Parts(Pack(clusters, budget)), clusters)
  {
    ClustersFit(groups, budget);
    PiecesOfFitting(clusters, budget);
    assert [] + [] + clusters == clusters && [] + clusters == clusters;
    FillIsMinimal(clusters, budget, [], [], groups);
    FillKeepsUnits(clusters, budget, []);
  }

  /** A cluster kept whole in a part within the budget is itself within the budget. */
  lemma {:induction false} ClustersFit(groups: seq<seq<Text>>, budget: nat)
    requires Within(groups, budget)
    ensures Fit(Concat(groups), budget)
  {
    if groups != [] {
      assert Within(groups[1..], budget);
      ClustersFit(groups[1..], budget);
      forall i | 0 <= i < |groups[0]| ensures Utf8Bytes(groups[0][i]) <= budget {
        assert groups[0][i..i + 1] == [groups[0][i]];
        InnerBytes(groups[0], i, i + 1);
        BytesOfOne(groups[0][i]);
        assert Bytes(groups[0]) <= budget;
      }
    }
  }

  // ----- the splitter -------------------------------------------------------------------------------

  datatype SplitError = EmptyText | CharacterNotAllowed | PiecesDoNotJoin | MessageTooLong(textBytes: nat,
    requiredPartCount: nat)

  datatype SplitResult = SplitInto(parts: seq<Text>) | NotSplit(error: SplitError)

  /** `clusters` is what the grapheme cluster segmenter returned for the text. */
  function SplitMessageText(text: Text, clusters: seq<Text>): SplitResult {
    if text == [] then NotSplit(EmptyText)
    else if !AllAllowed(text) then NotSplit(CharacterNotAllowed)
    else if Join(clusters) != text then NotSplit(PiecesDoNotJoin)
    else
      var byCodePoint := Parts(Pack(CodePoints(text), PART_TEXT_MAXIMUM_BYTES));
      var byCluster := Parts(Pack(clusters, PART_TEXT_MAXIMUM_BYTES));
      var parts := if |byCluster| == |byCodePoint| then byCluster else byCodePoint;
      if |parts| > MAXIMUM_PART_COUNT then NotSplit(MessageTooLong(Utf8Bytes(text), |parts|)) else SplitInto(parts)
  }

  lemma {:induction false} PartsOfAllowedText(parts: seq<Text>)
    requires AllAllowed(Join(parts))
    ensures forall i | 0 <= i < |parts| :: AllAllowed(parts[i])
  {
    if parts != [] {
      var rest := Join(parts[1..]);
      assert Join(parts) == parts[0] + rest;
      forall i | 0 <= i < |parts[0]| ensures IsAllowedInPartText(parts[0][i]) {
        assert Join(parts)[i] == parts[0][i];
      }
      forall i | 0 <= i < |rest| ensures IsAllowedInPartText(rest[i]) {
        assert Join(parts)[|parts[0]| + i] == rest[i];
      }
      PartsOfAllowedText(parts[1..]);
    }
  }

  /** Both packings of a text are splits of it, and neither has an empty part. */
  lemma BothPackingsSplit(text: Text, clusters: seq<Text>)
    requires text != [] && Join(clusters) == text
    ensures forall units | units == CodePoints(text) || units == clusters ::
      var parts := Parts(Pack(units, PART_TEXT_MAXIMUM_BYTES));
      IsSplit(text, parts, PART_TEXT_MAXIMUM_BYTES) && forall i | 0 <= i < |parts| :: Utf8Bytes(parts[i]) > 0
  {
    JoinCodePoints(text);
    PackSplits(CodePoints(text), PART_TEXT_MAXIMUM_BYTES);
    PackSplits(clusters, PART_TEXT_MAXIMUM_BYTES);
  }

  /** The parts join to the text, each is a valid part text, and no split at code points needs fewer. */
  lemma SplitIsOptimal(text: Text, clusters: seq<Text>, other: seq<Text>)
    requires SplitMessageText(text, clusters).SplitInto?
    ensures var parts := SplitMessageText(text, clusters).parts;
      && Join(parts) == text
      && 1 <= |parts| <= MAXIMUM_PART_COUNT
      && (forall i | 0 <= i < |parts| :: IsValidPartText(parts[i]))
      && (IsSplit(text, other, PART_TEXT_MAXIMUM_BYTES) ==> |parts| <= |other|)
  {
    BothPackingsSplit(text, clusters);
    var parts := SplitMessageText(text, clusters).parts;
    PartsOfAllowedText(parts);
    if IsSplit(text, other, PART_TEXT_MAXIMUM_BYTES) {
      CodePointPackIsMinimal(text, PART_TEXT_MAXIMUM_BYTES, other);
    }
  }

  /** A split as short as the result that keeps the clusters whole forces the result to keep them whole. */
  lemma SplitKeepsClusters(text: Text, clusters: seq<Text>)
    requires SplitMessageText(text, clusters).SplitInto?
    ensures var parts := SplitMessageText(text, clusters).parts;
      KeepsWhole(parts, clusters) <==>
        exists other ::
          IsSplit(text, other, PART_TEXT_MAXIMUM_BYTES) && |other| == |parts| && KeepsWhole(other, clusters)
  {
    var parts := SplitMessageText(text, clusters).parts;
    BothPackingsSplit(text, clusters);
    if other :| IsSplit(text, other, PART_TEXT_MAXIMUM_BYTES) && |other| == |parts| && KeepsWhole(other, clusters) {
      var groups :| Concat(groups) == clusters && other == Parts(groups);
      ClusterPackIsMinimal(clusters, PART_TEXT_MAXIMUM_BYTES, groups);
      CodePointPackIsMinimal(text, PART_TEXT_MAXIMUM_BYTES, Parts(Pack(clusters, PART_TEXT_MAXIMUM_BYTES)));
      CodePointPackIsMinimal(text, PART_TEXT_MAXIMUM_BYTES, other);
    } else {
      assert IsSplit(text, parts, PART_TEXT_MAXIMUM_BYTES);
    }
  }

  /** A proper text is refused exactly when no split of it has at most ten parts. */
  lemma TooLongExactly(text: Text, clusters: seq<Text>)
    requires text != [] && AllAllowed(text) && Join(clusters) == text
    ensures SplitMessageText(text, clusters).SplitInto? <==>
      exists other :: IsSplit(text, other, PART_TEXT_MAXIMUM_BYTES) && |other| <= MAXIMUM_PART_COUNT
  {
    BothPackingsSplit(text, clusters);
    var r := SplitMessageText(text, clusters);
    if r.SplitInto? {
      assert IsSplit(text, r.parts, PART_TEXT_MAXIMUM_BYTES);
    } else if other :| IsSplit(text, other, PART_TEXT_MAXIMUM_BYTES) && |other| <= MAXIMUM_PART_COUNT {
      CodePointPackIsMinimal(text, PART_TEXT_MAXIMUM_BYTES, other);
    }
  }

  // ----- the packer as an object ------------------------------------------------------------------------

  lemma FillStep(finished: seq<Text>, current: seq<Text>, unit: Text, rest: seq<Text>, budget: nat)
    ensures finished + Parts(Fill([unit] + rest, budget, current)) ==
      if Bytes(current) + Utf8Bytes(unit) > budget
      then (finished + Parts(Closed(current))) + Parts(Fill(rest, budget, [unit]))
      else finished + Parts(Fill(rest, budget, current + [unit]))
  {
    assert ([unit] + rest)[1..] == rest;
    PartsConcat(Closed(current), Fill(rest, budget, [unit]));
  }

  /** Fills parts greedily, unit by unit. */
  class PartPacker {
    const partByteBudget: nat
    var finishedParts: seq<Text>
    var currentUnits: seq<Text>
    var currentBytes: nat

    ghost predicate Valid()
      reads this
    {
      currentBytes == Bytes(currentUnits)
    }

    /** The parts the packer ends with once these units follow. */
    ghost function Outcome(rest: seq<Text>): seq<Text>
      reads this
    {
      finishedParts + Parts(Fill(rest, partByteBudget, currentUnits))
    }

    constructor (budget: nat)
      ensures Valid() && partByteBudget == budget && Outcome([]) == []
      ensures finishedParts == [] && currentUnits == []
    {
      partByteBudget := budget;
      finishedParts, currentUnits, currentBytes := [], [], 0;
    }

    method FinishCurrentPart()
      requires Valid()
      modifies this
      ensures Valid() && currentUnits == []
      ensures finishedParts == old(finishedParts) + Parts(Closed(old(currentUnits)))
    {
      if currentUnits != [] {
        finishedParts := finishedParts + [Join(currentUnits)];
      }
      currentUnits, currentBytes := [], 0;
    }

    /** Adding a unit leaves the outcome of the whole list as it was with the unit still to come. */
    method AddUnit(unit: Text, ghost rest: seq<Text>)
      requires Valid()
      modifies this
      ensures Valid() && Outcome(rest) == old(Outcome([unit] + rest))
    {
      FillStep(finishedParts, currentUnits, unit, rest, partByteBudget);
      BytesOfOne(unit);
      BytesConcat(currentUnits, [unit]);
      if currentBytes + Utf8Bytes(unit) > partByteBudget {
        FinishCurrentPart();
        assert currentUnits + [unit] == [unit];
      }
      currentUnits := currentUnits + [unit];
      currentBytes := currentBytes + Utf8Bytes(unit);
    }

    method Finish() returns (parts: seq<Text>)
      requires Valid()
      modifies this
      ensures parts == old(Outcome([]))
    {
      FinishCurrentPart();
      return finishedParts;
    }
  }

  lemma {:induction false} PartsConcat(a: seq<seq<Text>>, b: seq<seq<Text>>)
    ensures Parts(a + b) == Parts(a) + Parts(b)
  {
    if a == [] {
      assert a + b == b;
    } else {
      assert (a + b)[1..] == a[1..] + b;
      PartsConcat(a[1..], b);
    }
  }

  /** Cuts a unit that exceeds the budget by itself into code points. */
  method AddCodePoints(packer: PartPacker, unit: Text, ghost rest: seq<Text>)
    requires packer.Valid()
    modifies packer
    ensures packer.Valid() && packer.Outcome(rest) == old(packer.Outcome(CodePoints(unit) + rest))
  {
    ghost var outcome := packer.Outcome(CodePoints(unit) + rest);
    assert unit[0..] == unit;
    for i := 0 to |unit|
      invariant packer.Valid() && packer.Outcome(CodePoints(unit[i..]) + rest) == outcome
    {
      ghost var later := CodePoints(unit[i + 1..]) + rest;
      assert CodePoints(unit[i..]) + rest == [[unit[i]]] + later;
      packer.AddUnit([unit[i]], later);
    }
    assert CodePoints(unit[|unit|..]) + rest == rest;
  }

  /** Greedy packing that cuts only what exceeds the budget by itself. */
  method PackUnits(units: seq<Text>, budget: nat) returns (parts: seq<Text>)
    requires 4 <= budget
    ensures parts == Parts(Pack(units, budget))
  {
    var packer := new PartPacker(budget);
    ghost var outcome := packer.Outcome(Pieces(units, budget));
    assert outcome == [] + Parts(Pack(units, budget));
    assert units[0..] == units;
    for i := 0 to |units|
      invariant fresh(packer) && packer.Valid() && packer.Outcome(Pieces(units[i..], budget)) == outcome
    {
      ghost var later := Pieces(units[i + 1..], budget);
      assert units[i..][1..] == units[i + 1..];
      if Utf8Bytes(units[i]) > budget {
        AddCodePoints(packer, units[i], later);
      } else {
        packer.AddUnit(units[i], later);
      }
    }
    assert Pieces(units[|units|..], budget) == [];
    parts := packer.Finish();
  }

  /** Splits a text as the transition from text to parts says. */
  method Split(text: Text, clusters: seq<Text>) returns (r: SplitResult)
    ensures r == SplitMessageText(text, clusters)
  {
    if text == [] {
      return NotSplit(EmptyText);
    }
    if !AllAllowed(text) {
      return NotSplit(CharacterNotAllowed);
    }
    if Join(clusters) != text {
      return NotSplit(PiecesDoNotJoin);
    }
    var byCodePoint := PackUnits(CodePoints(text), PART_TEXT_MAXIMUM_BYTES);
    var byCluster := PackUnits(clusters, PART_TEXT_MAXIMUM_BYTES);
    var parts := if |byCluster| == |byCodePoint| then byCluster else byCodePoint;
    if |parts| > MAXIMUM_PART_COUNT {
      return NotSplit(MessageTooLong(Utf8Bytes(text), |parts|));
    }
    return SplitInto(parts);
  }
}
