/**
 Received-sets on the wire, masks in the database and sets of part numbers in the engine: three
 forms of one thing. Bit n - 1 of a mask stands for part n, and so does character n of the text.
 */
module ReceivedSets {
  import opened Options
  import opened Texts
  import opened Tables
  import opened FieldGrammar
  import opened Transitions

  function Pow2(n: nat): (p: nat)
    ensures p >= 1
  {
    if n == 0 then 1 else 2 * Pow2(n - 1)
  }

  /** The mask of a list of flags, the first flag in the lowest bit. */
  function MaskOf(flags: seq<bool>): nat {
    if flags == [] then 0 else (if flags[0] then 1 else 0) + 2 * MaskOf(flags[1..])
  }

  /** The lowest n bits of a mask. */
  function Bits(mask: nat, n: nat): (flags: seq<bool>)
    ensures |flags| == n
  {
    if n == 0 then [] else [mask % 2 == 1] + Bits(mask / 2, n - 1)
  }

  /** The part numbers a mask holds. */
  function PartsIn(mask: nat, n: nat): set<nat> {
    Reported(Bits(mask, n))
  }

  function Flags(t: Text): (flags: seq<bool>)
    ensures |flags| == |t|
  {
    seq(|t|, i requires 0 <= i < |t| => t[i] == 49)
  }

  function ShowFlags(flags: seq<bool>): (t: Text)
    ensures |t| == |flags|
  {
    seq(|flags|, i requires 0 <= i < |flags| => if flags[i] then 49 else 48)
  }

  // ----- round trips --------------------------------------------------------------------------------------

  lemma {:induction false} BitsOfMask(flags: seq<bool>)
    ensures MaskOf(flags) < Pow2(|flags|) && Bits(MaskOf(flags), |flags|) == flags
  {
    if flags != [] {
      BitsOfMask(flags[1..]);
      assert MaskOf(flags) / 2 == MaskOf(flags[1..]);
      assert flags == [flags[0]] + flags[1..];
    }
  }

  lemma {:induction false} MaskOfBits(mask: nat, n: nat)
    requires mask < Pow2(n)
    ensures MaskOf(Bits(mask, n)) == mask
    decreases n
  {
    if n > 0 {
      MaskOfBits(mask / 2, n - 1);
      assert Bits(mask, n)[1..] == Bits(mask / 2, n - 1);
    }
  }

  /** Appending a flag sets or leaves the next bit. */
  lemma {:induction false} MaskAppend(flags: seq<bool>, last: bool)
    ensures MaskOf(flags + [last]) == MaskOf(flags) + (if last then Pow2(|flags|) else 0)
  {
    if flags == [] {
      assert flags + [last] == [last];
      assert [last][1..] == [];
    } else {
      assert (flags + [last])[1..] == flags[1..] + [last];
      MaskAppend(flags[1..], last);
    }
  }

  lemma FlagsOfShown(flags: seq<bool>)
    ensures Flags(ShowFlags(flags)) == flags
  {
  }

  lemma ShownOfFlags(t: Text)
    requires forall i | 0 <= i < |t| :: IsBit(t[i])
    ensures ShowFlags(Flags(t)) == t
  {
  }

  /** Reading a received-set and writing it again gives the same text. */
  lemma ReceivedSetRoundTrip(t: Text)
    requires IsReceivedSetField(t)
    ensures ShowFlags(Bits(MaskOf(Flags(t)), |t|)) == t
  {
    BitsOfMask(Flags(t));
    ShownOfFlags(t);
  }

  /** Writing a mask and reading it again gives the same mask, for every mask that fits the message. */
  lemma MaskRoundTrip(mask: nat, n: nat)
    requires mask < Pow2(n)
    ensures MaskOf(Flags(ShowFlags(Bits(mask, n)))) == mask
  {
    FlagsOfShown(Bits(mask, n));
    MaskOfBits(mask, n);
  }

  // ----- masks as sets ----------------------------------------------------------------------------------------

  lemma BitIsPart(mask: nat, n: nat, i: nat)
    ensures i in PartsIn(mask, n) <==> 1 <= i <= n && Bits(mask, n)[i - 1]
  {
  }

  /** Equal masks hold equal parts and the other way round. */
  lemma PartsDetermineMask(a: nat, b: nat, n: nat)
    requires a < Pow2(n) && b < Pow2(n)
    ensures PartsIn(a, n) == PartsIn(b, n) <==> a == b
  {
    if PartsIn(a, n) == PartsIn(b, n) {
      forall i | 0 <= i < n ensures Bits(a, n)[i] == Bits(b, n)[i] {
        BitIsPart(a, n, i + 1);
        BitIsPart(b, n, i + 1);
      }
      assert Bits(a, n) == Bits(b, n);
      MaskOfBits(a, n);
      MaskOfBits(b, n);
    }
  }

  predicate AllSet(flags: seq<bool>) {
    forall i | 0 <= i < |flags| :: flags[i]
  }

  lemma OneMoreSet(flags: seq<bool>)
    requires AllSet(flags)
    ensures AllSet([true] + flags)
  {
  }

  lemma OddBits(half: nat, n: nat)
    requires n > 0
    ensures Bits(2 * half + 1, n) == [true] + Bits(half, n - 1)
  {
    var mask := 2 * half + 1;
    assert mask % 2 == 1 && mask / 2 == half;
    assert Bits(mask, n) == [mask % 2 == 1] + Bits(mask / 2, n - 1);
  }

  lemma {:induction false} AllOnesBits(n: nat)
    ensures AllSet(Bits(Pow2(n) - 1, n))
  {
    if n > 0 {
      AllOnesBits(n - 1);
      OddBits(Pow2(n - 1) - 1, n);
      OneMoreSet(Bits(Pow2(n - 1) - 1, n - 1));
      assert Pow2(n) - 1 == 2 * (Pow2(n - 1) - 1) + 1;
    }
  }

  /** "(1 << n) - 1" is the mask of every part, so comparing with it asks for all ones. */
  lemma AllPartsMask(n: nat)
    ensures PartsIn(Pow2(n) - 1, n) == AllParts(n)
  {
    AllOnesBits(n);
    forall i: nat ensures i in PartsIn(Pow2(n) - 1, n) <==> i in AllParts(n) {
      BitIsPart(Pow2(n) - 1, n, i);
    }
  }

  /** Bit by bit: what a holds and b does not, "a & ~b". */
  function AndNot(a: nat, b: nat): nat
    decreases a
  {
    if a == 0 then 0 else (if a % 2 == 1 && b % 2 == 0 then 1 else 0) + 2 * AndNot(a / 2, b / 2)
  }

  lemma {:induction false} AndNotBits(a: nat, b: nat, n: nat)
    ensures forall i | 0 <= i < n :: Bits(AndNot(a, b), n)[i] == (Bits(a, n)[i] && !Bits(b, n)[i])
    decreases n
  {
    if n > 0 {
      AndNotBits(a / 2, b / 2, n - 1);
      assert AndNot(a, b) / 2 == AndNot(a / 2, b / 2);
    }
  }

  /** The mask operation of a round is set difference on part numbers. */
  lemma AndNotIsDifference(a: nat, b: nat, n: nat)
    ensures PartsIn(AndNot(a, b), n) == PartsIn(a, n) - PartsIn(b, n)
  {
    AndNotBits(a, b, n);
    forall i: nat ensures i in PartsIn(AndNot(a, b), n) <==> i in PartsIn(a, n) - PartsIn(b, n) {
      BitIsPart(AndNot(a, b), n, i);
      BitIsPart(a, n, i);
      BitIsPart(b, n, i);
    }
  }

  // ----- the loops ----------------------------------------------------------------------------------------------

  datatype Conversion<T> = Converted(value: T) | Refused

  /** A received-set becomes a mask, bit by bit; anything else is refused. */
  method ConvertReceivedSetToMask(t: Text) returns (r: Conversion<nat>)
    ensures r == if IsReceivedSetField(t) then Converted(MaskOf(Flags(t))) else Refused
  {
    if !IsReceivedSetField(t) {
      return Refused;
    }
    var mask, bit := 0, 1;
    var i := 0;
    while i < |t|
      invariant i <= |t| && bit == Pow2(i)
      invariant mask == MaskOf(Flags(t)[..i]) < Pow2(i)
    {
      assert Flags(t)[..i + 1] == Flags(t)[..i] + [Flags(t)[i]];
      MaskAppend(Flags(t)[..i], Flags(t)[i]);
      if t[i] == 49 {
        // The bit is not set yet: the mask so far is below it.
        mask := mask + bit;
      }
      i, bit := i + 1, 2 * bit;
    }
    assert Flags(t)[..|t|] == Flags(t);
    return Converted(mask);
  }

  /** A mask becomes a received-set of one character per part; a mask that does not fit the message is refused. */
  method ConvertMaskToReceivedSet(mask: nat, n: nat) returns (r: Conversion<Text>)
    ensures r == if 1 <= n <= MAXIMUM_PART_COUNT && mask < Pow2(n) then Converted(ShowFlags(Bits(mask, n))) else Refused
  {
    if !(1 <= n <= MAXIMUM_PART_COUNT) || mask >= Pow2(n) {
      return Refused;
    }
    var t: Text := [];
    var left := mask;
    for i := 0 to n
      invariant |t| == i && t + ShowFlags(Bits(left, n - i)) == ShowFlags(Bits(mask, n))
    {
      ShowNextFlag(t, left, n - i);
      t := t + [if left % 2 == 1 then 49 else 48];
      left := left / 2;
    }
    assert t + ShowFlags(Bits(left, 0)) == t;
    return Converted(t);
  }

  lemma ShowNextFlag(t: Text, left: nat, n: nat)
    requires n > 0
    ensures t + ShowFlags(Bits(left, n)) == (t + [if left % 2 == 1 then 49 else 48]) + ShowFlags(Bits(left / 2, n - 1))
  {
    var flags, rest := Bits(left, n), Bits(left / 2, n - 1);
    assert flags == [left % 2 == 1] + rest;
    assert ShowFlags(flags) == [if left % 2 == 1 then 49 else 48] + ShowFlags(rest);
  }

  lemma {:induction false} ZeroHasNoBits(n: nat)
    ensures var flags := Bits(0, n); forall i | 0 <= i < n :: !flags[i]
    decreases n
  {
    if n > 0 {
      ZeroHasNoBits(n - 1);
      assert Bits(0, n) == [false] + Bits(0, n - 1);
    }
  }

  /** The first set flag is the lowest part. */
  lemma FirstFlagIsLowest(mask: nat, n: nat, part: nat)
    requires 1 <= part <= n && Bits(mask, n)[part - 1]
    requires var flags := Bits(mask, n); forall i | 0 <= i < part - 1 :: !flags[i]
    ensures LowestPart(PartsIn(mask, n), 1, n) == Some(part)
  {
    var r := LowestPart(PartsIn(mask, n), 1, n);
    BitIsPart(mask, n, part);
    if r.Some? {
      BitIsPart(mask, n, r.value);
    }
  }

  lemma NoFlagNoPart(mask: nat, n: nat)
    requires var flags := Bits(mask, n); forall i | 0 <= i < n :: !flags[i]
    ensures LowestPart(PartsIn(mask, n), 1, n).None?
  {
    var r := LowestPart(PartsIn(mask, n), 1, n);
    if r.Some? {
      BitIsPart(mask, n, r.value);
    }
  }

  /** The lowest part of a mask, found by shifting it right until its lowest bit is set. */
  method FindLowestPartNumber(mask: nat, n: nat) returns (r: Option<nat>)
    requires mask < Pow2(n)
    ensures r == LowestPart(PartsIn(mask, n), 1, n)
  {
    ghost var flags := Bits(mask, n);
    var left: nat, part: nat := mask, 1;
    while left != 0
      invariant 1 <= part <= n + 1 && left < Pow2(n + 1 - part)
      invariant flags[part - 1..] == Bits(left, n + 1 - part)
      invariant forall i | 0 <= i < part - 1 :: !flags[i]
      decreases left
    {
      assert part <= n;
      assert flags[part - 1..][0] == flags[part - 1] == (left % 2 == 1);
      if left % 2 == 1 {
        FirstFlagIsLowest(mask, n, part);
        return Some(part);
      }
      assert flags[part..] == flags[part - 1..][1..] == Bits(left / 2, n - part);
      left := left / 2;
      part := part + 1;
    }
    ZeroHasNoBits(n + 1 - part);
    forall i | 0 <= i < n ensures !flags[i] {
      assert i >= part - 1 ==> flags[i] == flags[part - 1..][i - (part - 1)];
    }
    NoFlagNoPart(mask, n);
    return None;
  }
}
