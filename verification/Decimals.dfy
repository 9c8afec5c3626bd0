/** Decimal numbers as text: str() and int() of the fields that carry numbers. */
module Decimals {
  import opened Texts

  const ZERO: CodePoint := 48

  predicate IsDigit(c: CodePoint) {
    48 <= c <= 57
  }

  predicate AllDigits(t: Text) {
    forall i | 0 <= i < |t| :: IsDigit(t[i])
  }

  /** Digits without a leading zero. */
  predicate IsPlainNumber(t: Text) {
    |t| >= 1 && AllDigits(t) && t[0] != ZERO
  }

  function Decimal(n: nat): (t: Text)
    ensures |t| >= 1 && AllDigits(t)
    ensures n > 0 ==> t[0] != ZERO
    ensures n == 0 ==> t == [ZERO]
  {
    if n < 10 then [48 + n] else Decimal(n / 10) + [48 + n % 10]
  }

  function Value(t: Text): nat
    requires AllDigits(t)
  {
    if t == [] then 0 else 10 * Value(t[..|t| - 1]) + (t[|t| - 1] - 48)
  }

  function PowerOfTen(k: nat): nat {
    if k == 0 then 1 else 10 * PowerOfTen(k - 1)
  }

  lemma {:induction false} ValueOfDecimal(n: nat)
    ensures Value(Decimal(n)) == n
  {
    var t := Decimal(n);
    if n < 10 {
      assert t[..0] == [];
    } else {
      assert t[..|t| - 1] == Decimal(n / 10);
      ValueOfDecimal(n / 10);
    }
  }

  lemma {:induction false} DecimalOfValue(t: Text)
    requires IsPlainNumber(t)
    ensures Value(t) > 0 && Decimal(Value(t)) == t
  {
    var front := t[..|t| - 1];
    if |t| == 1 {
      assert front == [];
    } else {
      assert front[0] == t[0];
      DecimalOfValue(front);
      assert Value(t) / 10 == Value(front) && Value(t) % 10 == t[|t| - 1] - 48;
      assert t == front + [t[|t| - 1]];
    }
  }

  /** A number has at most k digits exactly when it is below the k-th power of ten. */
  lemma {:induction false} DigitsBound(n: nat, k: nat)
    requires k >= 1
    ensures |Decimal(n)| <= k <==> n < PowerOfTen(k)
    decreases n
  {
    if n < 10 {
      PowerAtLeastTen(k);
    } else {
      if k == 1 {
        assert |Decimal(n)| == |Decimal(n / 10)| + 1;
        assert PowerOfTen(1) == 10 * PowerOfTen(0);
      } else {
        DigitsBound(n / 10, k - 1);
        assert n / 10 < PowerOfTen(k - 1) <==> n < 10 * PowerOfTen(k - 1);
      }
    }
  }

  lemma {:induction false} PowerAtLeastTen(k: nat)
    requires k >= 1
    ensures PowerOfTen(k) >= 10
  {
    if k > 1 {
      PowerAtLeastTen(k - 1);
    } else {
      assert PowerOfTen(1) == 10 * PowerOfTen(0);
    }
  }
}
