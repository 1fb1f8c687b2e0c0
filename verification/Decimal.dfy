/** Powers of ten and the numbers a decimal float can hold. */
module Decimal {
  import opened Bits

  function Pow10(n: nat): (p: nat)
    ensures p >= 1
  {
    if n == 0 then 1 else 10 * Pow10(n - 1)
  }

  lemma {:induction false} Pow10Monotonic(a: nat, b: nat)
    requires a <= b
    ensures Pow10(a) <= Pow10(b)
    decreases b
  {
    if a < b {
      Pow10Monotonic(a, b - 1);
    }
  }

  lemma {:induction false} Pow10Add(a: nat, b: nat)
    ensures Pow10(a + b) == Pow10(a) * Pow10(b)
  {
    if b == 0 {
    } else {
      Pow10Add(a, b - 1);
      assert Pow10(a + b) == 10 * Pow10(a + (b - 1));
      assert Pow10(a) * (10 * Pow10(b - 1)) == 10 * (Pow10(a) * Pow10(b - 1));
    }
  }

  /** The least exponent, from `e` on, at which a mantissa up to `limit` reaches `x`. */
  function LeastFrom(x: nat, limit: nat, e: nat): (r: nat)
    requires limit > 0
    ensures r >= e && x <= limit * Pow10(r)
    ensures r > e ==> limit * Pow10(r - 1) < x
    decreases if x <= limit * Pow10(e) then 0 else x - limit * Pow10(e)
  {
    if x <= limit * Pow10(e) then e
    else
      (assert limit * Pow10(e + 1) == 10 * (limit * Pow10(e)) by { assert limit * (10 * Pow10(e)) == 10 * (limit * Pow10(e)); }
       assert limit * Pow10(e) > 0 by { MulMonotonic(limit, 1, Pow10(e)); }
       LeastFrom(x, limit, e + 1))
  }

  function LeastExponent(x: nat, limit: nat): (e: nat)
    requires limit > 0
    ensures x <= limit * Pow10(e)
    ensures e > 0 ==> limit * Pow10(e - 1) < x
  {
    LeastFrom(x, limit, 0)
  }

  /** The least exponent is below any exponent that suffices. */
  lemma {:induction false} LeastIsLeast(x: nat, limit: nat, e: nat)
    requires limit > 0 && x <= limit * Pow10(e)
    ensures LeastExponent(x, limit) <= e
  {
    var r := LeastExponent(x, limit);
    if e < r {
      Pow10Monotonic(e, r - 1);
      MulMonotonic(limit, Pow10(e), Pow10(r - 1));
      assert false;
    }
  }

  lemma {:induction false} LeastIsUnique(x: nat, limit: nat, e: nat)
    requires limit > 0 && x <= limit * Pow10(e) && (e > 0 ==> limit * Pow10(e - 1) < x)
    ensures LeastExponent(x, limit) == e
  {
    LeastIsLeast(x, limit, e);
    var r := LeastExponent(x, limit);
    if r < e {
      Pow10Monotonic(r, e - 1);
      MulMonotonic(limit, Pow10(r), Pow10(e - 1));
      assert false;
    }
  }

  function MaxMantissa(mantissaLength: nat): nat {
    Pow2(mantissaLength) - 1
  }

  /** The largest number with the given lengths of exponent and mantissa. */
  function MaxFloat(exponentLength: nat, mantissaLength: nat): nat {
    MaxMantissa(mantissaLength) * Pow10(Pow2(exponentLength) - 1)
  }

  function Scaled(mantissa: nat, exponent: nat): nat {
    mantissa * Pow10(exponent)
  }

  /** A number with the given lengths can be written without loss. */
  ghost predicate Representable(x: nat, exponentLength: nat, mantissaLength: nat) {
    exists m: nat, e: nat :: m <= MaxMantissa(mantissaLength) && e < Pow2(exponentLength) && x == Scaled(m, e)
  }
}
