/** What packing an amount and unpacking it again does to it. */
module FloatRoundTrip {
  import opened Bits
  import opened Common
  import opened Decimal
  import opened FloatConversions

  lemma {:induction false} BytesKeepBits(bits: seq<bool>)
    requires |bits| % 8 == 0
    ensures BitsOfBytes(Bytes(bits)) == bits
    decreases |bits|
  {
    hide BitsBE, FromBE;
    if bits == [] {
    } else {
      BytesKeepBits(bits[8..]);
      BitsOfFromBE(bits[..8]);
      assert BitsOfBytes(Bytes(bits)) == BitsBE(FromBE(bits[..8]), 8) + BitsOfBytes(Bytes(bits[8..])) by {
        assert Bytes(bits)[1..] == Bytes(bits[8..]);
      }
      assert bits == bits[..8] + bits[8..];
    }
  }

  lemma {:induction false} ReversedBits(n: nat, w: nat)
    ensures Reverse(BitsLE(n, w)) == BitsBE(n, w)
    decreases w
  {
    if w == 0 {
    } else {
      ReversedBits(n / 2, w - 1);
      assert BitsLE(n, w)[1..] == BitsLE(n / 2, w - 1);
    }
  }

  /** The packed bits, from the front: the mantissa, then the exponent, highest bits first. */
  lemma {:induction false} ReversedFloat(exponent: nat, mantissa: nat, exponentLength: nat, mantissaLength: nat)
    ensures Reverse(FloatBits(exponent, mantissa, exponentLength, mantissaLength))
         == BitsBE(mantissa, mantissaLength) + BitsBE(exponent, exponentLength)
  {
    ReversedBits(exponent, exponentLength);
    ReversedBits(mantissa, mantissaLength);
    var x, y := BitsLE(exponent, exponentLength), BitsLE(mantissa, mantissaLength);
    hide BitsLE, BitsBE, Reverse;
    assert Reverse(x + y) == Reverse(y) + Reverse(x);
  }

  /** Unpacking reads back the exponent and the mantissa that were packed. */
  lemma {:induction false} DecodeEncode(exponent: nat, mantissa: nat, exponentLength: nat, mantissaLength: nat)
    requires exponent < Pow2(exponentLength) && mantissa <= MaxMantissa(mantissaLength)
    requires (exponentLength + mantissaLength) % 8 == 0
    ensures Unpacked(Bytes(Reverse(FloatBits(exponent, mantissa, exponentLength, mantissaLength))), exponentLength, mantissaLength)
         == FloatValue(exponent, mantissa)
  {
    var float := FloatBits(exponent, mantissa, exponentLength, mantissaLength);
    var m, e := BitsBE(mantissa, mantissaLength), BitsBE(exponent, exponentLength);
    ReversedFloat(exponent, mantissa, exponentLength, mantissaLength);
    BytesKeepBits(Reverse(float));
    assert (m + e)[..mantissaLength] == m && (m + e)[mantissaLength..] == e;
    FromBEOfBits(mantissa, mantissaLength);
    FromBEOfBits(exponent, exponentLength);
  }

  /** The value kept of a number cut at an exponent: the largest multiple of the power of ten below it. */
  function Kept(x: nat, exponent: nat): (y: nat)
    ensures y <= x < y + Pow10(exponent)
  {
    assert Pow10(exponent) * Quotient(x, Pow10(exponent)) == Quotient(x, Pow10(exponent)) * Pow10(exponent);
    Scaled(Quotient(x, Pow10(exponent)), exponent)
  }

  lemma {:induction false} ScaledIsKept(m: nat, k: nat, exponent: nat)
    requires exponent <= k
    ensures Kept(Scaled(m, k), exponent) == Scaled(m, k)
  {
    var p, x := Pow10(exponent), Scaled(m, k);
    Pow10Add(exponent, k - exponent);
    var q := m * Pow10(k - exponent);
    assert x == p * q by {
      assert m * (p * Pow10(k - exponent)) == p * (m * Pow10(k - exponent));
    }
    QuotientUnique(x, p, q, 0);
    assert q * p == p * q;
  }

  /** A coarser cut keeps less. */
  lemma {:induction false} CoarserKeepsLess(x: nat, fine: nat, coarse: nat)
    requires fine <= coarse
    ensures Kept(x, coarse) <= Kept(x, fine)
  {
    var y := Kept(x, coarse);
    ScaledIsKept(Quotient(x, Pow10(coarse)), coarse, fine);
    KeptMonotonic(y, x, fine);
  }

  lemma {:induction false} KeptMonotonic(x: nat, y: nat, exponent: nat)
    requires x <= y
    ensures Kept(x, exponent) <= Kept(y, exponent)
  {
    var p := Pow10(exponent);
    var a, b := Quotient(x, p), Quotient(y, p);
    QuotientAtMost(x, p, b);
    MulMonotonic(p, a, b);
    assert a * p == p * a && b * p == p * b;
  }

  /** An accepted number has an exponent and a mantissa of the given lengths. */
  lemma {:induction false} ChosenPartsFit(x: nat, exponentLength: nat, mantissaLength: nat)
    requires mantissaLength > 0 && x <= MaxFloat(exponentLength, mantissaLength)
    ensures Exponent(x, mantissaLength) < Pow2(exponentLength)
    ensures Mantissa(x, mantissaLength) <= MaxMantissa(mantissaLength)
  {
    var limit := MaxMantissa(mantissaLength);
    LimitIsPositive(mantissaLength);
    LeastIsLeast(x, limit, Pow2(exponentLength) - 1);
    var p := Pow10(Exponent(x, mantissaLength));
    assert limit * p == p * limit;
    QuotientAtMost(x, p, limit);
  }

  lemma {:induction false} LimitIsPositive(mantissaLength: nat)
    requires mantissaLength > 0
    ensures MaxMantissa(mantissaLength) > 0
  {
    Pow2Monotonic(1, mantissaLength);
  }

  /** A representable number is cut nowhere. */
  lemma {:induction false} RepresentableIsKept(x: nat, exponentLength: nat, mantissaLength: nat)
    requires mantissaLength > 0 && Representable(x, exponentLength, mantissaLength)
    ensures x <= MaxFloat(exponentLength, mantissaLength)
    ensures Kept(x, Exponent(x, mantissaLength)) == x
  {
    LimitIsPositive(mantissaLength);
    var m: nat, e: nat :| m <= MaxMantissa(mantissaLength) && e < Pow2(exponentLength) && x == Scaled(m, e);
    ScaledMonotonic(m, MaxMantissa(mantissaLength), e);
    LeastIsLeast(x, MaxMantissa(mantissaLength), e);
    ScaledIsKept(m, e, Exponent(x, mantissaLength));
    Pow10Monotonic(e, Pow2(exponentLength) - 1);
    MulMonotonic(MaxMantissa(mantissaLength), Pow10(e), Pow10(Pow2(exponentLength) - 1));
  }

  lemma {:induction false} ScaledMonotonic(m: nat, n: nat, e: nat)
    requires m <= n
    ensures Scaled(m, e) <= Scaled(n, e)
  {
    MulMonotonic(Pow10(e), m, n);
    assert m * Pow10(e) == Pow10(e) * m && n * Pow10(e) == Pow10(e) * n;
  }

  /** `y` is at most ten parts in `limit` below `x`. */
  ghost predicate CloseBelow(x: nat, y: nat, limit: nat) {
    y <= x && (x - y) * limit <= 10 * x
  }

  /** What is lost is at most ten parts in the largest mantissa. */
  lemma {:induction false} LossIsBounded(x: nat, limit: nat)
    requires limit > 0
    ensures CloseBelow(x, Kept(x, LeastExponent(x, limit)), limit)
  {
    var e := LeastExponent(x, limit);
    var loss := x - Kept(x, e);
    if e == 0 {
      assert Pow10(0) == 1;
      assert loss == 0;
    } else {
      assert Pow10(e) == 10 * Pow10(e - 1);
      MulMonotonic(limit, loss, Pow10(e));
      assert loss * limit == limit * loss;
      assert limit * (10 * Pow10(e - 1)) == 10 * (limit * Pow10(e - 1));
    }
  }

  /** The main theorem on `pack` and `unpack`. Every number `pack` accepts unpacks to a number not
      above it, off by at most `10 / maxMantissa` of it, and equal to it exactly when the number can
      be written with the given lengths; packing the result again loses nothing more. */
  lemma {:induction false} PackUnpack(x: nat, exponentLength: nat, mantissaLength: nat)
    requires 3 <= mantissaLength < 128 && (exponentLength + mantissaLength) % 8 == 0
    requires x < U128_LIMIT && x <= MaxFloat(exponentLength, mantissaLength)
    ensures Unpacked(Packed(x, exponentLength, mantissaLength), exponentLength, mantissaLength).Some?
    ensures var y := Unpacked(Packed(x, exponentLength, mantissaLength), exponentLength, mantissaLength).value;
            && CloseBelow(x, y, MaxMantissa(mantissaLength))
            && (y == x <==> Representable(x, exponentLength, mantissaLength))
            && Unpacked(Packed(y, exponentLength, mantissaLength), exponentLength, mantissaLength) == Some(y)
  {
    var e := Exponent(x, mantissaLength);
    var y := Kept(x, e);
    PackedValue(x, exponentLength, mantissaLength);
    LossIsBounded(x, MaxMantissa(mantissaLength));
    ChosenPartsFit(x, exponentLength, mantissaLength);
    assert y == Scaled(Mantissa(x, mantissaLength), e);
    assert Representable(y, exponentLength, mantissaLength);
    if Representable(x, exponentLength, mantissaLength) {
      RepresentableIsKept(x, exponentLength, mantissaLength);
    }
    RepresentableIsKept(y, exponentLength, mantissaLength);
    PackedValue(y, exponentLength, mantissaLength);
    hide Unpacked, Packed, Representable, CloseBelow, Kept;
  }

  lemma {:induction false} PackedValue(x: nat, exponentLength: nat, mantissaLength: nat)
    requires 3 <= mantissaLength < 128 && (exponentLength + mantissaLength) % 8 == 0
    requires x < U128_LIMIT && x <= MaxFloat(exponentLength, mantissaLength)
    ensures Unpacked(Packed(x, exponentLength, mantissaLength), exponentLength, mantissaLength)
         == Some(Kept(x, Exponent(x, mantissaLength)))
  {
    var e, m := Exponent(x, mantissaLength), Mantissa(x, mantissaLength);
    MantissaRange(mantissaLength);
    ChosenPartsFit(x, exponentLength, mantissaLength);
    ChosenPowerFits(x, MaxMantissa(mantissaLength));
    DecodeEncode(e, m, exponentLength, mantissaLength);
    assert Kept(x, e) == m * Pow10(e);
  }
}
