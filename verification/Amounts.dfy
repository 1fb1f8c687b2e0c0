/** Amounts as packed fields: what the prover and the wallet make of an amount in full. */
module Amounts {
  import opened Bits
  import opened Common
  import opened Decimal
  import opened FloatConversions
  import opened FloatRoundTrip
  import Witness

  const AMOUNT_MANTISSA: nat := 35
  const FEE_MANTISSA: nat := 11

  /** The packed field of an amount: the number whose bits, lowest first, are those of the float. */
  function PackedNumber(x: nat, mantissaLength: nat): nat
    requires mantissaLength > 0
  {
    FromLE(FloatBits(Exponent(x, mantissaLength), Mantissa(x, mantissaLength), 5, mantissaLength))
  }

  lemma {:induction false} FromLEConcat(x: seq<bool>, y: seq<bool>)
    ensures FromLE(x + y) == FromLE(x) + Pow2(|x|) * FromLE(y)
  {
    if x == [] {
      assert x + y == y;
    } else {
      var t, p := x[1..], Pow2(|x| - 1);
      assert (x + y)[0] == x[0] && (x + y)[1..] == t + y;
      assert FromLE(x + y) == BitValue(x[0]) + 2 * FromLE(t + y) && FromLE(x) == BitValue(x[0]) + 2 * FromLE(t);
      assert Pow2(|x|) == 2 * p;
      FromLEConcat(t, y);
      hide FromLE, Pow2;
      Doubled(p, FromLE(y));
    }
  }

  lemma {:induction false} Doubled(p: nat, n: nat)
    ensures 2 * (p * n) == (2 * p) * n
  {
  }

  lemma {:induction false} FloatNumber(e: nat, m: nat, mantissaLength: nat)
    requires e < Pow2(5) && m < Pow2(mantissaLength)
    ensures FromLE(FloatBits(e, m, 5, mantissaLength)) == e + 32 * m && e < 32
  {
    assert Pow2(5) == 32;
    hide Pow2;
    FromLEConcat(BitsLE(e, 5), BitsLE(m, mantissaLength));
    FromLEOfBits(e, 5);
    FromLEOfBits(m, mantissaLength);
    hide BitsLE, FromLE;
  }

  lemma {:induction false} UnpackParts(packed: nat, e: nat, m: nat)
    requires e < 32 && packed == e + 32 * m
    ensures packed % 32 == e && packed / 32 == m && Witness.Unpack(packed) == m * Pow10(e)
  {
    hide Pow10;
  }

  /** The exponent is in the low five bits, the mantissa above, and the field unpacks to what is kept of the
      amount. */
  lemma {:induction false} PackedParts(x: nat, mantissaLength: nat)
    requires mantissaLength > 0 && x <= MaxFloat(5, mantissaLength)
    ensures PackedNumber(x, mantissaLength) % 32 == Exponent(x, mantissaLength)
    ensures PackedNumber(x, mantissaLength) / 32 == Mantissa(x, mantissaLength)
    ensures PackedNumber(x, mantissaLength) < Pow2(mantissaLength + 5)
    ensures Witness.Unpack(PackedNumber(x, mantissaLength)) == Kept(x, Exponent(x, mantissaLength)) <= x
  {
    var e, m := Exponent(x, mantissaLength), Mantissa(x, mantissaLength);
    assert Kept(x, e) == m * Pow10(e);
    hide LeastExponent, Pow10, MaxFloat, MaxMantissa, Pow2, FromLE, FloatBits, Kept, Witness.Unpack;
    ChosenPartsFit(x, 5, mantissaLength);
    MantissaBelow(m, mantissaLength);
    FloatNumber(e, m, mantissaLength);
    UnpackParts(PackedNumber(x, mantissaLength), e, m);
  }

  lemma {:induction false} MantissaBelow(m: nat, mantissaLength: nat)
    requires m <= MaxMantissa(mantissaLength)
    ensures m < Pow2(mantissaLength) && 32 * m + 31 < Pow2(mantissaLength + 5)
  {
    assert Pow2(5) == 32;
    Pow2Add(mantissaLength, 5);
  }

  /** The bits of the field, highest first, are those of the bytes `pack` makes. */
  lemma {:induction false} PackedBits(x: nat, mantissaLength: nat)
    requires mantissaLength > 0 && (5 + mantissaLength) % 8 == 0
    ensures BitsBE(PackedNumber(x, mantissaLength), mantissaLength + 5) == BitsOfBytes(Packed(x, 5, mantissaLength))
  {
    var float := FloatBits(Exponent(x, mantissaLength), Mantissa(x, mantissaLength), 5, mantissaLength);
    BytesKeepBits(Reverse(float));
    BitsOfFromLE(float);
    ReversedBits(FromLE(float), mantissaLength + 5);
  }

  /** Every 128-bit amount can be packed. */
  lemma {:induction false} AmountsPack()
    ensures U128_LIMIT <= MaxFloat(5, AMOUNT_MANTISSA)
  {
    assert Pow2(5) == 32;
    assert Pow2(8) == 256;
    Pow2Sum(8, 256, 8, 256);
    Pow2Sum(16, 0x1_0000, 16, 0x1_0000);
    Pow2Sum(32, 0x1_0000_0000, 3, 8);
    assert Pow10(8) == 1_0000_0000;
    Pow10Add(8, 8);
    Pow10Add(16, 8);
    Pow10Add(24, 7);
    assert Pow10(7) == 1000_0000;
  }
}
