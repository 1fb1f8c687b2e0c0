/** The packing functions of the JavaScript library, and how they relate to the server's. */
module SdkUtils {
  import opened Bits
  import opened Common
  import opened Decimal
  import opened FloatConversions
  import opened FloatRoundTrip

  const FEE_EXPONENT_BIT_WIDTH: nat := 5
  const FEE_MANTISSA_BIT_WIDTH: nat := 11

  // ----- specification

  /** The least exponent whose rounded down quotient is a mantissa. */
  function SdkExponent(x: nat, mantissaBits: nat): nat {
    LeastExponent(x + 1, MaxMantissa(mantissaBits) + 1)
  }

  function SdkMantissa(x: nat, mantissaBits: nat): nat {
    Quotient(x, Pow10(SdkExponent(x, mantissaBits)))
  }

  function SdkPacked(x: nat, expBits: nat, mantissaBits: nat): seq<byte>
    requires (expBits + mantissaBits) % 8 == 0
  {
    Bytes(Reverse(FloatBits(SdkExponent(x, mantissaBits), SdkMantissa(x, mantissaBits), expBits, mantissaBits)))
  }

  /** What `floatToInteger` reads; numbers are unbounded here. */
  function SdkUnpacked(data: seq<byte>, expBits: nat, mantissaBits: nat): Option<nat> {
    if |data| * 8 != mantissaBits + expBits then None
    else
      var bits := BitsOfBytes(data);
      Some(Scaled(FromBE(bits[..mantissaBits]), FromBE(bits[mantissaBits..])))
  }

  /** `closestPackable…`: the value kept by packing and unpacking. */
  function SdkClosest(x: nat, mantissaBits: nat): nat {
    Kept(x, SdkExponent(x, mantissaBits))
  }

  // ----- the encoder

  /** `numberToBits`: `integer & 1` is the parity of the integer part, and the halves are exact. */
  method NumberToBits(integer: nat, bits: nat) returns (result: seq<bool>)
    ensures result == BitsLE(integer, bits)
  {
    hide BitsLE;
    result := [];
    var rest := integer as real;
    ghost var n := integer;
    for i := 0 to bits
      invariant rest >= 0.0 && rest.Floor == n
      invariant result + BitsLE(n, bits - i) == BitsLE(integer, bits)
    {
      HalfFloor(rest);
      NextBit(result, n, bits - i);
      result := result + [rest.Floor % 2 == 1];
      rest, n := rest / 2.0, n / 2;
    }
  }

  lemma {:induction false} HalfFloor(r: real)
    requires r >= 0.0
    ensures 0 <= r.Floor && (r / 2.0).Floor == r.Floor / 2
  {
    var n := r.Floor;
    assert n as real <= r < n as real + 1.0;
    var h := n / 2;
    assert h as real <= r / 2.0 < h as real + 1.0;
  }

  method ByteInBEOrder(s: seq<bool>) returns (value: byte)
    requires |s| == 8
    ensures value == FromBE(s)
  {
    ByteSum(s);
    hide FromBE;
    var n := 0;
    if s[0] { n := n + 0x80; }
    assert n == BitValue(s[0]) * 0x80;
    if s[1] { n := n + 0x40; }
    assert n == BitValue(s[0]) * 0x80 + BitValue(s[1]) * 0x40;
    if s[2] { n := n + 0x20; }
    if s[3] { n := n + 0x10; }
    ghost var high := BitValue(s[0]) * 0x80 + BitValue(s[1]) * 0x40 + BitValue(s[2]) * 0x20 + BitValue(s[3]) * 0x10;
    assert n == high;
    if s[4] { n := n + 0x08; }
    if s[5] { n := n + 0x04; }
    assert n == high + BitValue(s[4]) * 0x08 + BitValue(s[5]) * 0x04;
    if s[6] { n := n + 0x02; }
    if s[7] { n := n + 0x01; }
    assert Pow2(8) == 256;
    value := n;
  }

  /** `bitsIntoBytesInBEOrder` */
  method BitsIntoBytesInBEOrder(bits: seq<bool>) returns (r: Option<array<byte>>)
    ensures r.Some? <==> |bits| % 8 == 0
    ensures r.Some? ==> fresh(r.value) && r.value[..] == Bytes(bits)
  {
    if |bits| % 8 != 0 {
      return None;
    }
    var nBytes := |bits| / 8;
    hide Bytes, FromBE;
    var resultBytes := new byte[nBytes](_ => 0);
    ghost var all := Bytes(bits);
    for b := 0 to nBytes
      invariant resultBytes[..b] == all[..b]
    {
      BytesAt(bits, b);
      resultBytes[b] := ByteInBEOrder(bits[b * 8..b * 8 + 8]);
    }
    r := Some(resultBytes);
  }

  lemma {:induction false} BytesAt(bits: seq<bool>, b: nat)
    requires |bits| % 8 == 0 && b < |bits| / 8
    ensures Bytes(bits)[b] == FromBE(bits[b * 8..b * 8 + 8])
    decreases b
  {
    hide FromBE;
    if b == 0 {
    } else {
      BytesAt(bits[8..], b - 1);
      assert bits[8..][(b - 1) * 8..(b - 1) * 8 + 8] == bits[b * 8..b * 8 + 8];
    }
  }

  lemma {:induction false} BytePowers()
    ensures Pow2(7) == 0x80 && Pow2(6) == 0x40 && Pow2(5) == 0x20 && Pow2(4) == 0x10
    ensures Pow2(3) == 0x08 && Pow2(2) == 0x04 && Pow2(1) == 0x02 && Pow2(0) == 0x01
  {
  }

  /** One more bit of a byte, from the front. */
  lemma {:induction false} FrontBit(s: seq<bool>, i: nat, p: nat)
    requires i < |s| && Pow2(|s| - 1 - i) == p
    ensures FromBE(s[i..]) == BitValue(s[i]) * p + FromBE(s[i + 1..])
  {
    assert s[i..] == [s[i]] + s[i + 1..];
    FromBEFront(s[i], s[i + 1..]);
  }

  lemma {:induction false} ByteSum(s: seq<bool>)
    requires |s| == 8
    ensures FromBE(s) == BitValue(s[0]) * 0x80 + BitValue(s[1]) * 0x40 + BitValue(s[2]) * 0x20 + BitValue(s[3]) * 0x10
                       + BitValue(s[4]) * 0x08 + BitValue(s[5]) * 0x04 + BitValue(s[6]) * 0x02 + BitValue(s[7])
  {
    BytePowers();
    assert s[0..] == s && s[8..] == [] && FromBE([]) == 0;
    hide *;
    FrontBit(s, 0, 0x80);
    FrontBit(s, 1, 0x40);
    FrontBit(s, 2, 0x20);
    FrontBit(s, 3, 0x10);
    FrontBit(s, 4, 0x08);
    FrontBit(s, 5, 0x04);
    FrontBit(s, 6, 0x02);
    FrontBit(s, 7, 0x01);
  }

  /** `integerToFloat` with base 10: an error exactly on numbers above the largest float, or on
      lengths that fill no whole bytes. The mantissa has to be a safe integer. */
  method IntegerToFloat(integer: nat, expBits: nat, mantissaBits: nat) returns (r: Option<array<byte>>)
    requires 0 < mantissaBits <= 53
    ensures r.Some? <==> integer <= MaxFloat(expBits, mantissaBits) && (expBits + mantissaBits) % 8 == 0
    ensures r.Some? ==> fresh(r.value) && r.value[..] == Reverse(SdkPacked(integer, expBits, mantissaBits))
  {
    var maxExponent := Pow10(Pow2(expBits) - 1);
    var maxMantissa := Pow2(mantissaBits) - 1;
    LimitIsPositive(mantissaBits);
    if integer > maxMantissa * maxExponent {
      return None;
    }
    var exponent, mantissa := DivideDown(integer, maxMantissa);
    assert maxMantissa * maxExponent == MaxFloat(expBits, mantissaBits);
    assert exponent == SdkExponent(integer, mantissaBits) && mantissa == SdkMantissa(integer, mantissaBits);
    hide SdkExponent, SdkMantissa, MaxFloat, MaxMantissa, BitsLE, Bytes, Pow10, Pow2;
    var expEncoding := NumberToBits(exponent, expBits);
    var mantissaEncoding := NumberToBits(mantissa, mantissaBits);
    var encoding := Reverse(expEncoding + mantissaEncoding);
    var bytes := BitsIntoBytesInBEOrder(encoding);
    if bytes.None? {
      return None;
    }
    ReverseInPlace(bytes.value);
    r := bytes;
  }

  /** Divides by ten until the mantissa fits. */
  method DivideDown(integer: nat, maxMantissa: nat) returns (exponent: nat, mantissa: nat)
    requires maxMantissa > 0
    ensures exponent == LeastExponent(integer + 1, maxMantissa + 1)
    ensures mantissa == Quotient(integer, Pow10(exponent))
  {
    exponent, mantissa := 0, integer;
    QuotientUnique(integer, 1, integer, 0);
    while mantissa > maxMantissa
      invariant mantissa == Quotient(integer, Pow10(exponent))
      invariant exponent > 0 ==> Quotient(integer, Pow10(exponent - 1)) > maxMantissa
      decreases mantissa
    {
      DivDiv(integer, Pow10(exponent), 10);
      assert Pow10(exponent + 1) == Pow10(exponent) * 10;
      assert Quotient(integer, Pow10(exponent + 1)) == integer / Pow10(exponent + 1);
      mantissa := mantissa / 10;
      exponent := exponent + 1;
    }
    FirstFit(integer, maxMantissa, exponent);
  }

  lemma {:induction false} FirstFit(x: nat, limit: nat, e: nat)
    requires Quotient(x, Pow10(e)) <= limit
    requires e > 0 ==> Quotient(x, Pow10(e - 1)) > limit
    ensures LeastExponent(x + 1, limit + 1) == e
  {
    var p := Pow10(e);
    MulMonotonic(p, Quotient(x, p), limit);
    assert (limit + 1) * p == p * limit + p;
    if e > 0 {
      var s := Pow10(e - 1);
      MulMonotonic(s, limit + 1, Quotient(x, s));
      assert (limit + 1) * s == s * (limit + 1);
    }
    LeastIsUnique(x + 1, limit + 1, e);
  }

  /** The library's `reverse`, in place. */
  method ReverseInPlace<T>(a: array<T>)
    modifies a
    ensures a[..] == Reverse(old(a[..]))
  {
    var n, i := a.Length, 0;
    while i < n / 2
      invariant 0 <= i <= n / 2
      invariant forall k :: 0 <= k < i ==> a[k] == old(a[n - 1 - k]) && a[n - 1 - k] == old(a[k])
      invariant forall k :: i <= k < n - i ==> a[k] == old(a[k])
    {
      a[i], a[n - 1 - i] := a[n - 1 - i], a[i];
      i := i + 1;
    }
  }

  /** `reverseBits`. Despite its name it reverses bytes: the array with the bits of each byte
      reversed is dropped. */
  method ReverseBits(buffer: array<byte>) returns (reversed: array<byte>)
    modifies buffer
    ensures reversed == buffer && buffer[..] == Reverse(old(buffer[..]))
  {
    ReverseInPlace(buffer);
    reversed := buffer;
    var mapped := new bv8[reversed.Length];
    for i := 0 to reversed.Length
      invariant reversed[..] == Reverse(old(buffer[..]))
    {
      var b := reversed[i] as bv8;
      b := ((b & 0xf0) >> 4) | ((b & 0x0f) << 4);
      b := ((b & 0xcc) >> 2) | ((b & 0x33) << 2);
      b := ((b & 0xaa) >> 1) | ((b & 0x55) << 1);
      mapped[i] := b;
    }
  }

  /** `packAmount` and `packFee` */
  method PackWidths(amount: nat, expBits: nat, mantissaBits: nat) returns (r: Option<array<byte>>)
    requires 0 < mantissaBits <= 53
    ensures r.Some? <==> amount <= MaxFloat(expBits, mantissaBits) && (expBits + mantissaBits) % 8 == 0
    ensures r.Some? ==> fresh(r.value) && r.value[..] == SdkPacked(amount, expBits, mantissaBits)
  {
    var float := IntegerToFloat(amount, expBits, mantissaBits);
    if float.None? {
      return None;
    }
    ReverseTwice(SdkPacked(amount, expBits, mantissaBits));
    hide MaxFloat, SdkPacked;
    var packed := ReverseBits(float.value);
    r := Some(packed);
  }

  lemma {:induction false} ReverseTwice<T>(s: seq<T>)
    ensures Reverse(Reverse(s)) == s
  {
    hide Reverse;
  }

  // ----- the decoder

  /** `buffer2bitsBE` */
  method Buffer2BitsBE(buff: seq<byte>) returns (res: seq<bool>)
    ensures res == BitsOfBytes(buff)
  {
    res := [];
    for i := 0 to |buff|
      invariant res + BitsOfBytes(buff[i..]) == BitsOfBytes(buff)
    {
      var b := buff[i];
      BitsOfOneByte(b);
      hide BitsBE;
      assert buff[i..][0] == b && buff[i..][1..] == buff[i + 1..];
      res := res + [b / 0x80 % 2 == 1, b / 0x40 % 2 == 1, b / 0x20 % 2 == 1, b / 0x10 % 2 == 1,
                    b / 0x08 % 2 == 1, b / 0x04 % 2 == 1, b / 0x02 % 2 == 1, b % 2 == 1];
    }
  }

  lemma {:induction false} BitAt(n: nat, w: nat, i: nat)
    requires i < w
    ensures BitsBE(n, w)[i] == (n / Pow2(w - 1 - i) % 2 == 1)
    decreases w
  {
    if i == w - 1 {
    } else {
      BitAt(n / 2, w - 1, i);
      DivDiv(n, 2, Pow2(w - 2 - i));
    }
  }

  lemma {:induction false} BitsOfOneByte(b: byte)
    ensures BitsBE(b, 8) == [b / 0x80 % 2 == 1, b / 0x40 % 2 == 1, b / 0x20 % 2 == 1, b / 0x10 % 2 == 1,
                             b / 0x08 % 2 == 1, b / 0x04 % 2 == 1, b / 0x02 % 2 == 1, b % 2 == 1]
  {
    BytePowers();
    hide BitsBE, Pow2;
    BitAt(b, 8, 0);
    BitAt(b, 8, 1);
    BitAt(b, 8, 2);
    BitAt(b, 8, 3);
    BitAt(b, 8, 4);
    BitAt(b, 8, 5);
    BitAt(b, 8, 6);
    BitAt(b, 8, 7);
  }

  /** Sums the powers of two of the bits from `from` on. */
  method SumPowers(bits: seq<bool>, from: nat, count: nat) returns (sum: nat)
    requires from + count <= |bits|
    ensures sum == FromLE(bits[from..from + count])
  {
    sum := 0;
    var pow2 := 1;
    for i := 0 to count
      invariant sum == FromLE(bits[from..from + i]) && pow2 == Pow2(i)
    {
      assert bits[from..from + i + 1] == bits[from..from + i] + [bits[from + i]];
      FromLEBack(bits[from..from + i], bits[from + i]);
      if bits[from + i] {
        sum := sum + pow2;
      }
      pow2 := pow2 * 2;
    }
  }

  lemma {:induction false} FromLEBack(s: seq<bool>, b: bool)
    ensures FromLE(s + [b]) == FromLE(s) + (if b then Pow2(|s|) else 0)
  {
    if s == [] {
      assert s + [b] == [b];
    } else {
      FromLEBack(s[1..], b);
      assert (s + [b])[1..] == s[1..] + [b];
    }
  }

  lemma {:induction false} FromLEReversed(s: seq<bool>)
    ensures FromLE(Reverse(s)) == FromBE(s)
  {
    if s == [] {
    } else {
      var k := |s| - 1;
      FromLEReversed(s[..k]);
      assert Reverse(s)[1..] == Reverse(s[..k]);
    }
  }

  lemma {:induction false} ReversedParts(be: seq<bool>, expBits: nat, mantissaBits: nat)
    requires |be| == expBits + mantissaBits
    ensures FromLE(Reverse(be)[0..0 + expBits]) == FromBE(be[mantissaBits..])
    ensures FromLE(Reverse(be)[expBits..expBits + mantissaBits]) == FromBE(be[..mantissaBits])
  {
    FromLEReversed(be[mantissaBits..]);
    FromLEReversed(be[..mantissaBits]);
    hide FromBE, FromLE, Reverse;
    assert Reverse(be)[0..0 + expBits] == Reverse(be[mantissaBits..]);
    assert Reverse(be)[expBits..expBits + mantissaBits] == Reverse(be[..mantissaBits]);
  }

  /** `floatToInteger` with base 10 */
  method FloatToInteger(floatBytes: seq<byte>, expBits: nat, mantissaBits: nat) returns (r: Option<nat>)
    ensures r == SdkUnpacked(floatBytes, expBits, mantissaBits)
  {
    if |floatBytes| * 8 != mantissaBits + expBits {
      return None;
    }
    var be := Buffer2BitsBE(floatBytes);
    var bits := Reverse(be);
    var exponent := SumPowers(bits, 0, expBits);
    var mantissa := SumPowers(bits, expBits, mantissaBits);
    ReversedParts(be, expBits, mantissaBits);
    hide FromBE, FromLE, BitsOfBytes, Pow10, Reverse;
    assert Pow10(exponent) * mantissa == Scaled(mantissa, exponent);
    r := Some(Pow10(exponent) * mantissa);
  }

  /** `closestPackableTransactionAmount` and `closestPackableTransactionFee` */
  method ClosestPackable(amount: nat, expBits: nat, mantissaBits: nat) returns (r: Option<nat>)
    requires 0 < mantissaBits <= 53
    ensures r.Some? <==> amount <= MaxFloat(expBits, mantissaBits) && (expBits + mantissaBits) % 8 == 0
    ensures r.Some? ==> r.value == SdkClosest(amount, mantissaBits)
  {
    var packed := PackWidths(amount, expBits, mantissaBits);
    if packed.None? {
      return None;
    }
    SdkPackedValue(amount, expBits, mantissaBits);
    hide MaxFloat, SdkPacked, SdkUnpacked;
    r := FloatToInteger(packed.value[..], expBits, mantissaBits);
  }

  /** `packAmountChecked` and `packFeeChecked`: succeed exactly on the numbers that can be written
      with the given lengths. */
  method PackChecked(amount: nat, expBits: nat, mantissaBits: nat) returns (r: Option<array<byte>>)
    requires 0 < mantissaBits <= 53 && (expBits + mantissaBits) % 8 == 0
    ensures r.Some? <==> Representable(amount, expBits, mantissaBits)
    ensures r.Some? ==> r.value[..] == SdkPacked(amount, expBits, mantissaBits)
  {
    var closest := ClosestPackable(amount, expBits, mantissaBits);
    if amount <= MaxFloat(expBits, mantissaBits) {
      SdkKeepsRepresentable(amount, expBits, mantissaBits);
    } else if Representable(amount, expBits, mantissaBits) {
      RepresentableIsKept(amount, expBits, mantissaBits);
    }
    hide MaxFloat, SdkPacked, Representable, SdkClosest;
    if closest != Some(amount) {
      return None;
    }
    r := PackWidths(amount, expBits, mantissaBits);
  }

  // ----- the two encoders

  lemma {:induction false} Distribute(a: nat, p: nat)
    ensures (a + 1) * p == a * p + p == p * a + p
  {
  }

  lemma {:induction false} SdkPartsFit(x: nat, expBits: nat, mantissaBits: nat)
    requires mantissaBits > 0 && x <= MaxFloat(expBits, mantissaBits)
    ensures SdkExponent(x, mantissaBits) <= Exponent(x, mantissaBits) < Pow2(expBits)
    ensures SdkMantissa(x, mantissaBits) <= MaxMantissa(mantissaBits)
  {
    ChosenPartsFit(x, expBits, mantissaBits);
    var limit, e := MaxMantissa(mantissaBits), Exponent(x, mantissaBits);
    Distribute(limit, Pow10(e));
    LeastIsLeast(x + 1, limit + 1, e);
    var p := Pow10(SdkExponent(x, mantissaBits));
    Distribute(limit, p);
    QuotientAtMost(x, p, limit);
  }

  lemma {:induction false} SdkPackedValue(x: nat, expBits: nat, mantissaBits: nat)
    requires mantissaBits > 0 && x <= MaxFloat(expBits, mantissaBits) && (expBits + mantissaBits) % 8 == 0
    ensures SdkUnpacked(SdkPacked(x, expBits, mantissaBits), expBits, mantissaBits) == Some(SdkClosest(x, mantissaBits))
  {
    var e, m := SdkExponent(x, mantissaBits), SdkMantissa(x, mantissaBits);
    SdkPartsFit(x, expBits, mantissaBits);
    ReversedFloat(e, m, expBits, mantissaBits);
    var mb, eb := BitsBE(m, mantissaBits), BitsBE(e, expBits);
    BytesKeepBits(mb + eb);
    assert (mb + eb)[..mantissaBits] == mb && (mb + eb)[mantissaBits..] == eb;
    FromBEOfBits(m, mantissaBits);
    FromBEOfBits(e, expBits);
  }

  /** A number is its own closest packable number exactly when it can be written with the given lengths. */
  lemma {:induction false} SdkKeepsRepresentable(x: nat, expBits: nat, mantissaBits: nat)
    requires mantissaBits > 0 && x <= MaxFloat(expBits, mantissaBits)
    ensures SdkClosest(x, mantissaBits) == x <==> Representable(x, expBits, mantissaBits)
  {
    SdkPartsFit(x, expBits, mantissaBits);
    if Representable(x, expBits, mantissaBits) {
      RepresentableIsKept(x, expBits, mantissaBits);
      CoarserKeepsLess(x, SdkExponent(x, mantissaBits), Exponent(x, mantissaBits));
    }
  }

  /** On a number that can be written without loss the two encoders choose the same exponent. */
  lemma {:induction false} SameExponent(x: nat, expBits: nat, mantissaBits: nat)
    requires mantissaBits > 0 && Representable(x, expBits, mantissaBits)
    ensures SdkExponent(x, mantissaBits) == Exponent(x, mantissaBits)
  {
    RepresentableIsKept(x, expBits, mantissaBits);
    SdkPartsFit(x, expBits, mantissaBits);
    SdkKeepsRepresentable(x, expBits, mantissaBits);
    var e, limit := SdkExponent(x, mantissaBits), MaxMantissa(mantissaBits);
    ScaledMonotonic(SdkMantissa(x, mantissaBits), limit, e);
    LimitIsPositive(mantissaBits);
    LeastIsLeast(x, limit, e);
  }

  /** The main theorem on the two encoders. They write the same bytes for every amount that can be
      written without loss; for any other amount both values lie at or below it, the library's
      between the server's and the amount. */
  lemma {:induction false} EncodersAgree(x: nat, expBits: nat, mantissaBits: nat)
    requires 3 <= mantissaBits < 128 && (expBits + mantissaBits) % 8 == 0
    requires x < U128_LIMIT && x <= MaxFloat(expBits, mantissaBits)
    ensures Representable(x, expBits, mantissaBits) ==>
              SdkPacked(x, expBits, mantissaBits) == Packed(x, expBits, mantissaBits)
    ensures SdkUnpacked(SdkPacked(x, expBits, mantissaBits), expBits, mantissaBits).Some?
    ensures Unpacked(Packed(x, expBits, mantissaBits), expBits, mantissaBits).Some?
    ensures Unpacked(Packed(x, expBits, mantissaBits), expBits, mantissaBits).value
         <= SdkUnpacked(SdkPacked(x, expBits, mantissaBits), expBits, mantissaBits).value <= x
  {
    PackedValue(x, expBits, mantissaBits);
    SdkPackedValue(x, expBits, mantissaBits);
    SdkPartsFit(x, expBits, mantissaBits);
    CoarserKeepsLess(x, SdkExponent(x, mantissaBits), Exponent(x, mantissaBits));
    if Representable(x, expBits, mantissaBits) {
      SameExponent(x, expBits, mantissaBits);
    }
    hide Unpacked, SdkUnpacked, Kept, Representable;
  }

  // ----- how close the closest packable number is

  /** The greatest packable number that is not above the amount. */
  ghost predicate GreatestBelow(y: nat, x: nat, expBits: nat, mantissaBits: nat) {
    && Representable(y, expBits, mantissaBits) && y <= x
    && forall z: nat :: Representable(z, expBits, mantissaBits) && z <= x ==> z <= y
  }

  /** The closest packable number is the greatest one not above the amount if and only if no digit was
      dropped, or the mantissa times ten reaches the largest mantissa. */
  lemma {:induction false} ClosestIsGreatest(x: nat, expBits: nat, mantissaBits: nat)
    requires mantissaBits > 0 && x <= MaxFloat(expBits, mantissaBits)
    ensures GreatestBelow(SdkClosest(x, mantissaBits), x, expBits, mantissaBits)
       <==> SdkExponent(x, mantissaBits) == 0 || 10 * SdkMantissa(x, mantissaBits) >= MaxMantissa(mantissaBits)
  {
    var e, m, limit := SdkExponent(x, mantissaBits), SdkMantissa(x, mantissaBits), MaxMantissa(mantissaBits);
    var y := SdkClosest(x, mantissaBits);
    SdkPartsFit(x, expBits, mantissaBits);
    assert y == Scaled(m, e);
    assert Representable(y, expBits, mantissaBits);
    if e == 0 || 10 * m >= limit {
      forall z: nat | Representable(z, expBits, mantissaBits) && z <= x
        ensures z <= y
      {
        NothingBetween(x, z, e, m, expBits, mantissaBits);
      }
    } else {
      var z := Scaled(limit, e - 1);
      Distribute(limit, Pow10(e - 1));
      assert z <= x;
      ScaledMonotonic(10 * m + 1, limit, e - 1);
      TenTimes(m, e);
      assert Representable(z, expBits, mantissaBits) && z > y;
    }
  }

  /** Between the numbers whose mantissa grew too long at one exponent and those whose mantissa is at least a
      tenth of the largest at the next. */
  predicate InGap(x: nat, mantissaBits: nat, e: nat) {
    var limit := MaxMantissa(mantissaBits);
    Scaled(limit + 1, e) <= x < Scaled((limit + 9) / 10, e + 1)
  }

  /** The same in terms of the amount: the closest packable number misses a greater one exactly in these
      gaps. */
  lemma {:induction false} ClosestMissesInGaps(x: nat, expBits: nat, mantissaBits: nat)
    requires mantissaBits > 0 && x <= MaxFloat(expBits, mantissaBits)
    ensures GreatestBelow(SdkClosest(x, mantissaBits), x, expBits, mantissaBits) <==> !exists e: nat :: InGap(x, mantissaBits, e)
  {
    ClosestIsGreatest(x, expBits, mantissaBits);
    var e, m, limit := SdkExponent(x, mantissaBits), SdkMantissa(x, mantissaBits), MaxMantissa(mantissaBits);
    LimitIsPositive(mantissaBits);
    hide GreatestBelow, MaxFloat, MaxMantissa, SdkClosest;
    if e > 0 && 10 * m < limit {
      assert Scaled(limit + 1, e - 1) <= x;
      QuotientBelow(x, Pow10(e), (limit + 9) / 10);
      assert InGap(x, mantissaBits, e - 1);
    }
    if exists d: nat :: InGap(x, mantissaBits, d) {
      var d: nat :| InGap(x, mantissaBits, d);
      ScaledMonotonic((limit + 9) / 10, limit + 1, d + 1);
      LeastIsUnique(x + 1, limit + 1, d + 1);
      assert e == d + 1;
      QuotientBelow(x, Pow10(e), (limit + 9) / 10);
    }
  }

  lemma {:induction false} QuotientBelow(x: nat, d: nat, q: nat)
    requires d > 0
    ensures Quotient(x, d) < q <==> x < q * d
  {
    var r := Quotient(x, d);
    if r < q {
      MulMonotonic(d, r + 1, q);
    } else {
      MulMonotonic(d, q, r);
    }
  }

  lemma {:induction false} TenTimes(m: nat, e: nat)
    requires e > 0
    ensures Scaled(10 * m, e - 1) == Scaled(m, e) < Scaled(10 * m + 1, e - 1)
  {
    assert m * (10 * Pow10(e - 1)) == (10 * m) * Pow10(e - 1);
    assert (10 * m + 1) * Pow10(e - 1) == (10 * m) * Pow10(e - 1) + Pow10(e - 1);
  }

  lemma {:induction false} NothingBetween(x: nat, z: nat, e: nat, m: nat, expBits: nat, mantissaBits: nat)
    requires Representable(z, expBits, mantissaBits) && z <= x
    requires m == Quotient(x, Pow10(e)) && (e == 0 || 10 * m >= MaxMantissa(mantissaBits))
    ensures z <= Scaled(m, e)
  {
    var limit := MaxMantissa(mantissaBits);
    var n: nat, k: nat :| n <= limit && k < Pow2(expBits) && z == Scaled(n, k);
    if k >= e {
      ScaledIsKept(n, k, e);
      KeptMonotonic(z, x, e);
    } else {
      TenTimes(m, e);
      ScaledMonotonic(n, limit, k);
      ScaledMonotonic(limit, 10 * m, e - 1);
      Pow10Monotonic(k, e - 1);
      MulMonotonic(limit, Pow10(k), Pow10(e - 1));
    }
  }

  /** A fee of 2048 is packed as 2040, although 2047 can be packed. */
  lemma {:induction false} FeePassesOverALargerNumber()
    ensures SdkClosest(2048, FEE_MANTISSA_BIT_WIDTH) == 2040
    ensures Representable(2047, FEE_EXPONENT_BIT_WIDTH, FEE_MANTISSA_BIT_WIDTH)
  {
    assert Pow2(11) == 2048 && Pow10(1) == 10 && Pow10(0) == 1;
    Pow2Monotonic(0, 5);
    LeastIsUnique(2049, 2048, 1);
    QuotientUnique(2048, 10, 204, 8);
    assert Scaled(204, 1) == 2040 && Scaled(2047, 0) == 2047;
  }
}
