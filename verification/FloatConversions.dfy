/** `FloatConversions` and `BitConvert` of the crypto library: packing of amounts below 2^128 into
    decimal floats. `u128` is a bounded type here, so the verifier checks that no operation on it
    overflows. */
module FloatConversions {
  import opened Bits
  import opened Common
  import opened Decimal

  newtype u128 = x: int | 0 <= x < U128_LIMIT

  type byte = b: nat | b < 256

  // ----- specification

  /** The exponent the encoder chooses. */
  function Exponent(x: nat, mantissaLength: nat): nat
    requires mantissaLength > 0
  {
    LeastExponent(x, MaxMantissa(mantissaLength))
  }

  function Mantissa(x: nat, mantissaLength: nat): nat
    requires mantissaLength > 0
  {
    Quotient(x, Pow10(Exponent(x, mantissaLength)))
  }

  /** Exponent, then mantissa, lowest bits first. */
  function FloatBits(exponent: nat, mantissa: nat, exponentLength: nat, mantissaLength: nat): (bits: seq<bool>)
    ensures |bits| == exponentLength + mantissaLength
  {
    BitsLE(exponent, exponentLength) + BitsLE(mantissa, mantissaLength)
  }

  function OneByte(bits: seq<bool>): (b: byte)
    requires |bits| == 8
    ensures b == FromBE(bits)
  {
    assert Pow2(8) == 256;
    FromBE(bits)
  }

  /** Bytes of a bit string, highest bit of each byte first. */
  function Bytes(bits: seq<bool>): (bytes: seq<byte>)
    requires |bits| % 8 == 0
    ensures |bytes| == |bits| / 8
    decreases |bits|
  {
    if bits == [] then [] else [OneByte(bits[..8])] + Bytes(bits[8..])
  }

  function BitsOfBytes(bytes: seq<byte>): (bits: seq<bool>)
    ensures |bits| == 8 * |bytes|
  {
    if bytes == [] then [] else BitsBE(bytes[0], 8) + BitsOfBytes(bytes[1..])
  }

  function Reverse<T>(s: seq<T>): (r: seq<T>)
    ensures |r| == |s|
    ensures forall i :: 0 <= i < |s| ==> r[i] == s[|s| - 1 - i]
  {
    if s == [] then [] else Reverse(s[1..]) + [s[0]]
  }

  /** The number a float stands for, if it and its power of ten are below 2^128. */
  function FloatValue(exponent: nat, mantissa: nat): Option<nat> {
    if Pow10(exponent) < U128_LIMIT && mantissa * Pow10(exponent) < U128_LIMIT
    then Some(mantissa * Pow10(exponent)) else None
  }

  function Packed(x: nat, exponentLength: nat, mantissaLength: nat): seq<byte>
    requires mantissaLength > 0 && (exponentLength + mantissaLength) % 8 == 0
  {
    Bytes(Reverse(FloatBits(Exponent(x, mantissaLength), Mantissa(x, mantissaLength), exponentLength, mantissaLength)))
  }

  function Unpacked(data: seq<byte>, exponentLength: nat, mantissaLength: nat): Option<nat> {
    if exponentLength + mantissaLength != 8 * |data| then None
    else
      var bits := BitsOfBytes(data);
      FloatValue(FromBE(bits[mantissaLength..]), FromBE(bits[..mantissaLength]))
  }

  // ----- the encoder

  method SaturatingMul(x: u128, y: u128) returns (r: u128)
    ensures r as int == if x as int * y as int < U128_LIMIT then x as int * y as int else U128_LIMIT - 1
  {
    var product := x as int * y as int;
    MulMonotonic(x as nat, 0, y as int);
    r := if product < U128_LIMIT then product as u128 else (U128_LIMIT - 1) as u128;
  }

  /** Saturated, the largest representable number. */
  method MaxInteger(exponentLength: nat, mantissaLength: nat) returns (maxMantissa: u128, largest: u128)
    requires exponentLength <= 30 && 0 < mantissaLength < 128
    ensures maxMantissa as int == MaxMantissa(mantissaLength)
    ensures largest as int == if MaxFloat(exponentLength, mantissaLength) < U128_LIMIT
                              then MaxFloat(exponentLength, mantissaLength) else U128_LIMIT - 1
  {
    MantissaRange(mantissaLength);
    var maxExponent: u128 := 1;
    var maxPower := Pow2(exponentLength) - 1;
    for i := 0 to maxPower
      invariant maxExponent as int == if Pow10(i) < U128_LIMIT then Pow10(i) else U128_LIMIT - 1
    {
      maxExponent := SaturatingMul(maxExponent, 10);
    }
    maxMantissa := MaxMantissa(mantissaLength) as u128;
    largest := SaturatingMul(maxMantissa, maxExponent);
    if Pow10(maxPower) >= U128_LIMIT {
      MulMonotonic(MaxMantissa(mantissaLength), U128_LIMIT, Pow10(maxPower));
      MulMonotonic(maxMantissa as nat, U128_LIMIT - 1, maxExponent as int);
      assert MaxMantissa(mantissaLength) * U128_LIMIT >= U128_LIMIT;
    }
  }

  lemma {:induction false} MantissaRange(mantissaLength: nat)
    requires 0 < mantissaLength < 128
    ensures 0 < MaxMantissa(mantissaLength) < U128_LIMIT
    ensures mantissaLength >= 3 ==> MaxMantissa(mantissaLength) >= 7
  {
    Pow2Sum127();
    Pow2Monotonic(mantissaLength, 127);
    Pow2Monotonic(1, mantissaLength);
    if mantissaLength >= 3 {
      assert Pow2(3) == 8;
      Pow2Monotonic(3, mantissaLength);
    }
  }

  lemma {:induction false} Pow2Sum127()
    ensures Pow2(127) * 2 == U128_LIMIT
  {
    Pow2Sum(8, 256, 8, 256);
    Pow2Sum(16, 0x1_0000, 16, 0x1_0000);
    Pow2Sum(32, 0x1_0000_0000, 32, 0x1_0000_0000);
    Pow2Sum(64, 0x1_0000_0000_0000_0000, 64, 0x1_0000_0000_0000_0000);
    assert Pow2(128) == 2 * Pow2(127);
  }

  /** How often the guess can be divided by ten. */
  lemma {:induction false} GuessIsClose(integer: nat, limit: nat, e: nat)
    requires 0 < limit < integer && Pow10(e) <= Quotient(integer, limit) < Pow10(e + 1)
    ensures limit * Pow10(e) <= integer
    ensures LeastExponent(integer, limit) == if limit * Pow10(e) < integer then e + 1 else e
    ensures e == 0 ==> limit * Pow10(e) < integer
  {
    var q, p := Quotient(integer, limit), Pow10(e);
    var p', next := if e > 0 then Pow10(e - 1) else 0, Pow10(e + 1);
    assert if e > 0 then p' + 1 <= p else p == 1 && limit * p == limit;
    hide Pow10, LeastExponent;
    MulMonotonic(limit, p, q);
    Spread(limit, q);
    MulMonotonic(limit, q + 1, next);
    if limit * p < integer {
      LeastIsUnique(integer, limit, e + 1);
    } else {
      if e > 0 {
        Spread(limit, p');
        MulMonotonic(limit, p' + 1, p);
      }
      LeastIsUnique(integer, limit, e);
    }
  }

  lemma {:induction false} Spread(a: nat, p: nat)
    ensures a * (p + 1) == a * p + a
  {
  }

  lemma {:induction false} PowersAround128()
    ensures Pow10(38) < U128_LIMIT <= Pow10(39) && U128_LIMIT <= 7 * Pow10(38)
  {
    assert Pow10(8) == 1_0000_0000;
    assert Pow10(16) == 1_0000_0000_0000_0000 by { Pow10Add(8, 8); }
    assert Pow10(32) == 1_0000_0000_0000_0000_0000_0000_0000_0000 by { Pow10Add(16, 16); }
    assert Pow10(6) == 1_000_000;
    Pow10Add(32, 6);
  }

  /** The power of ten an encoder needs fits in 128 bits exactly when the number is at most
      `limit * 10^38`; mantissas of three bits or more always meet this. */
  lemma {:induction false} ChosenPowerFits(integer: nat, limit: nat)
    requires 0 < limit && integer < U128_LIMIT
    ensures Pow10(LeastExponent(integer, limit)) < U128_LIMIT <==> integer <= limit * Pow10(38)
    ensures limit >= 7 ==> integer <= limit * Pow10(38)
  {
    PowersAround128();
    var e := LeastExponent(integer, limit);
    if integer <= limit * Pow10(38) {
      LeastIsLeast(integer, limit, 38);
      Pow10Monotonic(e, 38);
    } else if e <= 38 {
      Pow10Monotonic(e, 38);
      MulMonotonic(limit, Pow10(e), Pow10(38));
      assert false;
    } else {
      Pow10Monotonic(39, e);
    }
    if limit >= 7 {
      MulMonotonic(Pow10(38), 7, limit);
    }
  }

  lemma {:induction false} NextPowerFits(integer: nat, limit: nat, e: nat)
    requires 0 < limit && limit * Pow10(e) < integer <= limit * Pow10(38)
    ensures 10 * Pow10(e) < U128_LIMIT
  {
    PowersAround128();
    if e >= 38 {
      Pow10Monotonic(38, e);
      MulMonotonic(limit, Pow10(38), Pow10(e));
      assert false;
    } else {
      Pow10Monotonic(e + 1, 38);
    }
  }

  /** Divides by ten until one digit is left. */
  method CountDigits(guess: u128) returns (exponent: nat)
    requires guess > 0
    ensures Pow10(exponent) <= guess as nat < Pow10(exponent + 1)
  {
    exponent := 0;
    var exponentTemp := guess;
    while exponentTemp >= 10
      invariant exponentTemp as nat == Quotient(guess as nat, Pow10(exponent)) > 0
      decreases exponentTemp
    {
      DivDiv(guess as nat, Pow10(exponent), 10);
      exponentTemp := exponentTemp / 10;
      exponent := exponent + 1;
    }
    BetweenPowers(guess as nat, exponent);
  }

  /** Multiplies tens up; the bound of the caller keeps it below 2^128. */
  method PowerOfTen(exponent: nat, ghost bound: u128) returns (power: u128)
    requires Pow10(exponent) <= bound as nat
    ensures power as int == Pow10(exponent)
  {
    power := 1;
    for i := 0 to exponent
      invariant power as int == Pow10(i)
    {
      Pow10Monotonic(i + 1, exponent);
      power := power * 10;
    }
  }

  /** The exponent and the mantissa of a number that is not too big. No intermediate value leaves
      128 bits. */
  method ChooseExponent(integer: u128, maxMantissa: u128) returns (exponent: nat, mantissa: u128)
    requires maxMantissa > 0 && integer as int <= maxMantissa as int * Pow10(38)
    ensures exponent == LeastExponent(integer as nat, maxMantissa as nat)
    ensures mantissa as int == Quotient(integer as nat, Pow10(exponent))
  {
    hide Pow10, LeastExponent;
    if integer > maxMantissa {
      ghost var x, limit := integer as nat, maxMantissa as nat;
      var exponentGuess := integer / maxMantissa;
      GuessIsPositive(x, limit);
      exponent := CountDigits(exponentGuess);
      GuessIsClose(x, limit, exponent);
      MulMonotonic(Pow10(exponent), 1, limit);
      var exponentTemp := PowerOfTen(exponent, integer);
      var largest := Times(exponentTemp, maxMantissa, integer);
      if largest < integer {
        NextPowerFits(x, limit, exponent);
        NextPower(exponent);
        exponent := exponent + 1;
        exponentTemp := exponentTemp * 10;
      }
      assert Quotient(x, Pow10(exponent)) == x / Pow10(exponent);
      mantissa := integer / exponentTemp;
    } else {
      NoExponent(integer as nat, maxMantissa as nat);
      exponent, mantissa := 0, integer;
    }
  }

  lemma {:induction false} GuessIsPositive(x: nat, limit: nat)
    requires 0 < limit < x
    ensures x / limit == Quotient(x, limit) > 0
  {
    var q := Quotient(x, limit);
    assert q == 0 ==> limit * q == 0;
  }

  lemma {:induction false} NextPower(e: nat)
    ensures Pow10(e + 1) == 10 * Pow10(e)
  {
  }

  lemma {:induction false} NoExponent(x: nat, limit: nat)
    requires 0 < limit && x <= limit
    ensures LeastExponent(x, limit) == 0 && Quotient(x, Pow10(0)) == x
  {
    LeastIsUnique(x, limit, 0);
    QuotientUnique(x, 1, x, 0);
  }

  /** A product that stays in 128 bits because it is at most `bound`. */
  method Times(x: u128, y: u128, ghost bound: u128) returns (r: u128)
    requires y as int * x as int <= bound as int
    ensures r as int == y as int * x as int
  {
    assert 0 <= x as int * y as int == y as int * x as int by { MulMonotonic(x as nat, 0, y as int); }
    r := x * y;
  }

  lemma {:induction false} BetweenPowers(guess: nat, e: nat)
    requires 0 < Quotient(guess, Pow10(e)) < 10
    ensures Pow10(e) <= guess < Pow10(e + 1)
  {
    var p, q := Pow10(e), Quotient(guess, Pow10(e));
    MulMonotonic(p, 1, q);
    MulMonotonic(p, q, 9);
  }

  lemma {:induction false} NextBit(done: seq<bool>, n: nat, w: nat)
    requires w > 0
    ensures done + BitsLE(n, w) == done + [n % 2 == 1] + BitsLE(n / 2, w - 1)
  {
    assert BitsLE(n, w) == [n % 2 == 1] + BitsLE(n / 2, w - 1);
  }

  /** Bit by bit, lowest first. */
  method PushBits(encoding: seq<bool>, n: nat, length: nat) returns (r: seq<bool>)
    ensures r == encoding + BitsLE(n, length)
  {
    r := encoding;
    var rest := n;
    for i := 0 to length
      invariant r + BitsLE(rest, length - i) == encoding + BitsLE(n, length)
    {
      NextBit(r, rest, length - i);
      r := r + [rest % 2 == 1];
      rest := rest / 2;
    }
  }

  method EncodeParts(exponent: nat, mantissa: u128, exponentLength: nat, mantissaLength: nat) returns (encoding: seq<bool>)
    ensures encoding == FloatBits(exponent, mantissa as nat, exponentLength, mantissaLength)
  {
    encoding := PushBits([], exponent, exponentLength);
    encoding := PushBits(encoding, mantissa as nat, mantissaLength);
  }

  /** No operation leaves 128 bits on a number that is not refused: the power of ten it needs fits. For
      mantissas of three bits or more this is always so. */
  predicate PowerFits(integer: nat, exponentLength: nat, mantissaLength: nat) {
    integer <= MaxFloat(exponentLength, mantissaLength) ==> integer <= MaxMantissa(mantissaLength) * Pow10(38)
  }

  lemma {:induction false} LongMantissasFit(integer: nat, exponentLength: nat, mantissaLength: nat)
    requires 3 <= mantissaLength < 128 && integer < U128_LIMIT
    ensures PowerFits(integer, exponentLength, mantissaLength)
  {
    MantissaRange(mantissaLength);
    hide Pow10, LeastExponent;
    ChosenPowerFits(integer, MaxMantissa(mantissaLength));
  }

  /** `to_float` with base 10: fails exactly on numbers above the largest float. */
  method ToFloat(integer: u128, exponentLength: nat, mantissaLength: nat) returns (r: Option<seq<bool>>)
    requires exponentLength <= 30 && 0 < mantissaLength < 128
    requires PowerFits(integer as nat, exponentLength, mantissaLength)
    ensures r.Some? <==> integer as int <= MaxFloat(exponentLength, mantissaLength)
    ensures r.Some? ==> r.value == FloatBits(Exponent(integer as nat, mantissaLength), Mantissa(integer as nat, mantissaLength),
                                             exponentLength, mantissaLength)
  {
    MantissaRange(mantissaLength);
    hide Pow2, Pow10, LeastExponent, FloatBits, MaxFloat, MaxMantissa;
    var maxMantissa, largest := MaxInteger(exponentLength, mantissaLength);
    if integer > largest {
      return None;
    }
    var exponent, mantissa := ChooseExponent(integer, maxMantissa);
    var encoding := EncodeParts(exponent, mantissa, exponentLength, mantissaLength);
    r := Some(encoding);
  }

  // ----- bits and bytes

  lemma {:induction false} FromBEFront(b: bool, t: seq<bool>)
    ensures FromBE([b] + t) == (if b then Pow2(|t|) else 0) + FromBE(t)
  {
    if t == [] {
      assert [b] + t == [b];
    } else {
      var k := |t| - 1;
      FromBEFront(b, t[..k]);
      assert ([b] + t)[..k + 1] == [b] + t[..k];
    }
  }

  /** The bits of a number, highest first, from the front. */
  lemma {:induction false} BitsBEFront(n: nat, w: nat)
    requires n < 2 * Pow2(w)
    ensures BitsBE(n, w + 1) == [n >= Pow2(w)] + BitsBE(if n >= Pow2(w) then n - Pow2(w) else n, w)
  {
    var b := n >= Pow2(w);
    var rest := if b then n - Pow2(w) else n;
    var bits := [b] + BitsBE(rest, w);
    FromBEFront(b, BitsBE(rest, w));
    FromBEOfBits(rest, w);
    assert FromBE(bits) == n;
    BitsOfFromBE(bits);
  }

  /** One byte, the bits of the chunk taken from its end. */
  method ByteOf(byteChunk: seq<bool>) returns (value: byte)
    requires |byteChunk| == 8
    ensures value == FromBE(byteChunk)
  {
    var n: nat := 0;
    assert Pow2(8) == 256;
    assert byteChunk[8..] == [] && FromBE([]) == 0;
    hide FromBE;
    for i := 0 to 8
      invariant n == FromBE(byteChunk[8 - i..])
    {
      assert byteChunk[8 - (i + 1)..] == [byteChunk[7 - i]] + byteChunk[8 - i..];
      FromBEFront(byteChunk[7 - i], byteChunk[8 - i..]);
      if byteChunk[7 - i] {
        n := n + Pow2(i);
      }
    }
    assert byteChunk[0..] == byteChunk;
    value := n;
  }

  /** `into_bytes_ordered`; its length assertion is the precondition. */
  method IntoBytesOrdered(bits: seq<bool>) returns (messageBytes: seq<byte>)
    requires |bits| % 8 == 0
    ensures messageBytes == Bytes(bits)
  {
    hide FromBE;
    messageBytes := [];
    var n := 0;
    while n < |bits|
      invariant n <= |bits| && (|bits| - n) % 8 == 0
      invariant messageBytes + Bytes(bits[n..]) == Bytes(bits)
    {
      var value := ByteOf(bits[n..n + 8]);
      assert bits[n..n + 8] == bits[n..][..8];
      assert bits[n..][8..] == bits[n + 8..];
      messageBytes := messageBytes + [value];
      n := n + 8;
    }
  }

  /** Shifting left drops the first bit. */
  lemma {:induction false} ShiftOut(n: nat, w: nat)
    requires n < 2 * Pow2(w)
    ensures BitsBE(n, w + 1)[0] == (n >= Pow2(w))
    ensures BitsBE(if n >= Pow2(w) then n * 2 - 2 * Pow2(w) else n * 2, w + 1) == BitsBE(n, w + 1)[1..] + [false]
  {
    BitsBEFront(n, w);
    var rest := if n >= Pow2(w) then n - Pow2(w) else n;
    assert BitsBE(2 * rest, w + 1) == BitsBE(rest, w) + [false];
  }

  /** The bits of one byte: the highest is tested, then the byte is shifted left. */
  method BitsOfByte(b: byte) returns (bits: seq<bool>)
    ensures bits == BitsBE(b, 8)
  {
    hide BitsBE;
    bits := [];
    var temp: nat := b;
    assert Pow2(7) == 128;
    for i := 0 to 8
      invariant temp < 256 && |bits| == i
      invariant bits + BitsBE(temp, 8)[..8 - i] == BitsBE(b, 8)
    {
      ShiftOut(temp, 7);
      ghost var was := BitsBE(temp, 8);
      assert was[..8 - i] == [was[0]] + was[1..8 - i];
      assert (was[1..] + [false])[..7 - i] == was[1..8 - i];
      bits := bits + [temp >= 0x80];
      temp := temp * 2 % 256;
    }
  }

  /** `from_be_bytes` */
  method FromBeBytes(bytes: seq<byte>) returns (bits: seq<bool>)
    ensures bits == BitsOfBytes(bytes)
  {
    hide BitsBE;
    bits := [];
    for k := 0 to |bytes|
      invariant bits + BitsOfBytes(bytes[k..]) == BitsOfBytes(bytes)
    {
      var more := BitsOfByte(bytes[k]);
      assert bytes[k..][0] == bytes[k] && bytes[k..][1..] == bytes[k + 1..];
      bits := bits + more;
    }
  }

  /** `pack`: no result stands for its panics, on numbers of more than 128 bits, on numbers above the
      largest float, and on lengths that fill no whole bytes. */
  method Pack(number: nat, exponentLength: nat, mantissaLength: nat) returns (r: Option<seq<byte>>)
    requires exponentLength <= 30 && 0 < mantissaLength < 128
    requires number < U128_LIMIT ==> PowerFits(number, exponentLength, mantissaLength)
    ensures r.Some? <==> number < U128_LIMIT && number <= MaxFloat(exponentLength, mantissaLength)
                         && (exponentLength + mantissaLength) % 8 == 0
    ensures r.Some? ==> r.value == Packed(number, exponentLength, mantissaLength)
  {
    if number >= U128_LIMIT {
      return None;
    }
    hide Pow10, Pow2, LeastExponent, MaxMantissa, MaxFloat, PowerFits, Bytes, BitsLE;
    var bits := ToFloat(number as u128, exponentLength, mantissaLength);
    if bits.None? || |bits.value| % 8 != 0 {
      return None;
    }
    var data := IntoBytesOrdered(Reverse(bits.value));
    r := Some(data);
  }

  // ----- the decoder

  function CheckedPow10(exponent: nat): (r: Option<u128>)
    ensures r.Some? <==> Pow10(exponent) < U128_LIMIT
    ensures r.Some? ==> r.value as int == Pow10(exponent)
  {
    if Pow10(exponent) < U128_LIMIT then Some(Pow10(exponent) as u128) else None
  }

  /** Sums powers of two from the end; the sum is checked against `limit`, which it never reaches. */
  method SumBits(bits: seq<bool>, limit: nat) returns (r: Option<nat>)
    requires Pow2(|bits|) <= limit
    ensures r == Some(FromBE(bits))
  {
    var sum := 0;
    for i := 0 to |bits|
      invariant sum == FromBE(bits[|bits| - i..])
    {
      var k := |bits| - 1 - i;
      assert bits[k..] == [bits[k]] + bits[k + 1..];
      FromBEFront(bits[k], bits[k + 1..]);
      Pow2Monotonic(i + 1, |bits|);
      if bits[k] {
        if sum + Pow2(i) >= limit {
          return None;
        }
        sum := sum + Pow2(i);
      }
    }
    assert bits[0..] == bits;
    r := Some(sum);
  }

  /** The checked power and product that end `unpack`. */
  method CheckedScale(exponentPow: nat, mantissa: nat) returns (r: Option<nat>)
    ensures r == FloatValue(exponentPow, mantissa)
  {
    var exponent := CheckedPow10(exponentPow);
    hide Pow10;
    if exponent.None? {
      return None;
    }
    var product := mantissa * exponent.value as nat;
    r := if product < U128_LIMIT then Some(product) else None;
  }

  lemma {:induction false} WordSizes(exponentLength: nat, mantissaLength: nat)
    requires exponentLength <= 32 && mantissaLength <= 128
    ensures Pow2(exponentLength) <= 0x1_0000_0000 && Pow2(mantissaLength) <= U128_LIMIT
  {
    Pow2Sum127();
    assert Pow2(128) == 2 * Pow2(127);
    Pow2Monotonic(mantissaLength, 128);
    Pow2Sum(8, 256, 8, 256);
    Pow2Sum(16, 0x1_0000, 16, 0x1_0000);
    Pow2Monotonic(exponentLength, 32);
  }

  /** `unpack`, for exponents that fit in 32 bits and mantissas that fit in 128. */
  method Unpack(data: seq<byte>, exponentLength: nat, mantissaLength: nat) returns (r: Option<nat>)
    requires exponentLength <= 32 && mantissaLength <= 128
    ensures r == Unpacked(data, exponentLength, mantissaLength)
  {
    if exponentLength + mantissaLength != |data| * 8 {
      return None;
    }
    WordSizes(exponentLength, mantissaLength);
    ghost var all := BitsOfBytes(data);
    assert Unpacked(data, exponentLength, mantissaLength)
        == FloatValue(FromBE(all[mantissaLength..]), FromBE(all[..mantissaLength]));
    hide *;
    var bits := FromBeBytes(data);
    var mantissa := SumBits(bits[..mantissaLength], 0x1_0000_0000_0000_0000_0000_0000_0000_0000);
    assert bits[mantissaLength..mantissaLength + exponentLength] == bits[mantissaLength..];
    var exponentPow := SumBits(bits[mantissaLength..mantissaLength + exponentLength], 0x1_0000_0000);
    r := CheckedScale(exponentPow.value, mantissa.value);
  }
}
