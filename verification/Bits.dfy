/** Fixed-width bit strings and their packing into field elements.

    A circuit element of known length is a number together with exactly that many bits; the
    functions here are the decompositions (`BitsLE`, `BitsBE`) and the packing (`FromLE`), and
    `MultiPack` is the packing of a long bit string into words of `CAPACITY` bits. */
module Bits {

  function Pow2(n: nat): (p: nat)
    ensures p >= 1
  {
    if n == 0 then 1 else 2 * Pow2(n - 1)
  }

  lemma {:induction false} Pow2Add(a: nat, b: nat)
    ensures Pow2(a + b) == Pow2(a) * Pow2(b)
  {
    if b == 0 {
    } else {
      Pow2Add(a, b - 1);
      var x, y := Pow2(a), Pow2(b - 1);
      assert Pow2(a + b) == 2 * (x * y) && Pow2(b) == 2 * y;
      hide Pow2;
      assert x * (2 * y) == 2 * (x * y);
    }
  }

  lemma {:induction false} Pow2Monotonic(a: nat, b: nat)
    requires a <= b
    ensures Pow2(a) <= Pow2(b)
  {
    if a < b {
      Pow2Monotonic(a, b - 1);
    }
  }

  lemma {:induction false} Pow2Sum(a: nat, pa: nat, b: nat, pb: nat)
    requires Pow2(a) == pa && Pow2(b) == pb
    ensures Pow2(a + b) == pa * pb
  {
    Pow2Add(a, b);
  }

  function BitValue(b: bool): (v: nat) {
    if b then 1 else 0
  }

  /** The lowest `w` bits of `n`, lowest first. */
  function BitsLE(n: nat, w: nat): (bits: seq<bool>)
    ensures |bits| == w
    decreases w
  {
    if w == 0 then [] else [n % 2 == 1] + BitsLE(n / 2, w - 1)
  }

  /** The lowest `w` bits of `n`, highest first. */
  function BitsBE(n: nat, w: nat): (bits: seq<bool>)
    ensures |bits| == w
    decreases w
  {
    if w == 0 then [] else BitsBE(n / 2, w - 1) + [n % 2 == 1]
  }

  /** The number whose bits, lowest first, are `bits`. */
  function FromLE(bits: seq<bool>): (n: nat)
    ensures n < Pow2(|bits|)
  {
    if bits == [] then 0 else BitValue(bits[0]) + 2 * FromLE(bits[1..])
  }

  /** The number whose bits, highest first, are `bits`. */
  function FromBE(bits: seq<bool>): (n: nat)
    ensures n < Pow2(|bits|)
  {
    if bits == [] then 0 else 2 * FromBE(bits[..|bits| - 1]) + BitValue(bits[|bits| - 1])
  }

  lemma {:induction false} FromLEOfBits(n: nat, w: nat)
    requires n < Pow2(w)
    ensures FromLE(BitsLE(n, w)) == n
    decreases w
  {
    if w == 0 {
    } else {
      FromLEOfBits(n / 2, w - 1);
      assert BitsLE(n, w)[1..] == BitsLE(n / 2, w - 1);
    }
  }

  lemma {:induction false} BitsOfFromLE(bits: seq<bool>)
    ensures BitsLE(FromLE(bits), |bits|) == bits
  {
    if bits == [] {
    } else {
      BitsOfFromLE(bits[1..]);
      var n := FromLE(bits);
      assert n / 2 == FromLE(bits[1..]) && (n % 2 == 1) == bits[0];
      assert bits == [bits[0]] + bits[1..];
    }
  }

  lemma {:induction false} FromBEOfBits(n: nat, w: nat)
    requires n < Pow2(w)
    ensures FromBE(BitsBE(n, w)) == n
    decreases w
  {
    if w == 0 {
    } else {
      FromBEOfBits(n / 2, w - 1);
      assert BitsBE(n, w)[..w - 1] == BitsBE(n / 2, w - 1);
    }
  }

  lemma {:induction false} BitsOfFromBE(bits: seq<bool>)
    ensures BitsBE(FromBE(bits), |bits|) == bits
  {
    if bits == [] {
    } else {
      var k := |bits| - 1;
      BitsOfFromBE(bits[..k]);
      var n := FromBE(bits);
      assert n / 2 == FromBE(bits[..k]) && (n % 2 == 1) == bits[k];
      assert bits == bits[..k] + [bits[k]];
    }
  }

  /** Packing is injective on bit strings of one length. */
  lemma {:induction false} FromLEInjective(x: seq<bool>, y: seq<bool>)
    requires |x| == |y| && FromLE(x) == FromLE(y)
    ensures x == y
  {
    BitsOfFromLE(x);
    BitsOfFromLE(y);
  }

  lemma {:induction false} DivDiv(n: nat, a: nat, b: nat)
    requires a > 0 && b > 0
    ensures a * b > 0 && n / a / b == n / (a * b)
  {
    var q := n / a / b;
    var r1, r2 := n % a, (n / a) % b;
    assert n == a * (n / a) + r1;
    assert n / a == b * q + r2;
    assert n == a * (b * q + r2) + r1;
    assert a * (b * q + r2) == (a * b) * q + a * r2 by { MulDistributes(a, b, q, r2); }
    assert a * r2 <= a * (b - 1) by { MulMonotonic(a, r2, b - 1); }
    assert a * (b - 1) == a * b - a;
    QuotientUnique(n, a * b, q, a * r2 + r1);
  }

  lemma {:induction false} MulDistributes(a: int, b: int, q: int, r: int)
    ensures a * (b * q + r) == (a * b) * q + a * r
  {
    assert a * (b * q + r) == a * (b * q) + a * r;
    assert a * (b * q) == (a * b) * q;
  }

  lemma {:induction false} MulMonotonic(a: nat, x: int, y: int)
    requires x <= y
    ensures a * x <= a * y
  {
    assert a * y - a * x == a * (y - x);
  }

  lemma {:induction false} QuotientUnique(n: int, d: int, q: int, r: int)
    requires d > 0 && 0 <= r < d && n == d * q + r
    ensures n / d == q && n % d == r
  {
    var q', r' := n / d, n % d;
    assert d * (q' - q) == r - r';
    if q' > q { MulMonotonic(d, 1, q' - q); }
    if q' < q { MulMonotonic(d, 1, q - q'); }
  }

  lemma {:induction false} QuotientBounds(x: nat, d: nat)
    requires d > 0
    ensures x / d >= 0 && d * (x / d) <= x < d * (x / d) + d
  {
    var q := x / d;
    if q < 0 {
      MulMonotonic(d, q, -1);
    }
    assert x == d * q + x % d;
  }

  /** Euclidean division of natural numbers. */
  function Quotient(x: nat, d: nat): (q: nat)
    requires d > 0
    ensures q == x / d && d * q <= x < d * q + d
  {
    QuotientBounds(x, d);
    x / d
  }

  function Remainder(x: nat, d: nat): (r: nat)
    requires d > 0
    ensures r == x % d < d && x == d * Quotient(x, d) + r
  {
    x % d
  }

  lemma {:induction false} QuotientAtMost(x: nat, d: nat, q: nat)
    requires d > 0 && x < d * q + d
    ensures Quotient(x, d) <= q
  {
    var r := Quotient(x, d);
    assert d * (q + 1) == d * q + d;
    if r > q {
      MulMonotonic(d, q + 1, r);
      assert false;
    }
  }

  /** The high and the low bits of a number. */
  lemma {:induction false} SplitBits(n: nat, high: nat, low: nat)
    ensures BitsBE(n, high + low) == BitsBE(Quotient(n, Pow2(low)), high) + BitsBE(Remainder(n, Pow2(low)), low)
    decreases low
  {
    if low == 0 {
      QuotientUnique(n, 1, n, 0);
    } else {
      var p := Pow2(low - 1);
      SplitBits(n / 2, high, low - 1);
      DivDiv(n, 2, p);
      HalfOfRest(n, p);
      assert Quotient(n / 2, p) == Quotient(n, Pow2(low)) && Remainder(n / 2, p) == Remainder(n, Pow2(low)) / 2;
      hide Pow2;
      assert BitsBE(n, high + low) == BitsBE(n / 2, high + (low - 1)) + [n % 2 == 1];
    }
  }

  lemma {:induction false} HalfOfRest(n: nat, p: nat)
    requires p > 0
    ensures Remainder(n, 2 * p) / 2 == Remainder(n / 2, p) && Remainder(n, 2 * p) % 2 == n % 2
  {
    var q, r := Quotient(n / 2, p), Remainder(n / 2, p);
    assert (2 * p) * q == 2 * (p * q);
    QuotientUnique(n, 2 * p, q, 2 * r + n % 2);
  }

  /** `resize_grow_only`: padding with zero bits at the end. */
  function Resize(bits: seq<bool>, size: nat): (r: seq<bool>)
    requires |bits| <= size
    ensures |r| == size && bits <= r
  {
    bits + seq(size - |bits|, _ => false)
  }

  /** A number and the width of the field it is published in. */
  datatype Field = F(value: nat, width: nat)

  ghost predicate Fit(fs: seq<Field>) {
    forall i :: 0 <= i < |fs| ==> fs[i].value < Pow2(fs[i].width)
  }

  function Width(fs: seq<Field>): nat {
    if fs == [] then 0 else fs[0].width + Width(fs[1..])
  }

  /** The big-endian bits of a list of fields, one after the other. */
  function Encode(fs: seq<Field>): (bits: seq<bool>)
    ensures |bits| == Width(fs)
  {
    if fs == [] then [] else BitsBE(fs[0].value, fs[0].width) + Encode(fs[1..])
  }

  ghost predicate SameWidths(fs: seq<Field>, gs: seq<Field>) {
    |fs| == |gs| && forall i :: 0 <= i < |fs| ==> fs[i].width == gs[i].width
  }

  /** A field list can be read back from its bits, whatever follows them. */
  lemma {:induction false} EncodeInjective(fs: seq<Field>, gs: seq<Field>, s: seq<bool>, t: seq<bool>)
    requires SameWidths(fs, gs) && Fit(fs) && Fit(gs)
    requires Encode(fs) + s == Encode(gs) + t
    ensures fs == gs && s == t
  {
    if fs == [] {
      assert Encode(fs) + s == s && Encode(gs) + t == t;
    } else {
      var f, g, w := fs[0].value, gs[0].value, fs[0].width;
      hide BitsBE, Pow2;
      SameFront(BitsBE(f, w), Encode(fs[1..]) + s, BitsBE(g, w), Encode(gs[1..]) + t, Encode(fs) + s);
      FromBEOfBits(f, w);
      FromBEOfBits(g, w);
      EncodeInjective(fs[1..], gs[1..], s, t);
      assert fs == [fs[0]] + fs[1..] && gs == [gs[0]] + gs[1..];
    }
  }

  lemma {:induction false} SameFront(a: seq<bool>, x: seq<bool>, b: seq<bool>, y: seq<bool>, all: seq<bool>)
    requires |a| == |b| && all == a + x && all == b + y
    ensures a == b && x == y
  {
    assert a == all[..|a|] == b && x == all[|a|..] == y;
  }

  /** Number of bits that surely fit in one field element. */
  const CAPACITY: nat := 253

  /** `multipack`: words of `CAPACITY` bits, lowest bit first, the last one possibly shorter. */
  function MultiPack(bits: seq<bool>): (words: seq<nat>)
    decreases |bits|
  {
    if bits == [] then []
    else if |bits| <= CAPACITY then [FromLE(bits)]
    else [FromLE(bits[..CAPACITY])] + MultiPack(bits[CAPACITY..])
  }

  lemma {:induction false} MultiPackLength(bits: seq<bool>)
    ensures |MultiPack(bits)| == (|bits| + CAPACITY - 1) / CAPACITY
    decreases |bits|
  {
    if |bits| > CAPACITY {
      MultiPackLength(bits[CAPACITY..]);
    }
  }

  /** Comparing the packed words compares the bits. */
  lemma {:induction false} MultiPackInjective(x: seq<bool>, y: seq<bool>)
    requires |x| == |y| && MultiPack(x) == MultiPack(y)
    ensures x == y
    decreases |x|
  {
    if |x| == 0 {
    } else if |x| <= CAPACITY {
      assert MultiPack(x)[0] == MultiPack(y)[0];
      FromLEInjective(x, y);
    } else {
      assert MultiPack(x)[0] == MultiPack(y)[0];
      FromLEInjective(x[..CAPACITY], y[..CAPACITY]);
      assert MultiPack(x)[1..] == MultiPack(x[CAPACITY..]);
      assert MultiPack(y)[1..] == MultiPack(y[CAPACITY..]);
      MultiPackInjective(x[CAPACITY..], y[CAPACITY..]);
      assert x == x[..CAPACITY] + x[CAPACITY..] && y == y[..CAPACITY] + y[CAPACITY..];
    }
  }
}
