/** The loops the circuit's gadgets are made of, proved against the functions of `Bits`. */
module CircuitUtils {
  import opened Bits
  import opened Params
  import opened PrimeField
  import opened Witness

  /** `multi_and`. */
  method MultiAnd(flags: seq<bool>) returns (result: bool)
    ensures result <==> forall i :: 0 <= i < |flags| ==> flags[i]
  {
    result := true;
    for i := 0 to |flags|
      invariant result <==> forall k :: 0 <= k < i ==> flags[k]
    {
      result := result && flags[i];
    }
  }

  /** `multi_or`, by negations only. */
  method MultiOr(flags: seq<bool>) returns (result: bool)
    ensures result <==> exists i :: 0 <= i < |flags| && flags[i]
  {
    result := false;
    for i := 0 to |flags|
      invariant result <==> exists k :: 0 <= k < i && flags[k]
    {
      result := !(!result && !flags[i]);
    }
  }

  /** `pack_bits_to_element`: the coefficient doubles from bit to bit. */
  lemma {:induction false} NextPower(bits: seq<bool>, i: nat, coefficient: nat)
    requires i < |bits|
    ensures coefficient * FromLE(bits[i..]) == (if bits[i] then coefficient else 0) + (2 * coefficient) * FromLE(bits[i + 1..])
  {
    assert bits[i..][1..] == bits[i + 1..];
    var rest := FromLE(bits[i + 1..]);
    assert FromLE(bits[i..]) == 2 * rest + BitValue(bits[i]);
    hide FromLE;
    MulDistributes(coefficient, 2, rest, BitValue(bits[i]));
  }

  method PackBitsToElement(bits: seq<bool>) returns (packed: nat)
    ensures packed == FromLE(bits)
  {
    packed := 0;
    var coefficient: nat := 1;
    for i := 0 to |bits|
      invariant packed + coefficient * FromLE(bits[i..]) == FromLE(bits)
    {
      NextPower(bits, i, coefficient);
      if bits[i] {
        packed := packed + coefficient;
      }
      coefficient := 2 * coefficient;
    }
  }

  /** `multipack::pack_into_witness`. */
  method PackIntoWitness(bits: seq<bool>) returns (words: seq<nat>)
    ensures words == MultiPack(bits)
  {
    words := [];
    var rest := bits;
    while rest != []
      invariant words + MultiPack(rest) == MultiPack(bits)
      decreases |rest|
    {
      var size := if |rest| <= CAPACITY then |rest| else CAPACITY;
      var word := PackBitsToElement(rest[..size]);
      assert rest[..size] == rest || size == CAPACITY;
      assert MultiPack(rest) == [word] + MultiPack(rest[size..]);
      assert words + MultiPack(rest) == words + [word] + MultiPack(rest[size..]);
      words, rest := words + [word], rest[size..];
    }
  }

  /** `vectorized_compare`: compares the kept words with the packed new bits, word by word. */
  method VectorizedCompare(old_: seq<nat>, bits: seq<bool>) returns (equal: bool, packed: seq<nat>)
    requires |old_| == |MultiPack(bits)|
    ensures packed == MultiPack(bits)
    ensures equal <==> old_ == packed
  {
    packed := PackIntoWitness(bits);
    var equalities := [];
    for i := 0 to |packed|
      invariant |equalities| == i
      invariant forall k :: 0 <= k < i ==> equalities[k] == (old_[k] == packed[k])
    {
      equalities := equalities + [old_[i] == packed[i]];
    }
    equal := MultiAnd(equalities);
  }

  /** `select_pubdata_chunk`: scans the chunks and keeps the one whose number matches. The value it starts
      from is allocated without a constraint. */
  method SelectPubdataChunk(bits: seq<bool>, chunk: nat, totalChunks: nat, pastEnd: nat) returns (result: nat)
    requires |bits| == totalChunks * CHUNK_WIDTH
    ensures result == PubdataChunk(bits, chunk, pastEnd)
  {
    result := pastEnd;
    for i := 0 to totalChunks
      invariant result == if chunk < i then FromLE(ChunkOf(bits, chunk)) else pastEnd
    {
      assert (i + 1) * CHUNK_WIDTH <= totalChunks * CHUNK_WIDTH;
      var current := PackBitsToElement(bits[i * CHUNK_WIDTH..(i + 1) * CHUNK_WIDTH]);
      if i == chunk {
        result := current;
      }
    }
  }

  lemma {:induction false} FromLEZero(bits: seq<bool>)
    ensures FromLE(bits) == 0 <==> forall i :: 0 <= i < |bits| ==> !bits[i]
  {
    if bits != [] {
      FromLEZero(bits[1..]);
      assert forall i :: 1 <= i < |bits| ==> bits[i] == bits[1..][i - 1];
    }
  }

  predicate NoneSet(bits: seq<bool>) {
    forall i :: 0 <= i < |bits| ==> !bits[i]
  }

  predicate AllZero(words: seq<nat>) {
    forall i :: 0 <= i < |words| ==> words[i] == 0
  }

  lemma {:induction false} NoneSetConcat(x: seq<bool>, y: seq<bool>)
    ensures NoneSet(x + y) <==> NoneSet(x) && NoneSet(y)
  {
    assert forall i :: 0 <= i < |x| ==> (x + y)[i] == x[i];
    assert forall i :: 0 <= i < |y| ==> (x + y)[|x| + i] == y[i];
  }

  lemma {:induction false} AllZeroCons(w: nat, ws: seq<nat>)
    ensures AllZero([w] + ws) <==> w == 0 && AllZero(ws)
  {
    assert ([w] + ws)[0] == w;
    assert forall i :: 0 <= i < |ws| ==> ([w] + ws)[1 + i] == ws[i];
  }

  /** The words of a packed bit string are all zero exactly when the bits are. */
  lemma {:induction false} MultiPackZero(bits: seq<bool>)
    ensures AllZero(MultiPack(bits)) <==> NoneSet(bits)
    decreases |bits|
  {
    if bits == [] {
    } else if |bits| <= CAPACITY {
      FromLEZero(bits);
      assert MultiPack(bits)[0] == FromLE(bits);
    } else {
      var head, tail := bits[..CAPACITY], bits[CAPACITY..];
      FromLEZero(head);
      MultiPackZero(tail);
      AllZeroCons(FromLE(head), MultiPack(tail));
      NoneSetConcat(head, tail);
      assert bits == head + tail;
    }
  }

  lemma {:induction false} NumberZero(n: nat, width: nat)
    requires n < Pow2(width)
    ensures n == 0 <==> NoneSet(BitsLE(n, width))
  {
    FromLEOfBits(n, width);
    FromLEZero(BitsLE(n, width));
  }

  /** The emptiness test of `allocate_account_leaf_bits`: all words of the packed account are zero. */
  method IsAccountEmpty(b: Branch) returns (empty: bool)
    requires BranchAllocated(b)
    ensures empty == IsEmpty(b)
  {
    hide IsEmpty, AccountData, MultiPack, BranchAllocated;
    var words := PackIntoWitness(AccountData(b));
    var wordsEmpty := [];
    for i := 0 to |words|
      invariant |wordsEmpty| == i && forall k :: 0 <= k < i ==> wordsEmpty[k] == (words[k] == 0)
    {
      wordsEmpty := wordsEmpty + [words[i] == 0];
    }
    empty := MultiAnd(wordsEmpty);
    AccountDataZero(b);
  }

  /** Nonce, key hash and address, lowest bit first, as they are packed for the emptiness test. */
  function AccountData(b: Branch): seq<bool> {
    BitsLE(b.nonce, NONCE_WIDTH) + BitsLE(b.pubKeyHash, ADDRESS_WIDTH) + BitsLE(b.address, ADDRESS_WIDTH)
  }

  lemma {:induction false} AccountDataZero(b: Branch)
    requires BranchAllocated(b)
    ensures AllZero(MultiPack(AccountData(b))) <==> IsEmpty(b)
  {
    Widths();
    MultiPackZero(AccountData(b));
    NumberZero(b.nonce, NONCE_WIDTH);
    NumberZero(b.pubKeyHash, ADDRESS_WIDTH);
    NumberZero(b.address, ADDRESS_WIDTH);
    NoneSetConcat(BitsLE(b.nonce, NONCE_WIDTH), BitsLE(b.pubKeyHash, ADDRESS_WIDTH));
    NoneSetConcat(BitsLE(b.nonce, NONCE_WIDTH) + BitsLE(b.pubKeyHash, ADDRESS_WIDTH), BitsLE(b.address, ADDRESS_WIDTH));
  }
}
