/** Symbolic hashing and the two Merkle trees of the rollup.

    The Rescue hash is modelled as a free constructor, so it is injective by construction. A value
    of type `Digest` is any field element a prover may put on an audit path: either a hash output
    of a known shape or some other element (`Raw`). */
module Merkle {
  import opened Bits

  datatype Digest =
    | Raw(element: nat)
    | BalanceLeaf(balance: nat)
    | AccountLeaf(nonce: nat, pubKeyHash: nat, address: nat, stateRoot: Digest)
    | Node(left: Digest, right: Digest)

  /** The bit of `index` that decides the side at height `level`. */
  predicate Right(index: nat, level: nat) {
    (index / Pow2(level)) % 2 == 1
  }

  function HashPair(right: bool, cur: Digest, sibling: Digest): Digest {
    if right then Node(sibling, cur) else Node(cur, sibling)
  }

  /** The root that an audit path of height `depth` claims for `leaf` at `index`. */
  function PathRoot(leaf: Digest, index: nat, path: seq<Digest>, depth: nat): Digest
    requires depth <= |path|
  {
    if depth == 0 then leaf
    else HashPair(Right(index, depth - 1), PathRoot(leaf, index, path, depth - 1), path[depth - 1])
  }

  /** The root of the full tree of height `depth` over the given leaves. */
  function Root(leaves: seq<Digest>, depth: nat): Digest
    requires |leaves| == Pow2(depth)
  {
    if depth == 0 then leaves[0]
    else
      var half := Pow2(depth - 1);
      Node(Root(leaves[..half], depth - 1), Root(leaves[half..], depth - 1))
  }

  /** The siblings met on the way from leaf `index` to the root. */
  function AuditPath(leaves: seq<Digest>, index: nat, depth: nat): (path: seq<Digest>)
    requires |leaves| == Pow2(depth)
    ensures |path| == depth
  {
    if depth == 0 then []
    else
      var half := Pow2(depth - 1);
      if Right(index, depth - 1)
      then AuditPath(leaves[half..], index, depth - 1) + [Root(leaves[..half], depth - 1)]
      else AuditPath(leaves[..half], index, depth - 1) + [Root(leaves[half..], depth - 1)]
  }

  lemma {:induction false} IndexSplit(index: nat, depth: nat)
    requires depth > 0
    ensures index % Pow2(depth) == (if Right(index, depth - 1) then Pow2(depth - 1) else 0) + index % Pow2(depth - 1)
    ensures index % Pow2(depth - 1) < Pow2(depth - 1)
  {
    var h := Pow2(depth - 1);
    var q := index / h;
    var b := q % 2;
    assert index == h * q + index % h;
    assert h * (2 * (q / 2) + b) == (h * 2) * (q / 2) + h * b by { MulDistributes(h, 2, q / 2, b); }
    assert b == 0 || b == 1;
    QuotientUnique(index, 2 * h, q / 2, h * b + index % h);
  }

  /** A path depends only on the levels it uses. */
  lemma {:induction false} PathRootPrefix(leaf: Digest, index: nat, p: seq<Digest>, q: seq<Digest>, depth: nat)
    requires depth <= |p| && depth <= |q| && p[..depth] == q[..depth]
    ensures PathRoot(leaf, index, p, depth) == PathRoot(leaf, index, q, depth)
  {
    if depth > 0 {
      assert p[..depth - 1] == p[..depth][..depth - 1] == q[..depth - 1];
      assert p[depth - 1] == p[..depth][depth - 1] == q[depth - 1];
      PathRootPrefix(leaf, index, p, q, depth - 1);
    }
  }

  /** Soundness of an audit path: if it leads to the root of a tree, then the leaf it starts from is
      the tree's leaf at that index (only the low `depth` bits of the index matter), and the same
      path leads from any other leaf to the root of the tree with that leaf replaced. */
  lemma {:induction false} PathRootSound(leaf: Digest, index: nat, path: seq<Digest>, depth: nat, leaves: seq<Digest>)
    requires depth <= |path| && |leaves| == Pow2(depth)
    requires PathRoot(leaf, index, path, depth) == Root(leaves, depth)
    ensures leaves[index % Pow2(depth)] == leaf
    ensures forall other: Digest ::
              PathRoot(other, index, path, depth) == Root(leaves[index % Pow2(depth) := other], depth)
  {
    if depth == 0 {
      forall other: Digest
        ensures PathRoot(other, index, path, depth) == Root(leaves[0 := other], depth) {}
    } else {
      var half := Pow2(depth - 1);
      var i := index % half;
      IndexSplit(index, depth);
      if Right(index, depth - 1) {
        PathRootSound(leaf, index, path, depth - 1, leaves[half..]);
        forall other: Digest
          ensures PathRoot(other, index, path, depth) == Root(leaves[half + i := other], depth)
        {
          var updated := leaves[half + i := other];
          assert updated[..half] == leaves[..half] && updated[half..] == leaves[half..][i := other];
        }
      } else {
        PathRootSound(leaf, index, path, depth - 1, leaves[..half]);
        forall other: Digest
          ensures PathRoot(other, index, path, depth) == Root(leaves[i := other], depth)
        {
          var updated := leaves[i := other];
          assert updated[..half] == leaves[..half][i := other] && updated[half..] == leaves[half..];
        }
      }
    }
  }

  /** Completeness: the siblings of a leaf do lead to the root. */
  lemma {:induction false} AuditPathLeadsToRoot(leaves: seq<Digest>, index: nat, depth: nat)
    requires |leaves| == Pow2(depth)
    ensures PathRoot(leaves[index % Pow2(depth)], index, AuditPath(leaves, index, depth), depth) == Root(leaves, depth)
  {
    if depth > 0 {
      var half := Pow2(depth - 1);
      IndexSplit(index, depth);
      var path := AuditPath(leaves, index, depth);
      var part := if Right(index, depth - 1) then leaves[half..] else leaves[..half];
      AuditPathLeadsToRoot(part, index, depth - 1);
      var leaf := part[index % half];
      assert path[..depth - 1] == AuditPath(part, index, depth - 1);
      PathRootPrefix(leaf, index, path, AuditPath(part, index, depth - 1), depth - 1);
    }
  }

  /** Two trees of one height with the same root have the same leaves. */
  lemma {:induction false} RootInjective(x: seq<Digest>, y: seq<Digest>, depth: nat)
    requires |x| == |y| == Pow2(depth) && Root(x, depth) == Root(y, depth)
    ensures x == y
  {
    if depth == 0 {
      assert x == [x[0]] && y == [y[0]];
    } else {
      var half := Pow2(depth - 1);
      RootInjective(x[..half], y[..half], depth - 1);
      RootInjective(x[half..], y[half..], depth - 1);
      assert x == x[..half] + x[half..] && y == y[..half] + y[half..];
    }
  }

  // ----- the ascent of an audit path, level by level

  /** `allocate_merkle_root` after the leaf is hashed: only the first `depth` bits of the index and
      the first `depth` elements of the path are used. */
  method AllocateMerkleRoot(leaf: Digest, index: seq<bool>, path: seq<Digest>, depth: nat) returns (root: Digest)
    requires depth <= |index| && depth <= |path|
    ensures root == PathRoot(leaf, FromLE(index), path, depth)
  {
    root := leaf;
    for i := 0 to depth
      invariant root == PathRoot(leaf, FromLE(index), path, i)
    {
      BitOfNumber(index, i);
      root := HashPair(index[i], root, path[i]);
    }
  }

  lemma {:induction false} BitOfNumber(bits: seq<bool>, i: nat)
    requires i < |bits|
    ensures bits[i] <==> Right(FromLE(bits), i)
  {
    var n := FromLE(bits);
    if i == 0 {
    } else {
      BitOfNumber(bits[1..], i - 1);
      assert n / 2 == FromLE(bits[1..]);
      DivDiv(n, 2, Pow2(i - 1));
    }
  }

  // ----- trees whose right part is empty

  function Repeat<T>(x: T, n: nat): (s: seq<T>)
    ensures |s| == n && forall i :: 0 <= i < n ==> s[i] == x
  {
    seq(n, _ => x)
  }

  /** The root of the tree of height `depth` with the same leaf everywhere. */
  function EmptyRoot(leaf: Digest, depth: nat): Digest {
    if depth == 0 then leaf else Node(EmptyRoot(leaf, depth - 1), EmptyRoot(leaf, depth - 1))
  }

  lemma {:induction false} EmptyRootIsRoot(leaf: Digest, depth: nat)
    ensures Root(Repeat(leaf, Pow2(depth)), depth) == EmptyRoot(leaf, depth)
  {
    if depth > 0 {
      var half := Pow2(depth - 1);
      var leaves := Repeat(leaf, Pow2(depth));
      assert leaves[..half] == Repeat(leaf, half) && leaves[half..] == Repeat(leaf, half);
      EmptyRootIsRoot(leaf, depth - 1);
    }
  }

  /** Hashing a subtree root with the empty sibling of each level from `level` up to `depth`. */
  function ContinueLeftmost(subroot: Digest, empty: Digest, level: nat, depth: nat): Digest
    requires level <= depth
    decreases depth - level
  {
    if level == depth then subroot
    else ContinueLeftmost(Node(subroot, EmptyRoot(empty, level)), empty, level + 1, depth)
  }

  /** Continuing a leftmost subroot computes the root of the full tree with an empty right part. */
  lemma {:induction false} ContinueLeftmostIsRoot(leaves: seq<Digest>, empty: Digest, level: nat, depth: nat)
    requires level <= depth && |leaves| == Pow2(level)
    ensures Pow2(level) <= Pow2(depth)
    ensures ContinueLeftmost(Root(leaves, level), empty, level, depth)
         == Root(leaves + Repeat(empty, Pow2(depth) - Pow2(level)), depth)
    decreases depth - level
  {
    Pow2Monotonic(level, depth);
    if level == depth {
      assert leaves + Repeat(empty, 0) == leaves;
    } else {
      var half := Pow2(level);
      var wider := leaves + Repeat(empty, half);
      EmptyRootIsRoot(empty, level);
      assert wider[..half] == leaves && wider[half..] == Repeat(empty, half);
      ContinueLeftmostIsRoot(wider, empty, level + 1, depth);
      assert wider + Repeat(empty, Pow2(depth) - 2 * half) == leaves + Repeat(empty, Pow2(depth) - half);
    }
  }

  lemma {:induction false} ContinueLeftmostInjective(x: Digest, y: Digest, empty: Digest, level: nat, depth: nat)
    requires level <= depth
    requires ContinueLeftmost(x, empty, level, depth) == ContinueLeftmost(y, empty, level, depth)
    ensures x == y
    decreases depth - level
  {
    if level < depth {
      ContinueLeftmostInjective(Node(x, EmptyRoot(empty, level)), Node(y, EmptyRoot(empty, level)), empty, level + 1, depth);
    }
  }

  /** `calculate_empty_tree_hashes`: entry `k` is the root of the empty tree of height `k + 1`. */
  method EmptyTreeHashes(leaf: Digest, depth: nat) returns (hashes: seq<Digest>)
    ensures |hashes| == depth
    ensures forall k :: 0 <= k < depth ==> hashes[k] == EmptyRoot(leaf, k + 1)
  {
    var current := leaf;
    hashes := [];
    for i := 0 to depth
      invariant |hashes| == i && current == EmptyRoot(leaf, i)
      invariant forall k :: 0 <= k < i ==> hashes[k] == EmptyRoot(leaf, k + 1)
    {
      current := Node(current, current);
      hashes := hashes + [current];
    }
  }

  /** `continue_leftmost_subroot_to_root`: the table is read one level below the current one, which
      needs a subroot strictly above the leaves. */
  method ContinueLeftmostSubroot(subroot: Digest, empty: Digest, level: nat, depth: nat) returns (root: Digest)
    requires 0 < level <= depth
    ensures root == ContinueLeftmost(subroot, empty, level, depth)
  {
    var hashes := EmptyTreeHashes(empty, depth);
    root := subroot;
    for i := level to depth
      invariant ContinueLeftmost(root, empty, i, depth) == ContinueLeftmost(subroot, empty, level, depth)
    {
      root := Node(root, hashes[i - 1]);
    }
  }

  /** One round of pairwise hashing. */
  function PairUp(row: seq<Digest>): (next: seq<Digest>)
    requires |row| % 2 == 0
    ensures |next| == |row| / 2
    ensures forall i :: 0 <= i < |next| ==> next[i] == Node(row[2 * i], row[2 * i + 1])
  {
    seq(|row| / 2, i requires 0 <= i < |row| / 2 => Node(row[2 * i], row[2 * i + 1]))
  }

  /** Hashing a row pairwise does not change its root. */
  lemma {:induction false} PairUpHalves(row: seq<Digest>, quarter: nat)
    requires |row| == 4 * quarter
    ensures PairUp(row)[..quarter] == PairUp(row[..2 * quarter]) && PairUp(row)[quarter..] == PairUp(row[2 * quarter..])
  {
  }

  lemma {:induction false} PairUpRoot(row: seq<Digest>, depth: nat)
    requires |row| == Pow2(depth + 1)
    ensures |PairUp(row)| == Pow2(depth)
    ensures Root(PairUp(row), depth) == Root(row, depth + 1)
  {
    var next := PairUp(row);
    if depth == 0 {
      assert Root(row[..1], 0) == row[0] && Root(row[1..], 0) == row[1];
    } else {
      var half, quarter := Pow2(depth), Pow2(depth - 1);
      PairUpRoot(row[..half], depth - 1);
      PairUpRoot(row[half..], depth - 1);
      assert Pow2(depth + 1) == 2 * half && half == 2 * quarter;
      PairUpHalves(row, quarter);
      assert Root(row, depth + 1) == Node(Root(row[..half], depth), Root(row[half..], depth));
      assert Root(next, depth) == Node(Root(next[..quarter], depth - 1), Root(next[quarter..], depth - 1));
      hide Root;
    }
  }

  /** One row of hashes from the row below. */
  method HashRow(row: seq<Digest>) returns (next: seq<Digest>)
    requires |row| % 2 == 0
    ensures next == PairUp(row)
  {
    next := [];
    var k := 0;
    while k < |row|
      invariant k % 2 == 0 && k <= |row|
      invariant next == PairUp(row)[..k / 2]
    {
      next := next + [Node(row[k], row[k + 1])];
      k := k + 2;
    }
  }

  /** The pairwise part of `calculate_balances_root_from_left_tree_values`. */
  method HashPairwise(leaves: seq<Digest>, depth: nat) returns (root: Digest)
    requires |leaves| == Pow2(depth)
    ensures root == Root(leaves, depth)
  {
    var row := leaves;
    for i := 0 to depth
      invariant |row| == Pow2(depth - i)
      invariant Root(row, depth - i) == Root(leaves, depth)
    {
      PairUpRoot(row, depth - i - 1);
      hide Root;
      row := HashRow(row);
    }
    root := row[0];
  }

  /** `calculate_balances_root_from_left_tree_values`: pairwise hashing of the left leaves and then
      one empty sibling per level gives the root of the full tree. */
  method LeftTreeRoot(leaves: seq<Digest>, empty: Digest, level: nat, depth: nat) returns (root: Digest)
    requires 0 < level <= depth && |leaves| == Pow2(level)
    ensures Pow2(level) <= Pow2(depth)
    ensures root == Root(leaves + Repeat(empty, Pow2(depth) - Pow2(level)), depth)
  {
    var left := HashPairwise(leaves, level);
    root := ContinueLeftmostSubroot(left, empty, level, depth);
    ContinueLeftmostIsRoot(leaves, empty, level, depth);
  }
}
