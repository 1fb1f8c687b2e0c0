/** The chunks of an accepted block split into complete operations.

    The circuit checks chunk numbers one at a time and compares published data only with the chunk
    before. A no-op has no such comparison, so it passes its own chunk at any chunk number; that no
    accepted block contains one inside an operation follows only from the check on the very last
    chunk. */
module Grammar {
  import opened Bits
  import opened Params
  import opened PrimeField
  import opened Witness
  import opened Gadgets
  import opened BlockSpec

  predicate Publishes(gadget: nat) {
    IsGadget(gadget) && gadget != NOOP
  }

  lemma {:induction false} FieldsFit(gadget: nat, op: Operation)
    requires Allocated(op)
    ensures Fit(PubdataFields(gadget, op))
  {
    hide Pow2;
    Widths();
  }

  lemma {:induction false} FieldsHaveShape(gadget: nat, p: Operation, q: Operation)
    ensures SameWidths(PubdataFields(gadget, p), PubdataFields(gadget, q))
  {
    hide Width;
  }

  /** Equal published bits mean equal published fields. */
  lemma {:induction false} PubdataDeterminesFields(gadget: nat, p: Operation, q: Operation)
    requires Allocated(p) && Allocated(q) && Pubdata(gadget, p) == Pubdata(gadget, q)
    ensures PubdataFields(gadget, p) == PubdataFields(gadget, q)
  {
    hide PubdataFields, Encode, Allocated;
    var fs, gs := PubdataFields(gadget, p), PubdataFields(gadget, q);
    FieldsFit(gadget, p);
    FieldsFit(gadget, q);
    FieldsHaveShape(gadget, p, q);
    var size := Chunks(gadget) * CHUNK_WIDTH;
    EncodeInjective(fs, gs, seq(size - |Encode(fs)|, _ => false), seq(size - |Encode(gs)|, _ => false));
  }

  /** A valid later chunk repeats the published data of the chunk before it. */
  lemma {:induction false} LaterChunkCopies(st: State, p: Operation, q: Operation)
    requires Accepts(st, p) && Accepts(Next(st, p), q) && q.chunk != 0 && q.txType != NOOP
    ensures Pubdata(q.txType, q) == Pubdata(q.txType, p)
    ensures PubdataFields(q.txType, q) == PubdataFields(q.txType, p)
    ensures q.txType == p.txType
    ensures q.args.SameAs(p.args)
  {
    var t := q.txType;
    assert Copied(t, q, NewHolders(p)[t]) by { ValidCopies(q, Select(q), NewHolders(p)[t]); }
    MultiPackInjective(Pubdata(t, q), Pubdata(t, p));
    PubdataDeterminesFields(t, q, p);
    assert PubdataFields(t, q)[0] == F(q.txType, TX_TYPE_WIDTH);
    assert PubdataFields(t, p)[0] == F(p.txType, TX_TYPE_WIDTH);
  }

  lemma {:induction false} ValidCopies(op: Operation, cur: Branch, holder: seq<nat>)
    requires Publishes(op.txType) && Gadgets.Valid(op, cur, holder)
    ensures Copied(op.txType, op, holder) && ChunkPublished(op.txType, op)
  {
  }

  /** One complete operation: its chunks are numbered from zero, have one type and one set of
      arguments, and publish the same data. */
  predicate IsOperation(ops: seq<Operation>) {
    && ops != []
    && var t := ops[0].txType;
       && IsGadget(t) && |ops| == Chunks(t)
       && forall j :: 0 <= j < |ops| ==>
            && ops[j].txType == t && ops[j].chunk == j
            && ops[j].args.SameAs(ops[0].args)
            && Pubdata(t, ops[j]) == Pubdata(t, ops[0])
  }

  predicate IsBlock(ops: seq<Operation>)
    decreases |ops|
  {
    ops == [] ||
    (var n := Chunks(ops[0].txType);
     n <= |ops| && IsOperation(ops[..n]) && IsBlock(ops[n..]))
  }

  /** Once a no-op stands inside an operation, only no-ops can follow and the block never ends with a
      last chunk. */
  lemma {:induction false} NoopInsideIsStuck(st: State, ops: seq<Operation>)
    requires AcceptsAll(st, ops) && ops != []
    requires ops[0].txType == NOOP && ops[0].chunk > 0 && ops[0].chunk + |ops| < P
    ensures !Run(st, ops).lastChunk
    decreases |ops|
  {
    var st' := Next(st, ops[0]);
    assert !st'.lastChunk && st'.nextChunk == ops[0].chunk + 1;
    if |ops| > 1 {
      var q := ops[1];
      assert ops[1..][0] == q && Accepts(st', q);
      if q.txType != NOOP {
        LaterChunkCopies(st, ops[0], q);
        assert false;
      }
      NoopInsideIsStuck(st', ops[1..]);
    } else {
      assert ops[1..] == [];
    }
  }

  /** The states met inside a run. */
  function StateAt(st: State, ops: seq<Operation>, n: nat): State
    requires n <= |ops| && AcceptsAll(st, ops)
    decreases n
  {
    if n == 0 then st else StateAt(Next(st, ops[0]), ops[1..], n - 1)
  }

  lemma {:induction false} RunSplit(st: State, ops: seq<Operation>, n: nat)
    requires n <= |ops| && AcceptsAll(st, ops)
    ensures AcceptsAll(st, ops[..n]) && Run(st, ops[..n]) == StateAt(st, ops, n)
    ensures AcceptsAll(StateAt(st, ops, n), ops[n..])
    ensures Run(StateAt(st, ops, n), ops[n..]) == Run(st, ops)
    decreases n
  {
    hide Accepts, Next;
    if n == 0 {
      assert ops[..0] == [] && ops[0..] == ops;
    } else {
      RunSplit(Next(st, ops[0]), ops[1..], n - 1);
      assert ops[..n][0] == ops[0] && ops[..n][1..] == ops[1..][..n - 1];
      assert ops[n..] == ops[1..][n - 1..];
    }
  }

  lemma {:induction false} StateAtStep(st: State, ops: seq<Operation>, n: nat)
    requires n < |ops| && AcceptsAll(st, ops)
    ensures Accepts(StateAt(st, ops, n), ops[n])
    ensures StateAt(st, ops, n + 1) == Next(StateAt(st, ops, n), ops[n])
    decreases n
  {
    hide Accepts, Next;
    if n > 0 {
      StateAtStep(Next(st, ops[0]), ops[1..], n - 1);
    }
  }

  /** From the first chunk of an operation on, an accepted run that ends with a last chunk goes
      through the whole operation. */
  lemma {:induction false} OperationCompletes(st: State, ops: seq<Operation>, k: nat)
    requires AcceptsAll(st, ops) && Run(st, ops).lastChunk && ops != [] && |ops| < 0x1_0000_0000_0000_0000
    requires ops[0].chunk == 0 && k < Chunks(ops[0].txType)
    ensures IsGadget(ops[0].txType) && k < |ops|
    ensures ops[k].txType == ops[0].txType && ops[k].chunk == k && ops[k].args.SameAs(ops[0].args)
    ensures Pubdata(ops[0].txType, ops[k]) == Pubdata(ops[0].txType, ops[0])
    decreases k
  {
    hide Pubdata, Accepts, Next, PubdataFields;
    if k == 0 {
      FirstIsGadget(st, ops[0]);
    } else {
      OperationCompletes(st, ops, k - 1);
      RunSplit(st, ops, k - 1);
      StateAtStep(st, ops, k - 1);
      var prev, p := StateAt(st, ops, k - 1), ops[k - 1];
      InnerChunk(prev, p);
      assert ops[k - 1..][0] == p && ops[k - 1..][1..] == ops[k..];
      if k == |ops| { assert false; }
      StateAtStep(st, ops, k);
      var q := ops[k];
      FirstIsGadget(StateAt(st, ops, k), q);
      if q.txType == NOOP {
        RunSplit(st, ops, k);
        assert ops[k..][0] == q;
        NoopInsideIsStuck(StateAt(st, ops, k), ops[k..]);
        assert false;
      }
      LaterChunkCopies(prev, p, q);
    }
  }

  lemma {:induction false} FirstIsGadget(st: State, op: Operation)
    requires Accepts(st, op)
    ensures IsGadget(op.txType) && op.chunk == st.nextChunk
  {
  }

  lemma {:induction false} InnerChunk(st: State, op: Operation)
    requires Accepts(st, op) && op.chunk + 1 < P
    ensures Next(st, op).lastChunk == IsLast(op)
    ensures Next(st, op).nextChunk == if IsLast(op) then 0 else op.chunk + 1
  {
  }

  lemma {:induction false} FirstOperation(st: State, ops: seq<Operation>)
    requires AcceptsAll(st, ops) && Run(st, ops).lastChunk && ops != [] && |ops| < 0x1_0000_0000_0000_0000
    requires ops[0].chunk == 0
    ensures Chunks(ops[0].txType) <= |ops| && IsOperation(ops[..Chunks(ops[0].txType)])
    ensures StateAt(st, ops, Chunks(ops[0].txType)).nextChunk == 0
  {
    hide Pubdata, Accepts, Next;
    var n := Chunks(ops[0].txType);
    OperationCompletes(st, ops, n - 1);
    forall j | 0 <= j < n
      ensures ops[j].txType == ops[0].txType && ops[j].chunk == j && ops[j].args.SameAs(ops[0].args)
      ensures Pubdata(ops[0].txType, ops[j]) == Pubdata(ops[0].txType, ops[0])
    {
      OperationCompletes(st, ops, j);
    }
    StateAtStep(st, ops, n - 1);
    InnerChunk(StateAt(st, ops, n - 1), ops[n - 1]);
  }

  /** Every accepted run that starts between operations and ends with a last chunk is a sequence of
      complete operations. */
  lemma {:induction false} AcceptedChunksAreOperations(st: State, ops: seq<Operation>)
    requires AcceptsAll(st, ops) && st.nextChunk == 0 && |ops| < 0x1_0000_0000_0000_0000
    requires ops == [] || Run(st, ops).lastChunk
    ensures IsBlock(ops)
    decreases |ops|
  {
    if ops != [] {
      hide Accepts, Next, IsOperation;
      var n := Chunks(ops[0].txType);
      FirstIsGadget(st, ops[0]);
      FirstOperation(st, ops);
      RunSplit(st, ops, n);
      AcceptedChunksAreOperations(StateAt(st, ops, n), ops[n..]);
    }
  }

  /** The chunk grammar of a whole block. */
  lemma {:induction false} AcceptedBlockIsWellFormed(block: Block, commitment: Commitment)
    requires BlockAccepted(block, commitment) && |block.ops| < 0x1_0000_0000_0000_0000
    ensures IsBlock(block.ops) && block.ops != []
  {
    AcceptedChunksAreOperations(Initial(block.initialSubroot), block.ops);
  }

  /** A no-op on the branch that was just written, publishing the given chunk. */
  function NoopAfter(st: State, p: Operation, data: nat): Operation {
    p.(txType := NOOP, chunk := p.chunk + 1, pubdataChunk := data, pastEnd := data, lhs := After(st, p), rhs := After(st, p))
  }

  /** Some no-op that publishes this chunk is accepted next. */
  ghost predicate NoopFollows(st: State, p: Operation, data: nat)
    requires Accepts(st, p)
  {
    exists q: Operation :: q.txType == NOOP && q.pubdataChunk == data && Accepts(Next(st, p), q)
  }

  /** The flag of a no-op alone does not exclude it from the middle of an operation: after an inner chunk
      a no-op with any published chunk is accepted if and only if the operation carries no fee. */
  lemma {:induction false} NoopPassesInsideAnOperation(st: State, p: Operation, data: nat)
    requires Accepts(st, p) && !IsLast(p) && p.chunk + 1 < P && data < 0x100_0000_0000_0000_0000
    ensures NoopFollows(st, p, data) <==> p.args.Fee() == 0
  {
    if p.args.Fee() == 0 {
      NoopIsAccepted(st, p, data);
    }
    if NoopFollows(st, p, data) {
      var q: Operation :| q.txType == NOOP && q.pubdataChunk == data && Accepts(Next(st, p), q);
      FollowingNoopIsFree(st, p, q);
    }
  }

  lemma {:induction false} NoopIsAccepted(st: State, p: Operation, data: nat)
    requires Accepts(st, p) && !IsLast(p) && p.args.Fee() == 0 && p.chunk + 1 < P && data < 0x100_0000_0000_0000_0000
    ensures Accepts(Next(st, p), NoopAfter(st, p, data))
    ensures NoopAfter(st, p, data).txType == NOOP && NoopAfter(st, p, data).pubdataChunk == data
  {
    hide BranchRoot, Pubdata, MultiPack, PubdataFields, MessageParts, Geq;
    var q, st' := NoopAfter(st, p, data), Next(st, p);
    AfterAllocated(st, p);
    assert Opens(st', q);
    assert After(st', q) == Select(q);
  }

  lemma {:induction false} FollowingNoopIsFree(st: State, p: Operation, q: Operation)
    requires Accepts(st, p) && !IsLast(p) && p.chunk + 1 < P && q.txType == NOOP && Accepts(Next(st, p), q)
    ensures p.args.Fee() == 0
  {
    hide BranchRoot, Pubdata, MultiPack, PubdataFields, MessageParts, Geq, Unpack;
    assert q.chunk == p.chunk + 1 && q.args.SameAs(p.args);
  }

  lemma {:induction false} AfterAllocated(st: State, p: Operation)
    requires Accepts(st, p)
    ensures BranchAllocated(After(st, p)) && After(st, p).token == p.lhs.token == p.rhs.token
  {
    hide PublishedAs, MessageSigned, BranchRoot, Unpack, FSub, FAdd;
  }
}
