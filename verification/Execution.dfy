/** From chunks to operations: the chunks of an accepted block execute plain ledger operations, collect
    exactly their fees, and publish exactly their data. */
module Execution {
  import opened Bits
  import opened Common
  import opened Merkle
  import opened Params
  import opened PrimeField
  import opened Witness
  import opened Gadgets
  import opened BlockSpec
  import opened Grammar
  import opened Ledger
  import opened Transactions

  /** Writing back what a branch shows changes nothing. */
  lemma {:induction false} WriteShown(ledger: Accounts, b: Branch)
    requires Good(ledger) && b.token < TOKENS && Shows(b, ledger)
    ensures Write(ledger, b) == ledger
  {
    var a := ledger[Slot(b.accountId)];
    assert a.balances[b.token := b.balance] == a.balances;
  }

  lemma {:induction false} TokenIsProcessable(st: State, op: Operation)
    requires Accepts(st, op)
    ensures op.lhs.token == op.rhs.token <= PROCESSABLE_TOKENS
    ensures op.args.b <= op.args.a
  {
    hide Gadgets.Valid, After, BranchRoot, Unpack;
    SubtractionDidNotWrap(op.args.a, op.args.b);
  }

  lemma {:induction false} TxIsGood(st: State, op: Operation)
    requires Accepts(st, op)
    ensures GoodTx(TxOf(op))
  {
    hide Gadgets.Valid, After, BranchRoot, Unpack;
    TokenIsProcessable(st, op);
  }

  /** The account a branch shows after it was updated. */
  lemma {:induction false} FirstUpdate(st: State, op: Operation, a: Account)
    requires Accepts(st, op) && First(op) && GoodAccount(a)
    requires var b := op.lhs;
             b.nonce == a.nonce && b.pubKeyHash == a.pubKeyHash && b.address == a.address && b.balance == a.balances[b.token]
    ensures GoodTx(TxOf(op)) && FirstAllowed(TxOf(op), a)
    ensures Written(After(st, op), a) == FirstEffect(TxOf(op), a)
  {
    hide PublishedAs, MessageSigned, Unpack, BranchRoot, PartsAllocated, Pow2;
    TxIsGood(st, op);
    TokenIsProcessable(st, op);
    assert a.balances[op.lhs.token := a.balances[op.lhs.token]] == a.balances;
  }

  lemma {:induction false} FirstChunk(ledger: Accounts, st: State, op: Operation)
    requires Good(ledger) && Accepts(st, op) && First(op) && st.root == LedgerRoot(ledger)
    ensures FirstOk(TxOf(op), ledger) && ChunkWrite(ledger, st, op) == AfterFirst(TxOf(op), ledger)
  {
    hide Accepts, After, LedgerRoot, FirstAllowed, FirstEffect, GoodTx, TxOf, FirstAccount, Next, GoodAccount;
    ChunkIsLedgerStep(ledger, st, op);
    FirstUpdate(st, op, ledger[Slot(op.lhs.accountId)]);
    FirstAccountIsLeft(st, op);
    if op.txType == NOOP || op.txType == CLOSE {
      WriteShown(ledger, op.lhs);
      NoopChangesNothing(st, op);
    }
  }

  lemma {:induction false} NoopChangesNothing(st: State, op: Operation)
    requires Accepts(st, op) && First(op) && (op.txType == NOOP || op.txType == CLOSE)
    ensures After(st, op) == op.lhs && TxOf(op) == Noop
    ensures forall a :: GoodAccount(a) ==> GoodTx(Noop) && FirstAllowed(Noop, a) && FirstEffect(Noop, a) == a
  {
  }

  lemma {:induction false} FirstAccountIsLeft(st: State, op: Operation)
    requires Accepts(st, op)
    ensures op.txType != NOOP && op.txType != CLOSE ==> FirstAccount(TxOf(op)) == op.lhs.accountId
  {
    hide Accepts;
    FirstIsGadget(st, op);
  }

  /** The second chunk of a two-sided operation whose first chunk was `first`. */
  lemma {:induction false} SecondUpdate(st: State, first: Operation, op: Operation, a: Account)
    requires Accepts(st, op) && op.chunk == 1 && op.txType == first.txType && TwoSided(TxOf(first)) && GoodAccount(a)
    requires GoodTx(TxOf(first)) && op.rhs.token == TxOf(first).token
    requires op.args.SameAs(first.args)
    requires var b := op.rhs;
             b.nonce == a.nonce && b.pubKeyHash == a.pubKeyHash && b.address == a.address && b.balance == a.balances[b.token]
    ensures SecondAllowed(TxOf(first), a) && Written(After(st, op), a) == SecondEffect(TxOf(first), a)
  {
    hide PublishedAs, MessageSigned, Unpack, BranchRoot;
  }

  /** Which published fields name the two accounts and the token. */
  lemma {:induction false} PublishedPlaces(first: Operation, op: Operation)
    requires first.txType == op.txType && TwoSided(TxOf(first))
    requires PubdataFields(op.txType, op) == PubdataFields(op.txType, first)
    ensures op.lhs.accountId == first.lhs.accountId && op.rhs.accountId == first.rhs.accountId
    ensures Select(op).token == Select(first).token
  {
    var fs, gs := PubdataFields(op.txType, op), PubdataFields(op.txType, first);
    assert fs[0] == gs[0] && fs[1] == gs[1] && fs[2] == gs[2] && fs[3] == gs[3] && fs[4] == gs[4] && fs[5] == gs[5];
  }

  lemma {:induction false} SecondChunk(ledger: Accounts, st: State, first: Operation, op: Operation)
    requires Good(ledger) && Accepts(st, op) && op.chunk == 1 && st.root == LedgerRoot(ledger)
    requires first.chunk == 0 && first.txType == op.txType && TwoSided(TxOf(first)) && GoodTx(TxOf(first))
    requires op.args.SameAs(first.args) && PubdataFields(op.txType, op) == PubdataFields(op.txType, first)
    ensures SecondAllowed(TxOf(first), ledger[Slot(SecondAccount(TxOf(first)))])
    ensures ChunkWrite(ledger, st, op)
         == ledger[Slot(SecondAccount(TxOf(first))) := SecondEffect(TxOf(first), ledger[Slot(SecondAccount(TxOf(first)))])]
  {
    hide Accepts, After, LedgerRoot, SecondAllowed, SecondEffect, GoodTx, PubdataFields, Next, GoodAccount;
    ChunkIsLedgerStep(ledger, st, op);
    TokenIsProcessable(st, op);
    PublishedPlaces(first, op);
    SecondUpdate(st, first, op, ledger[Slot(op.rhs.accountId)]);
  }

  /** Chunks that only publish. */
  predicate Quiet(op: Operation) {
    op.chunk > 1 || (op.chunk == 1 && op.txType !in {TRANSFER, TRANSFER_TO_NEW, FORCED_EXIT})
  }

  lemma {:induction false} QuietChunk(ledger: Accounts, st: State, op: Operation)
    requires Good(ledger) && Accepts(st, op) && Quiet(op) && st.root == LedgerRoot(ledger)
    ensures ChunkWrite(ledger, st, op) == ledger
  {
    hide LedgerRoot, Accepts, After, Next, Shows;
    ChunkIsLedgerStep(ledger, st, op);
    QuietUpdate(st, op);
    WriteShown(ledger, Select(op));
  }

  lemma {:induction false} QuietUpdate(st: State, op: Operation)
    requires Quiet(op)
    ensures After(st, op) == Select(op)
  {
  }

  /** The published bits of one accepted chunk are its part of the operation's data. */
  lemma {:induction false} ChunkPublishes(st: State, op: Operation)
    requires Accepts(st, op) && op.chunk < Chunks(op.txType)
    ensures BitsLE(op.pubdataChunk, CHUNK_WIDTH) == ChunkOf(Pubdata(op.txType, op), op.chunk)
  {
    hide Pubdata, MultiPack, BranchRoot, MessageParts, Encode;
    FirstIsGadget(st, op);
    var part := ChunkOf(Pubdata(op.txType, op), op.chunk);
    if op.txType == NOOP {
      NoopData(op);
      assert part == seq(CHUNK_WIDTH, _ => false);
      ZeroBits(CHUNK_WIDTH);
    } else {
      ValidCopies(op, Select(op), Holder(st, op.txType));
      BitsOfFromLE(part);
    }
  }

  lemma {:induction false} NoopData(op: Operation)
    ensures Pubdata(NOOP, op) == seq(CHUNK_WIDTH, _ => false)
  {
  }

  lemma {:induction false} ZeroBits(width: nat)
    ensures BitsLE(0, width) == seq(width, _ => false)
  {
    if width > 0 {
      ZeroBits(width - 1);
    }
  }

  /** What the ledger looks like after the first `n` chunks of an operation. */
  function Reached(tx: Tx, ledger: Accounts, n: nat): (r: Accounts)
    requires Good(ledger) && n > 0 && FirstOk(tx, ledger) && (n > 1 ==> CanExecute(tx, ledger))
    ensures Good(r)
  {
    if n == 1 then AfterFirst(tx, ledger) else Execute(tx, ledger)
  }

  predicate ReachedState(ledger: Accounts, st: State, ops: seq<Operation>, n: nat, s: State)
    requires Good(ledger) && IsOperation(ops) && 0 < n <= |ops|
  {
    var tx := TxOf(ops[0]);
    && FirstOk(tx, ledger) && (n > 1 ==> CanExecute(tx, ledger))
    && s.root == LedgerRoot(Reached(tx, ledger, n))
    && s.lastToken == ops[0].lhs.token
    && s.lastChunk == (n == |ops|)
    && s.nextChunk == (if n == |ops| then 0 else n)
    && s.fees == (if n == |ops| then CollectFee(st.fees, ops[0].lhs.token, ops[0].args.Fee()) else st.fees)
    && n * CHUNK_WIDTH <= |Pubdata(ops[0].txType, ops[0])|
    && s.published == st.published + Pubdata(ops[0].txType, ops[0])[..n * CHUNK_WIDTH]
  }

  lemma {:induction false} ClosedState(st: State, op: Operation)
    requires Accepts(st, op) && op.chunk + 1 < P
    ensures var s := Next(st, op);
            && s.lastToken == FeeToken(st, op) && s.lastChunk == IsLast(op)
            && s.nextChunk == (if IsLast(op) then 0 else op.chunk + 1)
            && s.fees == (if IsLast(op) then CollectFee(st.fees, FeeToken(st, op), op.args.Fee()) else st.fees)
            && s.published == st.published + BitsLE(op.pubdataChunk, CHUNK_WIDTH)
  {
  }

  lemma {:induction false} OneMoreChunk(bits: seq<bool>, n: nat)
    requires (n + 1) * CHUNK_WIDTH <= |bits|
    ensures bits[..n * CHUNK_WIDTH] + ChunkOf(bits, n) == bits[..(n + 1) * CHUNK_WIDTH]
  {
  }

  lemma {:induction false} FirstChunkReaches(ledger: Accounts, st: State, ops: seq<Operation>)
    requires Good(ledger) && IsOperation(ops) && Accepts(st, ops[0]) && st.root == LedgerRoot(ledger)
    ensures ReachedState(ledger, st, ops, 1, Next(st, ops[0]))
  {
    hide Accepts, Next, LedgerRoot, Pubdata, GoodTx, TxOf, FirstOk, AfterFirst, Good, BitsLE;
    var op := ops[0];
    FirstChunk(ledger, st, op);
    ChunkIsLedgerStep(ledger, st, op);
    ChunkPublishes(st, op);
    ClosedState(st, op);
    OneMoreChunk(Pubdata(op.txType, op), 0);
  }

  lemma {:induction false} NextChunkLedger(ledger: Accounts, st: State, first: Operation, op: Operation, n: nat)
    requires Good(ledger) && Accepts(st, op) && op.chunk == n > 0 && op.txType == first.txType && first.chunk == 0
    requires IsGadget(first.txType) && n < Chunks(first.txType)
    requires op.args.SameAs(first.args) && PubdataFields(op.txType, op) == PubdataFields(op.txType, first)
    requires var tx := TxOf(first); FirstOk(tx, ledger) && (n > 1 ==> CanExecute(tx, ledger))
    requires st.root == LedgerRoot(Reached(TxOf(first), ledger, n))
    ensures CanExecute(TxOf(first), ledger)
    ensures Next(st, op).root == LedgerRoot(Execute(TxOf(first), ledger))
  {
    hide Accepts, Next, LedgerRoot, PubdataFields, GoodTx, FirstAllowed, SecondAllowed, FirstEffect, SecondEffect, GoodAccount, ChunkWrite;
    var tx, now := TxOf(first), Reached(TxOf(first), ledger, n);
    ChunkIsLedgerStep(now, st, op);
    if n == 1 && TwoSided(tx) {
      SecondChunk(now, st, first, op);
    } else {
      assert !TwoSided(tx) ==> op.txType !in {TRANSFER, TRANSFER_TO_NEW, FORCED_EXIT};
      QuietChunk(now, st, op);
    }
  }

  lemma {:induction false} NextChunkReaches(ledger: Accounts, st: State, ops: seq<Operation>, n: nat, s: State)
    requires Good(ledger) && IsOperation(ops) && 0 < n < |ops|
    requires ReachedState(ledger, st, ops, n, s) && Accepts(s, ops[n]) && Allocated(ops[0]) && Allocated(ops[n])
    ensures ReachedState(ledger, st, ops, n + 1, Next(s, ops[n]))
  {
    hide Accepts, Next, LedgerRoot, Pubdata, GoodTx, FirstOk, CanExecute, Reached, TxOf, Good, BitsLE, PubdataFields, Unpack;
    var first, op := ops[0], ops[n];
    PubdataDeterminesFields(op.txType, op, first);
    NextChunkLedger(ledger, s, first, op, n);
    ChunkPublishes(s, op);
    ClosedState(s, op);
    OneMoreChunk(Pubdata(op.txType, first), n);
    ReachedAll(TxOf(first), ledger, n + 1);
  }

  lemma {:induction false} ReachedAll(tx: Tx, ledger: Accounts, n: nat)
    requires Good(ledger) && n > 1 && CanExecute(tx, ledger)
    ensures Reached(tx, ledger, n) == Execute(tx, ledger) && FirstOk(tx, ledger)
  {
  }

  lemma {:induction false} PrefixReaches(ledger: Accounts, st: State, ops: seq<Operation>, n: nat)
    requires Good(ledger) && IsOperation(ops) && AcceptsAll(st, ops) && st.root == LedgerRoot(ledger)
    requires 0 < n <= |ops|
    ensures ReachedState(ledger, st, ops, n, StateAt(st, ops, n))
  {
    hide Accepts, Next, LedgerRoot, Good, IsOperation, ReachedState;
    if n == 1 {
      FirstChunkReaches(ledger, st, ops);
      assert StateAt(st, ops, 1) == StateAt(Next(st, ops[0]), ops[1..], 0);
    } else {
      PrefixReaches(ledger, st, ops, n - 1);
      StateAtStep(st, ops, n - 1);
      StateAtStep(st, ops, 0);
      AcceptedIsAllocated(StateAt(st, ops, 0), ops[0]);
      AcceptedIsAllocated(StateAt(st, ops, n - 1), ops[n - 1]);
      NextChunkReaches(ledger, st, ops, n - 1, StateAt(st, ops, n - 1));
    }
  }

  lemma {:induction false} AcceptedIsAllocated(st: State, op: Operation)
    requires Accepts(st, op)
    ensures Allocated(op)
  {
  }

  lemma {:induction false} RunAllocated(st: State, ops: seq<Operation>)
    requires AcceptsAll(st, ops)
    ensures forall i :: 0 <= i < |ops| ==> Allocated(ops[i])
    decreases |ops|
  {
    hide Next, Accepts, Allocated;
    if ops != [] {
      AcceptedIsAllocated(st, ops[0]);
      RunAllocated(Next(st, ops[0]), ops[1..]);
      assert forall i :: 1 <= i < |ops| ==> ops[i] == ops[1..][i - 1];
    }
  }

  /** An accepted complete operation executes its transaction, collects its fee once and publishes
      its data once. */
  lemma {:induction false} OperationExecutes(ledger: Accounts, st: State, ops: seq<Operation>)
    requires Good(ledger) && IsOperation(ops) && AcceptsAll(st, ops) && st.root == LedgerRoot(ledger)
    ensures CanExecute(TxOf(ops[0]), ledger)
    ensures var s := Run(st, ops);
            && s.root == LedgerRoot(Execute(TxOf(ops[0]), ledger))
            && s.nextChunk == 0 && s.lastChunk
            && s.fees == CollectFee(st.fees, ops[0].lhs.token, ops[0].args.Fee())
            && s.published == st.published + Pubdata(ops[0].txType, ops[0])
  {
    hide Accepts, Next, LedgerRoot, Good, GoodTx, FirstAllowed, FirstEffect, SecondAllowed, SecondEffect, Pubdata;
    PrefixReaches(ledger, st, ops, |ops|);
    RunSplit(st, ops, |ops|);
    assert ops[..|ops|] == ops;
    assert |ops| == 1 ==> !TwoSided(TxOf(ops[0]));
  }

  // ----- whole blocks

  /** The fee vector of the circuit after a list of operations. */
  function FeesAfter(fees: seq<nat>, txs: seq<Tx>): (r: seq<nat>)
    ensures |r| == |fees|
    decreases |txs|
  {
    if txs == [] then fees else FeesAfter(CollectFee(fees, TokenOf(txs[0]), FeeOf(txs[0])), txs[1..])
  }

  predicate Reduced(fees: seq<nat>) {
    forall t :: 0 <= t < |fees| ==> fees[t] < P
  }

  /** Chunks that carry no fee field in their transaction have a zero fee, so collecting it changes
      no entry. */
  lemma {:induction false} CollectsTheFee(st: State, op: Operation, fees: seq<nat>)
    requires Accepts(st, op) && First(op) && Reduced(fees)
    ensures CollectFee(fees, op.lhs.token, op.args.Fee()) == CollectFee(fees, TokenOf(TxOf(op)), FeeOf(TxOf(op)))
    ensures Reduced(CollectFee(fees, op.lhs.token, op.args.Fee()))
  {
    hide PublishedAs, MessageSigned, BranchRoot, Unpack, PartsAllocated, Pow2;
    if op.txType == NOOP {
      assert op.args.Fee() == 0;
      assert forall t :: 0 <= t < |fees| ==> FAdd(fees[t], 0) == fees[t];
    }
  }

  /** The published data of a block: the full padded data of each operation, from its first chunk. */
  function PublishedBy(ops: seq<Operation>): seq<bool>
    decreases |ops|
  {
    if ops == [] then []
    else
      var n := Chunks(ops[0].txType);
      Pubdata(ops[0].txType, ops[0]) + (if n > |ops| then [] else PublishedBy(ops[n..]))
  }

  /** The state `s` is what the operations make of `st` and of the ledger behind it. */
  predicate Executed(ledger: Accounts, st: State, ops: seq<Operation>, s: State)
    requires Good(ledger)
  {
    && CanExecuteAll(TxsOf(ops), ledger)
    && s.root == LedgerRoot(ExecuteAll(TxsOf(ops), ledger))
    && s.fees == FeesAfter(st.fees, TxsOf(ops))
    && s.published == st.published + PublishedBy(ops)
  }

  lemma {:induction false} BlockExecutes(ledger: Accounts, st: State, ops: seq<Operation>)
    requires Good(ledger) && IsBlock(ops) && AcceptsAll(st, ops) && st.root == LedgerRoot(ledger) && Reduced(st.fees)
    ensures Executed(ledger, st, ops, Run(st, ops))
    decreases |ops|
  {
    if ops == [] {
      hide LedgerRoot;
      assert st.published + [] == st.published;
    } else {
      hide *;
      var n := Chunks(ops[0].txType);
      BlockHead(ops);
      RunSplit(st, ops, n);
      OperationExecutes(ledger, st, ops[..n]);
      RunFirst(st, ops);
      CollectsTheFee(st, ops[0], st.fees);
      BlockExecutes(Execute(TxOf(ops[0]), ledger), StateAt(st, ops, n), ops[n..]);
      ExecutedStep(ledger, st, ops, StateAt(st, ops, n), Run(st, ops));
    }
  }

  lemma {:induction false} ExecutedStep(ledger: Accounts, st: State, ops: seq<Operation>, mid: State, s: State)
    requires Good(ledger) && ops != [] && Chunks(ops[0].txType) <= |ops| && CanExecute(TxOf(ops[0]), ledger)
    requires mid.published == st.published + Pubdata(ops[0].txType, ops[0])
    requires mid.fees == CollectFee(st.fees, TokenOf(TxOf(ops[0])), FeeOf(TxOf(ops[0])))
    requires Executed(Execute(TxOf(ops[0]), ledger), mid, ops[Chunks(ops[0].txType)..], s)
    ensures Executed(ledger, st, ops, s)
  {
    hide CanExecute, Execute, TxOf, Pubdata, Good, CollectFee, TokenOf, FeeOf, LedgerRoot, TxsOf, CanExecuteAll, ExecuteAll, FeesAfter, PublishedBy;
    TxsHead(ops, Execute(TxOf(ops[0]), ledger), ledger, st.fees);
    var head, rest := Pubdata(ops[0].txType, ops[0]), PublishedBy(ops[Chunks(ops[0].txType)..]);
    assert st.published + (head + rest) == st.published + head + rest;
  }

  lemma {:induction false} BlockHead(ops: seq<Operation>)
    requires IsBlock(ops) && ops != []
    ensures var n := Chunks(ops[0].txType);
            n <= |ops| && ops[..n] != [] && ops[..n][0] == ops[0] && IsOperation(ops[..n]) && IsBlock(ops[n..]) && First(ops[0])
  {
    hide Pubdata;
    var n := Chunks(ops[0].txType);
    assert ops[..n][0] == ops[0];
  }

  lemma {:induction false} RunFirst(st: State, ops: seq<Operation>)
    requires ops != [] && AcceptsAll(st, ops)
    ensures Accepts(st, ops[0])
  {
  }

  lemma {:induction false} TxsHead(ops: seq<Operation>, next: Accounts, ledger: Accounts, fees: seq<nat>)
    requires ops != [] && Chunks(ops[0].txType) <= |ops| && Good(ledger) && CanExecute(TxOf(ops[0]), ledger)
    requires next == Execute(TxOf(ops[0]), ledger)
    ensures var txs, rest := TxsOf(ops), ops[Chunks(ops[0].txType)..];
            && (CanExecuteAll(TxsOf(rest), next) ==> CanExecuteAll(txs, ledger) && ExecuteAll(txs, ledger) == ExecuteAll(TxsOf(rest), next))
            && FeesAfter(fees, txs) == FeesAfter(CollectFee(fees, TokenOf(TxOf(ops[0])), FeeOf(TxOf(ops[0]))), TxsOf(rest))
            && PublishedBy(ops) == Pubdata(ops[0].txType, ops[0]) + PublishedBy(rest)
  {
    hide CanExecute, Execute, TxOf, Pubdata, Good, CollectFee, TokenOf, FeeOf;
    var txs := TxsOf(ops);
    assert txs[0] == TxOf(ops[0]) && txs[1..] == TxsOf(ops[Chunks(ops[0].txType)..]);
  }

  /** Collected fees never wrap: the vector holds the true sums. */
  lemma {:induction false} FeesAreSums(fees: seq<nat>, txs: seq<Tx>, t: nat)
    requires t < |fees| && fees[t] + |txs| * U128_LIMIT < P
    requires forall i :: 0 <= i < |txs| ==> FeeOf(txs[i]) < U128_LIMIT
    ensures FeesAfter(fees, txs)[t] == fees[t] + FeesIn(txs, t)
    decreases |txs|
  {
    if txs != [] {
      var next := CollectFee(fees, TokenOf(txs[0]), FeeOf(txs[0]));
      assert |txs| * U128_LIMIT == |txs[1..]| * U128_LIMIT + U128_LIMIT;
      assert next[t] == fees[t] + (if TokenOf(txs[0]) == t then FeeOf(txs[0]) else 0);
      FeesAreSums(next, txs[1..], t);
    }
  }
}
