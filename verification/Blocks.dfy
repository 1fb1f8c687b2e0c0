/** Whole blocks: what the witness of an accepted block shows, exactly, and which of its arguments nobody reads. */
module Blocks {
  import opened Bits
  import opened Common
  import opened Merkle
  import opened Params
  import opened PrimeField
  import opened Witness
  import opened Gadgets
  import opened BlockSpec
  import opened Grammar
  import opened Ledger
  import opened Transactions
  import opened Execution
  import opened Soundness
  import opened Nonces
  import opened Acceptance

  // ----- lists of operations

  /** The chunks of a list of operations, each presented on the ledger that the operations before it left. */
  predicate PresentsAll(ops: seq<Operation>, ledger: Accounts)
    requires Good(ledger)
    decreases |ops|
  {
    ops == [] ||
    (var n := Chunks(ops[0].txType);
     n <= |ops| && Presents(ops[..n], ledger) && CanExecute(TxOf(ops[0]), ledger) && PresentsAll(ops[n..], Execute(TxOf(ops[0]), ledger)))
  }

  lemma {:induction false} PresentsHead(ops: seq<Operation>, ledger: Accounts)
    requires Good(ledger) && ops != []
    ensures var n := Chunks(ops[0].txType);
            PresentsAll(ops, ledger) <==>
              n <= |ops| && Presents(ops[..n], ledger) && CanExecute(TxOf(ops[0]), ledger) && PresentsAll(ops[n..], Execute(TxOf(ops[0]), ledger))
  {
    hide Presents, CanExecute, Execute, GoodAccount;
  }

  lemma {:induction false} AcceptConcat(st: State, x: seq<Operation>, y: seq<Operation>)
    requires AcceptsAll(st, x) && AcceptsAll(Run(st, x), y)
    ensures AcceptsAll(st, x + y) && Run(st, x + y) == Run(Run(st, x), y)
    decreases |x|
  {
    hide Accepts, Next;
    if x == [] {
      assert x + y == y;
    } else {
      assert (x + y)[0] == x[0] && (x + y)[1..] == x[1..] + y;
      AcceptConcat(Next(st, x[0]), x[1..], y);
    }
  }

  lemma {:induction false} AcceptedPresentsAll(st: State, ops: seq<Operation>, ledger: Accounts)
    requires Good(ledger) && st.root == LedgerRoot(ledger) && st.nextChunk == 0 && AcceptsAll(st, ops) && IsBlock(ops)
    ensures PresentsAll(ops, ledger)
    decreases |ops|
  {
    if ops != [] {
      hide *;
      var n := Chunks(ops[0].txType);
      BlockHead(ops);
      RunSplit(st, ops, n);
      AcceptedPresents(st, ops[..n], ledger);
      OperationExecutes(ledger, st, ops[..n]);
      AcceptedPresentsAll(StateAt(st, ops, n), ops[n..], Execute(TxOf(ops[0]), ledger));
      PresentsHead(ops, ledger);
    }
  }

  lemma {:induction false} HeadOfPresented(ops: seq<Operation>, ledger: Accounts)
    requires Good(ledger) && ops != [] && PresentsAll(ops, ledger)
    ensures var n := Chunks(ops[0].txType);
            && n <= |ops| && ops[..n] != [] && ops[..n][0] == ops[0] && ops == ops[..n] + ops[n..]
            && Presents(ops[..n], ledger) && CanExecute(TxOf(ops[0]), ledger) && PresentsAll(ops[n..], Execute(TxOf(ops[0]), ledger))
  {
    hide Presents, CanExecute, Execute, GoodAccount;
    var n := Chunks(ops[0].txType);
    assert ops[..n][0] == ops[0];
  }

  lemma {:induction false} OperationThenBlock(ops: seq<Operation>)
    requires ops != [] && Chunks(ops[0].txType) <= |ops|
    requires IsOperation(ops[..Chunks(ops[0].txType)]) && IsBlock(ops[Chunks(ops[0].txType)..])
    ensures IsBlock(ops)
  {
    hide IsOperation;
  }

  lemma {:induction false} PresentedAllAccepted(st: State, ops: seq<Operation>, ledger: Accounts)
    requires Good(ledger) && st.root == LedgerRoot(ledger) && st.nextChunk == 0 && PresentsAll(ops, ledger)
    ensures AcceptsAll(st, ops) && IsBlock(ops) && (ops != [] ==> Run(st, ops).lastChunk)
    decreases |ops|
  {
    if ops != [] {
      hide *;
      var n := Chunks(ops[0].txType);
      HeadOfPresented(ops, ledger);
      PresentedIsAccepted(ops[..n], ledger, st);
      OperationExecutes(ledger, st, ops[..n]);
      PresentedAllAccepted(Run(st, ops[..n]), ops[n..], Execute(TxOf(ops[0]), ledger));
      AcceptConcat(st, ops[..n], ops[n..]);
      OperationThenBlock(ops);
      if ops[n..] == [] {
        RunNothing(Run(st, ops[..n]));
      }
    }
  }

  lemma {:induction false} RunNothing(st: State)
    ensures AcceptsAll(st, []) && Run(st, []) == st
  {
  }

  lemma {:induction false} TxsOfHead(ops: seq<Operation>, ledger: Accounts)
    requires Good(ledger) && ops != [] && PresentsAll(ops, ledger) && CanExecuteAll(TxsOf(ops), ledger)
    ensures var n := Chunks(ops[0].txType);
            && TxsOf(ops) != [] && TxsOf(ops)[0] == TxOf(ops[0]) && TxsOf(ops)[1..] == TxsOf(ops[n..])
            && CanExecuteAll(TxsOf(ops[n..]), Execute(TxOf(ops[0]), ledger))
            && Firsts(ops) == [ops[0]] + Firsts(ops[n..])
  {
    hide TxOf, Presents, CanExecute, Execute, GoodAccount;
  }

  /** Each first chunk presents its operation on the ledger before it. */
  lemma {:induction false} FirstsPresent(ops: seq<Operation>, ledger: Accounts, k: nat)
    requires Good(ledger) && PresentsAll(ops, ledger) && CanExecuteAll(TxsOf(ops), ledger) && k < |Firsts(ops)|
    ensures FirstPresents(Firsts(ops)[k], LedgerBefore(TxsOf(ops), ledger, k))
    decreases k
  {
    hide *;
    SomeFirst(ops, k);
    HeadOfPresented(ops, ledger);
    TxsOfHead(ops, ledger);
    if k == 0 {
      PresentsMeans(ops[..Chunks(ops[0].txType)], ledger, 0);
      FirstLedger(TxsOf(ops), ledger);
    } else {
      FirstsPresent(ops[Chunks(ops[0].txType)..], Execute(TxOf(ops[0]), ledger), k - 1);
      BeforeShift(TxsOf(ops), ledger, k);
    }
  }

  lemma {:induction false} FirstLedger(txs: seq<Tx>, ledger: Accounts)
    requires Good(ledger) && CanExecuteAll(txs, ledger)
    ensures LedgerBefore(txs, ledger, 0) == ledger
  {
  }

  // ----- the validator

  /** The validator's entry holds no token that is not processable, and has room for the fees. */
  predicate ValidatorReady(ledger: Accounts, id: nat, txs: seq<Tx>)
    requires Good(ledger)
  {
    var b := ledger[Slot(id)].balances;
    && (forall t :: PROCESSABLE_TOKENS <= t < TOKENS ==> b[t] == 0)
    && (forall t :: 0 <= t < PROCESSABLE_TOKENS ==> b[t] + FeesIn(txs, t) < U128_LIMIT)
  }

  /** The validator shows its entry, which is ready. */
  predicate ValidatorPresents(v: Validator, ledger: Accounts, txs: seq<Tx>)
    requires Good(ledger)
  {
    ValidatorAllocated(v) && ValidatorRoot(v, v.balances) == LedgerRoot(ledger) && ValidatorReady(ledger, v.id, txs)
  }

  lemma {:induction false} RoomForFees(v: Validator, ledger: Accounts, fees: seq<nat>, txs: seq<Tx>)
    requires Good(ledger) && |fees| == |v.balances| == PROCESSABLE_TOKENS
    requires forall t :: 0 <= t < PROCESSABLE_TOKENS ==> fees[t] == FeesIn(txs, t) && fees[t] + U128_LIMIT <= P
    requires forall t :: 0 <= t < PROCESSABLE_TOKENS ==> ledger[Slot(v.id)].balances[t] == v.balances[t]
    ensures Short(v.balances)
    ensures Short(AddFees(v.balances, fees)) <==>
              forall t :: 0 <= t < PROCESSABLE_TOKENS ==> ledger[Slot(v.id)].balances[t] + FeesIn(txs, t) < U128_LIMIT
  {
    hide FeesIn;
    var a := ledger[Slot(v.id)];
    assert GoodAccount(a);
    forall t | 0 <= t < PROCESSABLE_TOKENS
      ensures v.balances[t] < U128_LIMIT && AddFees(v.balances, fees)[t] == a.balances[t] + FeesIn(txs, t)
    {
    }
  }

  lemma {:induction false} FeesCreditedIff(v: Validator, ledger: Accounts, fees: seq<nat>, txs: seq<Tx>)
    requires Good(ledger) && |fees| == PROCESSABLE_TOKENS
    requires forall t :: 0 <= t < PROCESSABLE_TOKENS ==> fees[t] == FeesIn(txs, t) && fees[t] + U128_LIMIT <= P
    ensures FeesCredited(LedgerRoot(ledger), v, fees) <==> ValidatorPresents(v, ledger, txs)
  {
    hide LedgerRoot, FeesIn, ValidatorRoot, AddFees, Short, GoodAccount;
    if ValidatorAllocated(v) && ValidatorRoot(v, v.balances) == LedgerRoot(ledger) {
      ValidatorShown(v, ledger);
      RoomForFees(v, ledger, fees, txs);
    }
  }

  // ----- the block

  /** What the witness of an accepted block shows: a list of operations from this ledger, each executable when its
      turn comes, and after them the validator. */
  predicate BlockPresents(block: Block, ledger: Accounts)
    requires Good(ledger)
  {
    && block.number < 0x1_0000_0000 && block.initialSubroot == LedgerRoot(ledger) && block.oldRoot == FullRoot(LedgerRoot(ledger))
    && block.ops != [] && PresentsAll(block.ops, ledger) && CanExecuteAll(TxsOf(block.ops), ledger)
    && ValidatorPresents(block.validator, ExecuteAll(TxsOf(block.ops), ledger), TxsOf(block.ops))
  }

  /** The public input of a block that runs from this ledger. */
  predicate Commits(commitment: Commitment, block: Block, ledger: Accounts)
    requires Good(ledger)
  {
    && CanExecuteAll(TxsOf(block.ops), ledger) && Good(LedgerAfter(block, ledger))
    && commitment == Commitment(block.number, block.validator.id, FullRoot(LedgerRoot(ledger)),
                                FullRoot(LedgerRoot(LedgerAfter(block, ledger))), PublishedBy(block.ops))
  }

  lemma {:induction false} AcceptedBlockPresents(block: Block, commitment: Commitment, ledger: Accounts)
    requires BlockAccepted(block, commitment) && |block.ops| < 0x1_0000_0000_0000_0000
    requires Good(ledger) && block.oldRoot == FullRoot(LedgerRoot(ledger))
    ensures BlockPresents(block, ledger) && Commits(commitment, block, ledger)
  {
    InitialRoot(block, commitment, ledger);
    AcceptedBlockIsWellFormed(block, commitment);
    BlockRun(block, commitment, ledger);
    LedgerSoundness(block, commitment, ledger);
    CircuitFees(block.ops, ledger);
    hide LedgerRoot, TxsOf, ExecuteAll, CanExecuteAll, FeesIn, FullRoot, Accepts, AcceptsAll, ValidatorRoot, PublishedBy, FeesAfter, NewRoot,
      ValidatorPresents, CreditFees, GoodAccount, FeesCredited, Final, PresentsAll, IsBlock;
    FeesCreditedIff(block.validator, ExecuteAll(TxsOf(block.ops), ledger), Final(block).fees, TxsOf(block.ops));
    AcceptedPresentsAll(Initial(block.initialSubroot), block.ops, ledger);
  }

  /** The run of a presented block. */
  lemma {:induction false} PresentedRun(block: Block, ledger: Accounts)
    requires Good(ledger) && BlockPresents(block, ledger)
    ensures AcceptsAll(Initial(block.initialSubroot), block.ops) && Final(block).lastChunk
    ensures Final(block).root == LedgerRoot(ExecuteAll(TxsOf(block.ops), ledger))
    ensures Final(block).fees == FeesAfter(Repeat(0, PROCESSABLE_TOKENS), TxsOf(block.ops))
  {
    hide CanExecuteAll, LedgerRoot, GoodAccount, Accepts, AcceptsAll, Next, IsBlock, TxsOf, FullRoot, PublishedBy, ExecuteAll, FeesAfter,
      Run, PresentsAll, ValidatorPresents;
    var st := Initial(block.initialSubroot);
    PresentedAllAccepted(st, block.ops, ledger);
    BlockExecutes(ledger, st, block.ops);
  }

  lemma {:induction false} PresentedBlockIsAccepted(block: Block, ledger: Accounts)
    requires Good(ledger) && BlockPresents(block, ledger) && |block.ops| < 0x1_0000_0000_0000_0000
    ensures ValidatorAllocated(block.validator) && AcceptsAll(Initial(block.initialSubroot), block.ops)
    ensures BlockAccepted(block, Commitment(block.number, block.validator.id, block.oldRoot, NewRoot(block), Final(block).published))
  {
    PresentedRun(block, ledger);
    CircuitFees(block.ops, ledger);
    hide LedgerRoot, TxsOf, ExecuteAll, CanExecuteAll, FeesIn, FullRoot, AcceptsAll, ValidatorRoot, FeesAfter, NewRoot, Final, GoodAccount,
      FeesCredited, PresentsAll, ValidatorReady;
    FeesCreditedIff(block.validator, ExecuteAll(TxsOf(block.ops), ledger), Final(block).fees, TxsOf(block.ops));
  }

  /** The exact reach of the circuit. A block over a ledger is accepted with a commitment if and only if its witness
      shows executable operations and then the validator, and the commitment names the ledger after them. */
  lemma {:induction false} BlockAcceptedIff(block: Block, commitment: Commitment, ledger: Accounts)
    requires Good(ledger) && block.oldRoot == FullRoot(LedgerRoot(ledger)) && |block.ops| < 0x1_0000_0000_0000_0000
    ensures BlockAccepted(block, commitment) <==> BlockPresents(block, ledger) && Commits(commitment, block, ledger)
  {
    hide BlockAccepted, BlockPresents, LedgerRoot, FullRoot, Final, NewRoot, TxsOf, CanExecuteAll, GoodAccount, LedgerAfter, PublishedBy, AcceptsAll;
    if BlockAccepted(block, commitment) {
      AcceptedBlockPresents(block, commitment, ledger);
    }
    if BlockPresents(block, ledger) && Commits(commitment, block, ledger) {
      PresentedBlockIsAccepted(block, ledger);
      AcceptedBlockPresents(block, Commitment(block.number, block.validator.id, block.oldRoot, NewRoot(block), Final(block).published), ledger);
    }
  }
}
