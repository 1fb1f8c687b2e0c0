/** The main theorem of the block circuit: an accepted block whose old root is the root of a ledger
    commits to the root of the ledger after its operations, with the fees credited. */
module Soundness {
  import opened Bits
  import opened Common
  import opened Merkle
  import opened Params
  import opened PrimeField
  import opened Witness
  import opened BlockSpec
  import opened Grammar
  import opened Ledger
  import opened Transactions
  import opened Execution

  /** The root of the full 32-level account tree: the ledger on the left, empty accounts elsewhere. */
  function FullTreeRoot(ledger: Accounts): Digest
    requires Good(ledger)
  {
    Sizes();
    Root(Leaves(ledger) + Repeat(EMPTY_ACCOUNT, Pow2(ACCOUNT_TREE_DEPTH) - ACCOUNTS), ACCOUNT_TREE_DEPTH)
  }

  /** Continuing the 24-level subroot gives the root of the full tree. */
  lemma {:induction false} FullRootIsTreeRoot(ledger: Accounts)
    requires Good(ledger)
    ensures FullRoot(LedgerRoot(ledger)) == FullTreeRoot(ledger)
  {
    hide Root, ContinueLeftmost;
    Sizes();
    ContinueLeftmostIsRoot(Leaves(ledger), EMPTY_ACCOUNT, USED_SUBTREE_DEPTH, ACCOUNT_TREE_DEPTH);
  }

  lemma {:induction false} TxCount(ops: seq<Operation>)
    ensures |TxsOf(ops)| <= |ops|
    decreases |ops|
  {
    if ops != [] {
      var n := Chunks(ops[0].txType);
      if n <= |ops| {
        TxCount(ops[n..]);
      }
    }
  }

  lemma {:induction false} ExecutedAreGood(txs: seq<Tx>, ledger: Accounts)
    requires Good(ledger) && CanExecuteAll(txs, ledger)
    ensures forall i :: 0 <= i < |txs| ==> GoodTx(txs[i])
    decreases |txs|
  {
    hide Execute, GoodTx, Good, FirstAllowed, SecondAllowed;
    if txs != [] {
      ExecutedAreGood(txs[1..], Execute(txs[0], ledger));
      assert forall i :: 1 <= i < |txs| ==> txs[i] == txs[1..][i - 1];
    }
  }

  lemma {:induction false} FeesInBound(txs: seq<Tx>, t: nat)
    requires forall i :: 0 <= i < |txs| ==> FeeOf(txs[i]) < U128_LIMIT
    ensures FeesIn(txs, t) <= |txs| * U128_LIMIT
  {
    if txs != [] {
      FeesInBound(txs[1..], t);
    }
  }

  /** The leaf the validator shows, with its balances in full. */
  lemma {:induction false} ValidatorShown(v: Validator, ledger: Accounts)
    requires Good(ledger) && ValidatorAllocated(v) && ValidatorRoot(v, v.balances) == LedgerRoot(ledger)
    ensures var a := ledger[Slot(v.id)];
            && v.nonce == a.nonce && v.pubKeyHash == a.pubKeyHash && v.address == a.address
            && (forall t :: 0 <= t < PROCESSABLE_TOKENS ==> a.balances[t] == v.balances[t])
            && (forall t :: PROCESSABLE_TOKENS <= t < TOKENS ==> a.balances[t] == 0)
    ensures forall leaf: Digest ::
              PathRoot(leaf, v.id, v.path, USED_SUBTREE_DEPTH) == (Sizes(); Root(Leaves(ledger)[Slot(v.id) := leaf], USED_SUBTREE_DEPTH))
  {
    hide PathRoot, Root;
    Sizes();
    var i := Slot(v.id);
    var a := ledger[i];
    var leaf := AccountDigest(v.nonce, v.pubKeyHash, v.address, ProcessableRoot(v.balances));
    PathRootSound(leaf, v.id, v.path, USED_SUBTREE_DEPTH, Leaves(ledger));
    assert leaf == Leaf(a);
    var shown := BalanceLeaves(v.balances) + Repeat(BalanceLeaf(0), TOKENS - PROCESSABLE_TOKENS);
    RootInjective(shown, BalanceLeaves(a.balances), BALANCE_TREE_DEPTH);
    forall t | 0 <= t < TOKENS
      ensures a.balances[t] == if t < PROCESSABLE_TOKENS then v.balances[t] else 0
    {
      assert shown[t] == BalanceLeaf(a.balances[t]);
    }
  }

  /** The balances the circuit computes for the validator are its ledger entry after the credit. */
  lemma {:induction false} CreditedBalances(ledger: Accounts, v: Validator, fees: seq<nat>, txs: seq<Tx>)
    requires Good(ledger) && |fees| == |v.balances| == PROCESSABLE_TOKENS
    requires forall t :: 0 <= t < PROCESSABLE_TOKENS ==> fees[t] == FeesIn(txs, t) && fees[t] + U128_LIMIT <= P
    requires forall t :: 0 <= t < PROCESSABLE_TOKENS ==> ledger[Slot(v.id)].balances[t] == v.balances[t]
    requires forall t :: PROCESSABLE_TOKENS <= t < TOKENS ==> ledger[Slot(v.id)].balances[t] == 0
    ensures var b := CreditFees(ledger, v.id, txs)[Slot(v.id)].balances;
            BalanceLeaves(b) == BalanceLeaves(AddFees(v.balances, fees)) + Repeat(BalanceLeaf(0), TOKENS - PROCESSABLE_TOKENS)
    ensures Short(AddFees(v.balances, fees)) ==> Good(CreditFees(ledger, v.id, txs))
  {
    hide FeesIn, FAdd;
    var i, final := Slot(v.id), CreditFees(ledger, v.id, txs);
    var added, b := AddFees(v.balances, fees), final[i].balances;
    forall t | 0 <= t < TOKENS
      ensures b[t] == if t < PROCESSABLE_TOKENS then added[t] else 0
    {
      if t < PROCESSABLE_TOKENS {
        assert GoodAccount(ledger[i]);
        assert v.balances[t] < U128_LIMIT && added[t] == v.balances[t] + fees[t];
      }
    }
  }

  /** Crediting the circuit's fee vector to the validator credits the true fees in the ledger. */
  lemma {:induction false} FeesReachTheValidator(ledger: Accounts, v: Validator, fees: seq<nat>, txs: seq<Tx>)
    requires Good(ledger) && |fees| == PROCESSABLE_TOKENS && FeesCredited(LedgerRoot(ledger), v, fees)
    requires forall t :: 0 <= t < PROCESSABLE_TOKENS ==> fees[t] == FeesIn(txs, t) && fees[t] + U128_LIMIT <= P
    ensures Good(CreditFees(ledger, v.id, txs))
    ensures ValidatorRoot(v, AddFees(v.balances, fees)) == LedgerRoot(CreditFees(ledger, v.id, txs))
  {
    hide PathRoot, Root, FeesIn, BalanceLeaves, AddFees;
    Sizes();
    ValidatorShown(v, ledger);
    CreditedBalances(ledger, v, fees, txs);
    var i, final := Slot(v.id), CreditFees(ledger, v.id, txs);
    var leaf := AccountDigest(v.nonce, v.pubKeyHash, v.address, ProcessableRoot(AddFees(v.balances, fees)));
    assert leaf == Leaf(final[i]);
    hide Short, Leaf, GoodAccount;
    assert Leaves(ledger)[i := leaf] == Leaves(final);
  }

  /** The ledger after a block: its operations executed, the fees credited to the validator. */
  function LedgerAfter(block: Block, ledger: Accounts): Accounts
    requires Good(ledger) && CanExecuteAll(TxsOf(block.ops), ledger)
  {
    CreditFees(ExecuteAll(TxsOf(block.ops), ledger), block.validator.id, TxsOf(block.ops))
  }

  lemma {:induction false} InitialRoot(block: Block, commitment: Commitment, ledger: Accounts)
    requires BlockAccepted(block, commitment) && Good(ledger) && block.oldRoot == FullRoot(LedgerRoot(ledger))
    ensures block.initialSubroot == LedgerRoot(ledger)
  {
    hide LedgerRoot;
    ContinueLeftmostInjective(block.initialSubroot, LedgerRoot(ledger), EMPTY_ACCOUNT, USED_SUBTREE_DEPTH, ACCOUNT_TREE_DEPTH);
  }

  /** The run of an accepted block, seen on the ledger. */
  lemma {:induction false} BlockRun(block: Block, commitment: Commitment, ledger: Accounts)
    requires BlockAccepted(block, commitment) && |block.ops| < 0x1_0000_0000_0000_0000
    requires Good(ledger) && block.oldRoot == FullRoot(LedgerRoot(ledger))
    ensures CanExecuteAll(TxsOf(block.ops), ledger)
    ensures Final(block).root == LedgerRoot(ExecuteAll(TxsOf(block.ops), ledger))
    ensures Final(block).published == PublishedBy(block.ops)
    ensures Final(block).fees == FeesAfter(Repeat(0, PROCESSABLE_TOKENS), TxsOf(block.ops))
  {
    hide Accepts, AcceptsAll, Next, Root, LedgerRoot, Good, FeesCredited, NewRoot, IsBlock, TxsOf, CanExecuteAll, PublishedBy;
    InitialRoot(block, commitment, ledger);
    AcceptedBlockIsWellFormed(block, commitment);
    BlockExecutes(ledger, Initial(block.initialSubroot), block.ops);
    assert [] + PublishedBy(block.ops) == PublishedBy(block.ops);
  }

  lemma {:induction false} CircuitFees(ops: seq<Operation>, ledger: Accounts)
    requires Good(ledger) && CanExecuteAll(TxsOf(ops), ledger) && |ops| < 0x1_0000_0000_0000_0000
    ensures forall t :: 0 <= t < PROCESSABLE_TOKENS ==>
              var fee := FeesAfter(Repeat(0, PROCESSABLE_TOKENS), TxsOf(ops))[t];
              fee == FeesIn(TxsOf(ops), t) && fee + U128_LIMIT <= P
  {
    var txs := TxsOf(ops);
    TxCount(ops);
    ExecutedAreGood(txs, ledger);
    assert |txs| * U128_LIMIT <= 0x1_0000_0000_0000_0000 * U128_LIMIT;
    forall t | 0 <= t < PROCESSABLE_TOKENS
      ensures FeesAfter(Repeat(0, PROCESSABLE_TOKENS), txs)[t] == FeesIn(txs, t) <= |txs| * U128_LIMIT
    {
      FeesAreSums(Repeat(0, PROCESSABLE_TOKENS), txs, t);
      FeesInBound(txs, t);
    }
  }

  /** Ledger soundness. The commitment of an accepted block that starts from the root of a ledger
      names the root of that ledger after the block's operations, each of which was executable when
      its turn came, with the true fees credited; and the published bits are the operations' data,
      one after the other. */
  lemma {:induction false} LedgerSoundness(block: Block, commitment: Commitment, ledger: Accounts)
    requires BlockAccepted(block, commitment) && |block.ops| < 0x1_0000_0000_0000_0000
    requires Good(ledger) && block.oldRoot == FullRoot(LedgerRoot(ledger))
    ensures CanExecuteAll(TxsOf(block.ops), ledger) && Good(LedgerAfter(block, ledger))
    ensures commitment == Commitment(block.number, block.validator.id, FullRoot(LedgerRoot(ledger)),
                                     FullRoot(LedgerRoot(LedgerAfter(block, ledger))), PublishedBy(block.ops))
  {
    hide Accepts, AcceptsAll, Next, Root, LedgerRoot, Good, FullRoot, ValidatorRoot, TxsOf, ExecuteAll, CanExecuteAll, FeesIn, CreditFees, FeesAfter;
    BlockRun(block, commitment, ledger);
    CircuitFees(block.ops, ledger);
    FeesReachTheValidator(ExecuteAll(TxsOf(block.ops), ledger), block.validator, Final(block).fees, TxsOf(block.ops));
  }
}
