/** Completeness of the block circuit: every list of executable operations has an accepted block, so
    acceptance characterises execution exactly. */
module Completeness {
  import opened Bits
  import opened Common
  import opened Merkle
  import opened Params
  import opened PrimeField
  import opened Witness
  import opened Gadgets
  import opened BlockSpec
  import opened Grammar
  import opened Ledger
  import opened Transactions
  import opened Execution
  import opened Soundness
  import opened Acceptance
  import opened Prover
  import opened Blocks
  import Conservation

  /** The prover's witness of an executable operation is accepted. */
  lemma {:induction false} OperationIsAccepted(tx: Tx, ledger: Accounts, feeAccount: nat, st: State)
    requires Good(ledger) && CanExecute(tx, ledger) && TxFits(tx) && feeAccount < 0x1_0000_0000
    requires st.root == LedgerRoot(ledger) && st.nextChunk == 0
    ensures var ops := OpsFor(tx, ledger, feeAccount);
            && IsOperation(ops) && AcceptsAll(st, ops) && TxOf(ops[0]) == tx && ops[0].txType == Code(tx)
  {
    hide *;
    OpsPresent(tx, ledger, feeAccount);
    PresentedIsAccepted(OpsFor(tx, ledger, feeAccount), ledger, st);
  }

  // ----- whole blocks

  predicate AllFit(txs: seq<Tx>) {
    forall i :: 0 <= i < |txs| ==> TxFits(txs[i])
  }

  function ChunkCount(txs: seq<Tx>): nat {
    if txs == [] then 0 else Chunks(Code(txs[0])) + ChunkCount(txs[1..])
  }

  function OpsForAll(txs: seq<Tx>, ledger: Accounts, feeAccount: nat): seq<Operation>
    requires Good(ledger) && CanExecuteAll(txs, ledger)
    decreases |txs|
  {
    if txs == [] then [] else OpsFor(txs[0], ledger, feeAccount) + OpsForAll(txs[1..], Execute(txs[0], ledger), feeAccount)
  }

  /** The prover's chunks present the operations one after the other. */
  lemma {:induction false} ProverPresentsAll(txs: seq<Tx>, ledger: Accounts, feeAccount: nat)
    requires Good(ledger) && CanExecuteAll(txs, ledger) && AllFit(txs) && feeAccount < 0x1_0000_0000
    ensures var ops := OpsForAll(txs, ledger, feeAccount);
            PresentsAll(ops, ledger) && TxsOf(ops) == txs && |ops| == ChunkCount(txs) && (txs != [] ==> ops != [])
    decreases |txs|
  {
    if txs != [] {
      hide *;
      var tx, next := txs[0], Execute(txs[0], ledger);
      HeadOfAll(txs, ledger, feeAccount);
      var ops, rest := OpsFor(tx, ledger, feeAccount), OpsForAll(txs[1..], next, feeAccount);
      OpsPresent(tx, ledger, feeAccount);
      ProverPresentsAll(txs[1..], next, feeAccount);
      BlockOfTwo(txs, ops, rest, ledger);
    } else {
      NoOps(ledger, feeAccount);
    }
  }

  lemma {:induction false} NoOps(ledger: Accounts, feeAccount: nat)
    requires Good(ledger)
    ensures OpsForAll([], ledger, feeAccount) == [] && PresentsAll([], ledger) && TxsOf([]) == [] && ChunkCount([]) == 0
  {
    hide GoodAccount;
  }

  lemma {:induction false} HeadOfAll(txs: seq<Tx>, ledger: Accounts, feeAccount: nat)
    requires txs != [] && Good(ledger) && CanExecuteAll(txs, ledger) && AllFit(txs)
    ensures CanExecute(txs[0], ledger) && TxFits(txs[0]) && AllFit(txs[1..])
    ensures CanExecuteAll(txs[1..], Execute(txs[0], ledger))
    ensures OpsForAll(txs, ledger, feeAccount)
         == OpsFor(txs[0], ledger, feeAccount) + OpsForAll(txs[1..], Execute(txs[0], ledger), feeAccount)
    ensures |OpsFor(txs[0], ledger, feeAccount)| == Chunks(Code(txs[0]))
  {
    hide TxFits, CanExecute, Execute, OpsFor, Good;
  }

  lemma {:induction false} BlockOfTwo(txs: seq<Tx>, ops: seq<Operation>, rest: seq<Operation>, ledger: Accounts)
    requires txs != [] && ops != [] && Good(ledger) && CanExecute(txs[0], ledger)
    requires Presents(ops, ledger) && TxOf(ops[0]) == txs[0] && ops[0].txType == Code(txs[0]) && |ops| == Chunks(Code(txs[0]))
    requires PresentsAll(rest, Execute(txs[0], ledger)) && TxsOf(rest) == txs[1..] && |rest| == ChunkCount(txs[1..])
    ensures PresentsAll(ops + rest, ledger) && TxsOf(ops + rest) == txs && |ops + rest| == ChunkCount(txs) && ops + rest != []
  {
    hide Presents, TxOf, Code, CanExecute, Execute, GoodAccount;
    var all, n := ops + rest, |ops|;
    assert all[..n] == ops && all[n..] == rest && all[0] == ops[0];
  }

  // ----- the validator

  function ValidatorFor(ledger: Accounts, id: nat): (v: Validator)
    requires Good(ledger)
    ensures |v.balances| == PROCESSABLE_TOKENS && |v.path| == USED_SUBTREE_DEPTH
  {
    Sizes();
    var a := ledger[Slot(id)];
    Validator(id, a.nonce, a.pubKeyHash, a.address, a.balances[..PROCESSABLE_TOKENS], AuditPath(Leaves(ledger), id, USED_SUBTREE_DEPTH))
  }

  lemma {:induction false} ValidatorLeaf(ledger: Accounts, id: nat)
    requires Good(ledger) && forall t :: PROCESSABLE_TOKENS <= t < TOKENS ==> ledger[Slot(id)].balances[t] == 0
    ensures ValidatorRoot(ValidatorFor(ledger, id), ValidatorFor(ledger, id).balances) == LedgerRoot(ledger)
  {
    Sizes();
    var a, v := ledger[Slot(id)], ValidatorFor(ledger, id);
    assert BalanceLeaves(v.balances) + Repeat(BalanceLeaf(0), TOKENS - PROCESSABLE_TOKENS) == BalanceLeaves(a.balances);
    assert ProcessableRoot(v.balances) == BalanceRoot(a.balances);
    hide Root, PathRoot, Pow2, AuditPath, ProcessableRoot, BalanceRoot;
    AuditPathLeadsToRoot(Leaves(ledger), id, USED_SUBTREE_DEPTH);
  }

  lemma {:induction false} ValidatorIsPresented(ledger: Accounts, id: nat, txs: seq<Tx>)
    requires Good(ledger) && id < 0x1_0000_0000 && ValidatorReady(ledger, id, txs)
    ensures ValidatorPresents(ValidatorFor(ledger, id), ledger, txs)
  {
    ValidatorLeaf(ledger, id);
    assert GoodAccount(ledger[Slot(id)]);
    hide LedgerRoot, ValidatorRoot, AuditPath, FeesIn;
  }

  /** The block the prover builds; the validator is the account that collects the fees. */
  function BlockFor(number: nat, ledger: Accounts, txs: seq<Tx>, validator: nat): Block
    requires Good(ledger) && CanExecuteAll(txs, ledger)
  {
    Block(number, FullRoot(LedgerRoot(ledger)), LedgerRoot(ledger), ValidatorFor(ExecuteAll(txs, ledger), validator),
          OpsForAll(txs, ledger, validator))
  }

  /** What can be proved about a ledger: these transactions, with this validator. */
  predicate Provable(ledger: Accounts, txs: seq<Tx>, validator: nat)
    requires Good(ledger)
  {
    && txs != [] && CanExecuteAll(txs, ledger) && AllFit(txs) && ChunkCount(txs) < 0x1_0000_0000_0000_0000
    && validator < 0x1_0000_0000 && ValidatorReady(ExecuteAll(txs, ledger), validator, txs)
  }

  /** The prover's block is accepted, whatever its number. */
  lemma {:induction false} ProverBlockIsAccepted(number: nat, ledger: Accounts, txs: seq<Tx>, validator: nat)
    requires Good(ledger) && Provable(ledger, txs, validator) && number < 0x1_0000_0000
    ensures var block := BlockFor(number, ledger, txs, validator);
            && TxsOf(block.ops) == txs && |block.ops| == ChunkCount(txs) && BlockPresents(block, ledger)
            && exists commitment :: BlockAccepted(block, commitment)
  {
    hide CanExecuteAll, AllFit, ChunkCount, LedgerRoot, GoodAccount, TxsOf, OpsForAll, FullRoot, ValidatorFor, PresentsAll, BlockAccepted,
      ExecuteAll, ValidatorReady, ValidatorPresents, NewRoot, Final;
    ProverPresentsAll(txs, ledger, validator);
    ValidatorIsPresented(ExecuteAll(txs, ledger), validator, txs);
    PresentedBlockIsAccepted(BlockFor(number, ledger, txs, validator), ledger);
  }

  // ----- and nothing else is accepted

  lemma {:induction false} AcceptedFits(ops: seq<Operation>)
    requires IsBlock(ops) && forall i :: 0 <= i < |ops| ==> Allocated(ops[i])
    ensures AllFit(TxsOf(ops)) && |ops| == ChunkCount(TxsOf(ops))
    decreases |ops|
  {
    if ops != [] {
      hide Allocated, TxFits, IsOperation, TxOf, Code;
      var n, txs := Chunks(ops[0].txType), TxsOf(ops);
      BlockHead(ops);
      AcceptedFits(ops[n..]);
      assert txs[0] == TxOf(ops[0]) && txs[1..] == TxsOf(ops[n..]);
      GadgetOf(ops[..n]);
      TxOfFits(ops[0]);
      assert forall i :: 1 <= i < |txs| ==> txs[i] == txs[1..][i - 1];
    }
  }

  lemma {:induction false} GadgetOf(ops: seq<Operation>)
    requires IsOperation(ops)
    ensures IsGadget(ops[0].txType)
  {
  }

  lemma {:induction false} TxOfFits(op: Operation)
    requires Allocated(op) && IsGadget(op.txType)
    ensures TxFits(TxOf(op)) && Code(TxOf(op)) == op.txType
  {
    hide Unpack;
  }

  /** An accepted block over a ledger, running the given transactions for the given validator. */
  predicate BlockRuns(block: Block, commitment: Commitment, ledger: Accounts, txs: seq<Tx>, validator: nat)
    requires Good(ledger)
  {
    && BlockAccepted(block, commitment) && block.oldRoot == FullRoot(LedgerRoot(ledger))
    && TxsOf(block.ops) == txs && block.validator.id == validator && |block.ops| < 0x1_0000_0000_0000_0000
  }

  ghost predicate SomeBlock(ledger: Accounts, txs: seq<Tx>, validator: nat)
    requires Good(ledger)
  {
    exists block: Block, commitment: Commitment :: BlockRuns(block, commitment, ledger, txs, validator)
  }

  /** The exact reach of the circuit: a block that runs these transactions from this ledger is accepted
      for some witness if and only if there are any, each is executable when its turn comes and fits its
      published fields, and the validator's entry can take the fees. The signatures of the witness are
      assumed to exist: a key with the hash that an operation needs, and its signature on the message. */
  lemma {:induction false} AcceptedIffExecutable(ledger: Accounts, txs: seq<Tx>, validator: nat)
    requires Good(ledger)
    ensures SomeBlock(ledger, txs, validator) <==> Provable(ledger, txs, validator)
  {
    if SomeBlock(ledger, txs, validator) {
      AcceptedIsProvable(ledger, txs, validator);
    }
    if Provable(ledger, txs, validator) {
      ProvableIsAccepted(ledger, txs, validator);
    }
  }

  lemma {:induction false} AcceptedIsProvable(ledger: Accounts, txs: seq<Tx>, validator: nat)
    requires Good(ledger) && SomeBlock(ledger, txs, validator)
    ensures Provable(ledger, txs, validator)
  {
    hide AcceptsAll, FeesCredited, NewRoot, Final, LedgerRoot, FullRoot, TxsOf, ChunkCount, AllFit, ValidatorReady, CanExecuteAll, Good, IsBlock, PresentsAll, Commits,
      ValidatorRoot;
    var block: Block, commitment: Commitment :| BlockRuns(block, commitment, ledger, txs, validator);
    AcceptedBlockIsWellFormed(block, commitment);
    AcceptedBlockPresents(block, commitment, ledger);
    RunAllocated(Initial(block.initialSubroot), block.ops);
    AcceptedFits(block.ops);
    SomeTx(block.ops);
  }

  lemma {:induction false} SomeTx(ops: seq<Operation>)
    requires ops != []
    ensures TxsOf(ops) != []
  {
    hide TxOf;
  }

  lemma {:induction false} ProvableIsAccepted(ledger: Accounts, txs: seq<Tx>, validator: nat)
    requires Good(ledger) && Provable(ledger, txs, validator)
    ensures SomeBlock(ledger, txs, validator)
  {
    hide BlockAccepted, LedgerRoot, FullRoot, TxsOf, ChunkCount, AllFit, ValidatorReady, CanExecuteAll, Good, OpsForAll;
    ProverBlockIsAccepted(0, ledger, txs, validator);
    var block := BlockFor(0, ledger, txs, validator);
    var commitment :| BlockAccepted(block, commitment);
    assert BlockRuns(block, commitment, ledger, txs, validator);
  }

  // ----- what accepted blocks can do

  lemma {:induction false} OneTxIsProvable(ledger: Accounts, tx: Tx)
    requires Good(ledger) && CanExecute(tx, ledger) && TxFits(tx) && FeeOf(tx) < 2
    requires Execute(tx, ledger)[0].balances == Conservation.NO_BALANCES
    ensures SomeBlock(ledger, [tx], 0)
  {
    hide CanExecute, Execute, TxFits, Good, SomeBlock, FeeOf, TokenOf;
    var after := Execute(tx, ledger);
    assert CanExecuteAll([tx][1..], after) && ExecuteAll([tx][1..], after) == after;
    assert CanExecuteAll([tx], ledger) && ExecuteAll([tx], ledger) == after;
    assert ChunkCount([tx]) == Chunks(Code(tx)) + ChunkCount([tx][1..]) == Chunks(Code(tx));
    forall t | 0 <= t < PROCESSABLE_TOKENS
      ensures FeesIn([tx], t) < 2
    {
      assert FeesIn([tx], t) == (if TokenOf(tx) == t then FeeOf(tx) else 0) + FeesIn([tx][1..], t);
    }
    assert ValidatorReady(after, 0, [tx]);
    AcceptedIffExecutable(ledger, [tx], 0);
  }

  /** An accepted block can credit a fee that nobody pays: a key change with a foreign nonce. */
  lemma {:induction false} SomeAcceptedBlockMintsAFee()
    ensures Good(Conservation.SMALL_LEDGER)
    ensures SomeBlock(Conservation.SMALL_LEDGER, [ChangePubKey(1, 7, 1, 5, 0, 32)], 0)
  {
    Conservation.ForeignNonceMintsAFee();
    assert Unpack(32) == 1;
    OneTxIsProvable(Conservation.SMALL_LEDGER, ChangePubKey(1, 7, 1, 5, 0, 32));
  }

  /** Two transfers to a new account at address zero: the account is still empty after the first, so the
      second finds its two units and replaces them. */
  const FIRST_LOSING_TX: Tx := TransferToNew(1, 0, 64, 0, 2, 0)
  const SECOND_LOSING_TX: Tx := TransferToNew(1, 0, 32, 0, 2, 0)
  const LOSING_TXS: seq<Tx> := [FIRST_LOSING_TX, SECOND_LOSING_TX]

  lemma {:induction false} RunOfTwo(x: Tx, y: Tx, ledger: Accounts, token: nat)
    requires Good(ledger) && CanExecute(x, ledger) && CanExecute(y, Execute(x, ledger)) && !x.ChangePubKey? && !y.ChangePubKey?
    ensures CanExecuteAll([x, y], ledger) && ExecuteAll([x, y], ledger) == Execute(y, Execute(x, ledger))
    ensures Conservation.AllOverwritten([x, y], ledger, token)
         == Conservation.Overwritten(x, ledger, token) + Conservation.Overwritten(y, Execute(x, ledger), token)
    ensures Conservation.NoncesMatch([x, y], ledger, token)
  {
    assert FirstOk(x, ledger) && FirstOk(y, Execute(x, ledger));
    hide CanExecute, Execute, GoodAccount, Conservation.Overwritten, FirstOk;
    var mid := Execute(x, ledger);
    var after := Execute(y, mid);
    assert [x, y][1..] == [y] && [y][1..] == [];
    assert CanExecuteAll([], after) && ExecuteAll([], after) == after;
    assert Conservation.AllOverwritten([], after, token) == 0 && Conservation.NoncesMatch([], after, token);
    assert CanExecuteAll([y], mid) && ExecuteAll([y], mid) == after;
    assert Conservation.AllOverwritten([y], mid, token) == Conservation.Overwritten(y, mid, token);
    assert Conservation.NoncesMatch([y], mid, token);
  }

  /** The first transfer leaves two units in an account that is still empty. */
  lemma {:induction false} FirstLosingTx()
    ensures Good(Conservation.SMALL_LEDGER) && CanExecute(FIRST_LOSING_TX, Conservation.SMALL_LEDGER)
    ensures var mid := Execute(FIRST_LOSING_TX, Conservation.SMALL_LEDGER);
            && mid[0] == Account(0, 0, 0, Conservation.NO_BALANCES)
            && mid[1] == Account(1, 0, 1, Conservation.NO_BALANCES[0 := 8])
            && mid[2] == Account(0, 0, 0, Conservation.NO_BALANCES[0 := 2])
    ensures Conservation.Overwritten(FIRST_LOSING_TX, Conservation.SMALL_LEDGER, 0) == 0
  {
    Conservation.SmallLedgerIsGood();
    assert Unpack(64) == 2 && Unpack(0) == 0;
  }

  /** The second one finds and replaces them. */
  lemma {:induction false} SecondLosingTx(mid: Accounts)
    requires Good(mid) && mid[1] == Account(1, 0, 1, Conservation.NO_BALANCES[0 := 8])
    requires mid[2] == Account(0, 0, 0, Conservation.NO_BALANCES[0 := 2])
    ensures CanExecute(SECOND_LOSING_TX, mid) && Execute(SECOND_LOSING_TX, mid)[0] == mid[0]
    ensures Conservation.Overwritten(SECOND_LOSING_TX, mid, 0) == 2
  {
    assert Unpack(32) == 1 && Unpack(0) == 0;
  }

  lemma {:induction false} LosingRun()
    ensures Good(Conservation.SMALL_LEDGER) && Conservation.EmptyHoldNothing(Conservation.SMALL_LEDGER)
    ensures CanExecuteAll(LOSING_TXS, Conservation.SMALL_LEDGER)
    ensures ExecuteAll(LOSING_TXS, Conservation.SMALL_LEDGER)[0].balances == Conservation.NO_BALANCES
    ensures Conservation.AllOverwritten(LOSING_TXS, Conservation.SMALL_LEDGER, 0) == 2
    ensures Conservation.NoncesMatch(LOSING_TXS, Conservation.SMALL_LEDGER, 0)
  {
    assert LOSING_TXS == [FIRST_LOSING_TX, SECOND_LOSING_TX] && !FIRST_LOSING_TX.ChangePubKey? && !SECOND_LOSING_TX.ChangePubKey?;
    hide *;
    Conservation.SmallLedgerIsGood();
    FirstLosingTx();
    SecondLosingTx(Execute(FIRST_LOSING_TX, Conservation.SMALL_LEDGER));
    RunOfTwo(FIRST_LOSING_TX, SECOND_LOSING_TX, Conservation.SMALL_LEDGER, 0);
  }

  lemma {:induction false} LosingRunIsProvable()
    requires Good(Conservation.SMALL_LEDGER) && CanExecuteAll(LOSING_TXS, Conservation.SMALL_LEDGER)
    requires ExecuteAll(LOSING_TXS, Conservation.SMALL_LEDGER)[0].balances == Conservation.NO_BALANCES
    ensures Provable(Conservation.SMALL_LEDGER, LOSING_TXS, 0)
  {
    var txs := LOSING_TXS;
    assert Unpack(0) == 0;
    assert txs[1..] == [txs[1]] && txs[1..][1..] == [];
    assert AllFit(txs);
    hide TxFits, CanExecuteAll, ExecuteAll, Good;
    assert ChunkCount([]) == 0 && ChunkCount([SECOND_LOSING_TX]) == 6 && ChunkCount(txs) == 12;
    forall t | 0 <= t < PROCESSABLE_TOKENS
      ensures FeesIn(txs, t) == 0
    {
      assert FeesIn([], t) == 0 && FeesIn([SECOND_LOSING_TX], t) == 0;
    }
    assert ValidatorReady(ExecuteAll(txs, Conservation.SMALL_LEDGER), 0, txs);
  }

  lemma {:induction false} NothingEntersOrLeaves(txs: seq<Tx>)
    requires |txs| == 2 && txs[0].TransferToNew? && txs[1].TransferToNew?
    ensures Conservation.AllExited(txs, 0) == 0 && Conservation.AllDeposited(txs, 0) == 0
  {
    assert txs[1..] == [txs[1]] && txs[1..][1..] == [];
    assert Conservation.AllExited(txs[1..], 0) == 0 && Conservation.AllDeposited(txs[1..], 0) == 0;
  }

  /** The block executes and leaves this much less of the token. */
  predicate Loses(block: Block, ledger: Accounts, token: nat, amount: nat)
    requires Good(ledger) && token < TOKENS
  {
    && CanExecuteAll(TxsOf(block.ops), ledger) && Good(LedgerAfter(block, ledger))
    && Conservation.Total(LedgerAfter(block, ledger), token) + amount == Conservation.Total(ledger, token)
  }

  /** A block that only moves a token loses exactly what it overwrites. */
  lemma {:induction false} LosesOverwritten(block: Block, commitment: Commitment, ledger: Accounts, txs: seq<Tx>, validator: nat, token: nat)
    requires Good(ledger) && BlockRuns(block, commitment, ledger, txs, validator) && token < PROCESSABLE_TOKENS
    requires CanExecuteAll(txs, ledger) && Conservation.NoncesMatch(txs, ledger, token)
    requires Conservation.AllExited(txs, token) == 0 && Conservation.AllDeposited(txs, token) == 0
    ensures Loses(block, ledger, token, Conservation.AllOverwritten(txs, ledger, token))
  {
    hide BlockAccepted, LedgerRoot, FullRoot, TxsOf, CanExecuteAll, LedgerAfter, GoodAccount, Conservation.Total,
      Conservation.AllExited, Conservation.AllDeposited, Conservation.AllMinted, Conservation.AllOverwritten, Conservation.NoncesMatch;
    Conservation.NothingMintedIff(txs, ledger, token);
    Conservation.BlockBalance(block, commitment, ledger, token);
  }

  /** From a ledger whose empty accounts hold nothing an accepted block can lose a balance: such a block
      exists, and each such block is two units short. */
  lemma {:induction false} SomeAcceptedBlockLosesABalance()
    ensures Good(Conservation.SMALL_LEDGER) && Conservation.EmptyHoldNothing(Conservation.SMALL_LEDGER)
    ensures SomeBlock(Conservation.SMALL_LEDGER, LOSING_TXS, 0)
    ensures forall block: Block, commitment: Commitment :: BlockRuns(block, commitment, Conservation.SMALL_LEDGER, LOSING_TXS, 0) ==>
              Loses(block, Conservation.SMALL_LEDGER, 0, 2)
  {
    LosingRun();
    LosingRunIsProvable();
    NothingEntersOrLeaves(LOSING_TXS);
    hide *;
    AcceptedIffExecutable(Conservation.SMALL_LEDGER, LOSING_TXS, 0);
    forall block: Block, commitment: Commitment | BlockRuns(block, commitment, Conservation.SMALL_LEDGER, LOSING_TXS, 0)
      ensures Loses(block, Conservation.SMALL_LEDGER, 0, 2)
    {
      LosesOverwritten(block, commitment, Conservation.SMALL_LEDGER, LOSING_TXS, 0, 0);
    }
  }
}
