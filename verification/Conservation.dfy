/** Where the money of a token is before and after a block.

    The exact balance sheet has two entries nobody asked for: a key change whose published nonce is
    not the account's collects its fee without charging it (`Minted`), and a transfer to a new account
    replaces whatever the empty account held (`Overwritten`). Without them value is conserved. */
module Conservation {
  import opened Params
  import opened PrimeField
  import opened Witness
  import opened BlockSpec
  import opened Ledger
  import opened Transactions
  import opened Soundness

  predicate Sized(accounts: seq<Account>) {
    forall i :: 0 <= i < |accounts| ==> |accounts[i].balances| == TOKENS
  }

  /** All balances of a token. */
  function Total(accounts: seq<Account>, token: nat): nat
    requires Sized(accounts) && token < TOKENS
  {
    if accounts == [] then 0 else accounts[0].balances[token] + Total(accounts[1..], token)
  }

  lemma {:induction false} TotalUpdate(accounts: seq<Account>, i: nat, a: Account, token: nat)
    requires Sized(accounts) && token < TOKENS && i < |accounts| && |a.balances| == TOKENS
    ensures Sized(accounts[i := a])
    ensures Total(accounts[i := a], token) + accounts[i].balances[token] == Total(accounts, token) + a.balances[token]
  {
    var updated := accounts[i := a];
    if i == 0 {
      assert updated[1..] == accounts[1..];
    } else {
      TotalUpdate(accounts[1..], i - 1, a, token);
      assert updated[1..] == accounts[1..][i - 1 := a];
    }
  }

  function Deposited(tx: Tx, token: nat): nat {
    if tx.Deposit? && tx.token == token then tx.amount else 0
  }

  /** Withdrawals, full exits and forced exits. */
  function Exited(tx: Tx, token: nat): nat {
    if (tx.Withdraw? || tx.FullExit? || tx.ForcedExit?) && tx.token == token then tx.amount else 0
  }

  function Charged(tx: Tx, token: nat): nat {
    if TokenOf(tx) == token then FeeOf(tx) else 0
  }

  /** A fee that is collected although no account pays it. */
  function Minted(tx: Tx, ledger: Accounts, token: nat): nat
    requires Good(ledger)
  {
    if tx.ChangePubKey? && !KeyChangeApplies(tx, ledger[Slot(tx.account)]) then Charged(tx, token) else 0
  }

  /** A balance that is replaced although nobody withdrew it. */
  function Overwritten(tx: Tx, ledger: Accounts, token: nat): nat
    requires Good(ledger) && FirstOk(tx, ledger)
  {
    if tx.TransferToNew? && tx.token == token then AfterFirst(tx, ledger)[Slot(tx.to)].balances[token] else 0
  }

  /** The balance sheet of one operation. */
  lemma {:induction false} OperationBalance(tx: Tx, ledger: Accounts, token: nat)
    requires Good(ledger) && CanExecute(tx, ledger) && token < TOKENS
    ensures Total(Execute(tx, ledger), token) + Exited(tx, token) + Charged(tx, token) + Overwritten(tx, ledger, token)
         == Total(ledger, token) + Deposited(tx, token) + Minted(tx, ledger, token)
  {
    hide Total, Unpack;
    var i := Slot(FirstAccount(tx));
    TotalUpdate(ledger, i, FirstEffect(tx, ledger[i]), token);
    if TwoSided(tx) {
      var mid, j := AfterFirst(tx, ledger), Slot(SecondAccount(tx));
      TotalUpdate(mid, j, SecondEffect(tx, mid[j]), token);
    }
  }

  // ----- sums over a block

  function AllDeposited(txs: seq<Tx>, token: nat): nat {
    if txs == [] then 0 else Deposited(txs[0], token) + AllDeposited(txs[1..], token)
  }

  function AllExited(txs: seq<Tx>, token: nat): nat {
    if txs == [] then 0 else Exited(txs[0], token) + AllExited(txs[1..], token)
  }

  function AllMinted(txs: seq<Tx>, ledger: Accounts, token: nat): nat
    requires Good(ledger) && CanExecuteAll(txs, ledger)
  {
    if txs == [] then 0 else Minted(txs[0], ledger, token) + AllMinted(txs[1..], Execute(txs[0], ledger), token)
  }

  function AllOverwritten(txs: seq<Tx>, ledger: Accounts, token: nat): nat
    requires Good(ledger) && CanExecuteAll(txs, ledger)
  {
    if txs == [] then 0 else Overwritten(txs[0], ledger, token) + AllOverwritten(txs[1..], Execute(txs[0], ledger), token)
  }

  lemma {:induction false} RunBalance(txs: seq<Tx>, ledger: Accounts, token: nat)
    requires Good(ledger) && CanExecuteAll(txs, ledger) && token < TOKENS
    ensures Total(ExecuteAll(txs, ledger), token) + AllExited(txs, token) + FeesIn(txs, token) + AllOverwritten(txs, ledger, token)
         == Total(ledger, token) + AllDeposited(txs, token) + AllMinted(txs, ledger, token)
    decreases |txs|
  {
    hide Total, CanExecute, Execute, Good, Minted, Overwritten, Exited, Deposited, TokenOf, FeeOf;
    if txs != [] {
      OperationBalance(txs[0], ledger, token);
      RunBalance(txs[1..], Execute(txs[0], ledger), token);
    }
  }

  lemma {:induction false} CreditBalance(ledger: Accounts, validator: nat, txs: seq<Tx>, token: nat)
    requires Good(ledger) && token < TOKENS
    ensures Sized(CreditFees(ledger, validator, txs))
    ensures Total(CreditFees(ledger, validator, txs), token)
         == Total(ledger, token) + (if token < PROCESSABLE_TOKENS then FeesIn(txs, token) else 0)
  {
    hide Total;
    var i := Slot(validator);
    TotalUpdate(ledger, i, CreditFees(ledger, validator, txs)[i], token);
  }

  /** The balance sheet of a list of operations from one ledger to the next: only the fees in token 128,
      which no entry of the fee vector covers, leave without being credited. */
  predicate Balanced(txs: seq<Tx>, ledger: Accounts, after: Accounts, token: nat)
    requires Good(ledger) && CanExecuteAll(txs, ledger) && Sized(after) && token < TOKENS
  {
    Total(after, token) + AllExited(txs, token) + AllOverwritten(txs, ledger, token)
      + (if token < PROCESSABLE_TOKENS then 0 else FeesIn(txs, token))
      == Total(ledger, token) + AllDeposited(txs, token) + AllMinted(txs, ledger, token)
  }

  /** The exact balance sheet of an accepted block, for every token. */
  lemma {:induction false} BlockBalance(block: Block, commitment: Commitment, ledger: Accounts, token: nat)
    requires BlockAccepted(block, commitment) && |block.ops| < 0x1_0000_0000_0000_0000 && token < TOKENS
    requires Good(ledger) && block.oldRoot == FullRoot(LedgerRoot(ledger))
    ensures CanExecuteAll(TxsOf(block.ops), ledger) && Good(LedgerAfter(block, ledger))
    ensures Balanced(TxsOf(block.ops), ledger, LedgerAfter(block, ledger), token)
  {
    hide BlockAccepted, Total, LedgerRoot, FullRoot, TxsOf, FeesIn, AllExited, AllDeposited, AllMinted, AllOverwritten, ExecuteAll, CanExecuteAll, CreditFees, GoodAccount;
    LedgerSoundness(block, commitment, ledger);
    var txs := TxsOf(block.ops);
    RunBalance(txs, ledger, token);
    CreditBalance(ExecuteAll(txs, ledger), block.validator.id, txs, token);
  }

  // ----- when nothing is minted and nothing is lost

  /** Every key change that costs something in this token names the account's own nonce. */
  predicate NoncesMatch(txs: seq<Tx>, ledger: Accounts, token: nat)
    requires Good(ledger) && CanExecuteAll(txs, ledger)
  {
    txs != [] ==>
    && (txs[0].ChangePubKey? && Charged(txs[0], token) != 0 ==> KeyChangeApplies(txs[0], ledger[Slot(txs[0].account)]))
    && NoncesMatch(txs[1..], Execute(txs[0], ledger), token)
  }

  lemma {:induction false} NothingMintedIff(txs: seq<Tx>, ledger: Accounts, token: nat)
    requires Good(ledger) && CanExecuteAll(txs, ledger)
    ensures AllMinted(txs, ledger, token) == 0 <==> NoncesMatch(txs, ledger, token)
    decreases |txs|
  {
    hide CanExecute, Execute, Good, Charged, KeyChangeApplies;
    if txs != [] {
      NothingMintedIff(txs[1..], Execute(txs[0], ledger), token);
    }
  }

  /** Every transfer to a new account in this token finds none of it there. */
  predicate TargetsHoldNothing(txs: seq<Tx>, ledger: Accounts, token: nat)
    requires Good(ledger) && CanExecuteAll(txs, ledger) && token < TOKENS
  {
    txs != [] ==>
    && (txs[0].TransferToNew? && txs[0].token == token ==> ledger[Slot(txs[0].to)].balances[token] == 0)
    && TargetsHoldNothing(txs[1..], Execute(txs[0], ledger), token)
  }

  /** What is overwritten is what the new account's entry held before the whole transfer. */
  lemma {:induction false} OverwrittenBefore(tx: Tx, ledger: Accounts, token: nat)
    requires Good(ledger) && CanExecute(tx, ledger) && token < TOKENS
    ensures Overwritten(tx, ledger, token) == if tx.TransferToNew? && tx.token == token then ledger[Slot(tx.to)].balances[token] else 0
  {
    hide Unpack, GoodAccount;
  }

  lemma {:induction false} NothingOverwrittenIff(txs: seq<Tx>, ledger: Accounts, token: nat)
    requires Good(ledger) && CanExecuteAll(txs, ledger) && token < TOKENS
    ensures AllOverwritten(txs, ledger, token) == 0 <==> TargetsHoldNothing(txs, ledger, token)
    decreases |txs|
  {
    hide CanExecute, Execute, GoodAccount, Overwritten;
    if txs != [] {
      OverwrittenBefore(txs[0], ledger, token);
      NothingOverwrittenIff(txs[1..], Execute(txs[0], ledger), token);
    }
  }

  /** Accounts without nonce, key and address hold nothing. */
  predicate EmptyHoldNothing(ledger: Accounts)
    requires Good(ledger)
  {
    forall i, t :: 0 <= i < ACCOUNTS && 0 <= t < TOKENS && EmptyAccount(ledger[i]) ==> ledger[i].balances[t] == 0
  }

  predicate NewAddressesSet(txs: seq<Tx>) {
    forall i :: 0 <= i < |txs| && txs[i].TransferToNew? ==> txs[i].toAddress != 0
  }

  lemma {:induction false} FirstKeepsEmpty(tx: Tx, ledger: Accounts)
    requires Good(ledger) && FirstOk(tx, ledger) && EmptyHoldNothing(ledger)
    ensures EmptyHoldNothing(AfterFirst(tx, ledger))
  {
    hide Unpack;
    var i, mid := Slot(FirstAccount(tx)), AfterFirst(tx, ledger);
    forall k, t | 0 <= k < ACCOUNTS && 0 <= t < TOKENS && EmptyAccount(mid[k])
      ensures mid[k].balances[t] == 0
    {
      if k == i {
        assert EmptyAccount(ledger[i]);
        assert ledger[i].balances[t] == 0;
      }
    }
  }

  /** An operation keeps empty accounts empty-handed, unless it opens an account at address zero. */
  lemma {:induction false} OperationKeepsEmpty(tx: Tx, ledger: Accounts)
    requires Good(ledger) && CanExecute(tx, ledger) && EmptyHoldNothing(ledger)
    requires tx.TransferToNew? ==> tx.toAddress != 0
    ensures EmptyHoldNothing(Execute(tx, ledger)) && forall t: nat :: t < TOKENS ==> Overwritten(tx, ledger, t) == 0
  {
    hide Unpack;
    FirstKeepsEmpty(tx, ledger);
    var mid, r := AfterFirst(tx, ledger), Execute(tx, ledger);
    if TwoSided(tx) {
      var j := Slot(SecondAccount(tx));
      forall k, t | 0 <= k < ACCOUNTS && 0 <= t < TOKENS && EmptyAccount(r[k])
        ensures r[k].balances[t] == 0
      {
        if k == j { assert false; }
      }
    }
  }

  /** So from a ledger whose empty accounts hold nothing no balance is lost as long as new accounts get an
      address. */
  lemma {:induction false} TargetsAreEmptyHanded(txs: seq<Tx>, ledger: Accounts, token: nat)
    requires Good(ledger) && CanExecuteAll(txs, ledger) && EmptyHoldNothing(ledger) && NewAddressesSet(txs) && token < TOKENS
    ensures TargetsHoldNothing(txs, ledger, token)
    decreases |txs|
  {
    hide CanExecute, Execute, GoodAccount, EmptyHoldNothing, Overwritten;
    if txs != [] {
      OperationKeepsEmpty(txs[0], ledger);
      OverwrittenBefore(txs[0], ledger, token);
      TargetsAreEmptyHanded(txs[1..], Execute(txs[0], ledger), token);
    }
  }

  /** The value of a token after a block is what it was, with the deposits and without what left. */
  predicate Kept(block: Block, ledger: Accounts, token: nat)
    requires Good(ledger) && CanExecuteAll(TxsOf(block.ops), ledger) && Good(LedgerAfter(block, ledger)) && token < TOKENS
  {
    Total(LedgerAfter(block, ledger), token) + AllExited(TxsOf(block.ops), token)
      == Total(ledger, token) + AllDeposited(TxsOf(block.ops), token)
  }

  predicate NothingCreated(block: Block, ledger: Accounts, token: nat)
    requires Good(ledger) && CanExecuteAll(TxsOf(block.ops), ledger) && Good(LedgerAfter(block, ledger)) && token < TOKENS
  {
    Total(LedgerAfter(block, ledger), token) + AllExited(TxsOf(block.ops), token)
      <= Total(ledger, token) + AllDeposited(TxsOf(block.ops), token)
  }

  /** Conservation: if every key change that costs something names its account's nonce, an accepted
      block never creates value in a processable token, and it keeps every unit if and only if every
      transfer to a new account finds none of the token there. */
  lemma {:induction false} ValueIsConserved(block: Block, commitment: Commitment, ledger: Accounts, token: nat)
    requires BlockAccepted(block, commitment) && |block.ops| < 0x1_0000_0000_0000_0000 && token < PROCESSABLE_TOKENS
    requires Good(ledger) && block.oldRoot == FullRoot(LedgerRoot(ledger))
    ensures CanExecuteAll(TxsOf(block.ops), ledger) && Good(LedgerAfter(block, ledger))
    ensures var txs := TxsOf(block.ops);
            NoncesMatch(txs, ledger, token) ==>
              && NothingCreated(block, ledger, token)
              && (Kept(block, ledger, token) <==> TargetsHoldNothing(txs, ledger, token))
    ensures EmptyHoldNothing(ledger) && NewAddressesSet(TxsOf(block.ops)) ==> TargetsHoldNothing(TxsOf(block.ops), ledger, token)
  {
    hide BlockAccepted, Total, LedgerRoot, FullRoot, TxsOf, AllExited, AllDeposited, AllMinted, AllOverwritten, CanExecuteAll, LedgerAfter,
      GoodAccount, NoncesMatch, EmptyHoldNothing, TargetsHoldNothing;
    BlockBalance(block, commitment, ledger, token);
    var txs := TxsOf(block.ops);
    NothingMintedIff(txs, ledger, token);
    NothingOverwrittenIff(txs, ledger, token);
    if EmptyHoldNothing(ledger) && NewAddressesSet(txs) {
      TargetsAreEmptyHanded(txs, ledger, token);
    }
  }

  /** The same the other way round: where no balance is overwritten, a block creates no value in a token
      exactly when its paid key changes name their accounts' nonces, and then it keeps every unit. */
  lemma {:induction false} NothingCreatedIff(block: Block, commitment: Commitment, ledger: Accounts, token: nat)
    requires BlockAccepted(block, commitment) && |block.ops| < 0x1_0000_0000_0000_0000 && token < PROCESSABLE_TOKENS
    requires Good(ledger) && block.oldRoot == FullRoot(LedgerRoot(ledger))
    ensures CanExecuteAll(TxsOf(block.ops), ledger) && Good(LedgerAfter(block, ledger))
    ensures var txs := TxsOf(block.ops);
            TargetsHoldNothing(txs, ledger, token) ==>
              && (NothingCreated(block, ledger, token) <==> NoncesMatch(txs, ledger, token))
              && (Kept(block, ledger, token) <==> NoncesMatch(txs, ledger, token))
  {
    hide BlockAccepted, Total, LedgerRoot, FullRoot, TxsOf, AllExited, AllDeposited, AllMinted, AllOverwritten, CanExecuteAll, LedgerAfter,
      GoodAccount, NoncesMatch, TargetsHoldNothing;
    BlockBalance(block, commitment, ledger, token);
    var txs := TxsOf(block.ops);
    NothingMintedIff(txs, ledger, token);
    NothingOverwrittenIff(txs, ledger, token);
  }

  // ----- the two entries do occur

  const NO_BALANCES: seq<nat> := seq(TOKENS, _ => 0)

  /** Account 1 has an address and ten units of token 0; everything else is empty. */
  const SMALL_LEDGER: Accounts :=
    seq(ACCOUNTS, i => if i == 1 then Account(0, 0, 1, NO_BALANCES[0 := 10]) else Account(0, 0, 0, NO_BALANCES))

  lemma {:induction false} SmallLedgerIsGood()
    ensures Good(SMALL_LEDGER) && EmptyHoldNothing(SMALL_LEDGER)
  {
    forall i | 0 <= i < ACCOUNTS
      ensures GoodAccount(SMALL_LEDGER[i]) {}
  }

  /** A key change with a foreign nonce and a fee of one unit: nothing is charged, one unit is
      collected. */
  lemma {:induction false} ForeignNonceMintsAFee()
    ensures Good(SMALL_LEDGER)
    ensures var tx := ChangePubKey(1, 7, 1, 5, 0, 32);
            && CanExecute(tx, SMALL_LEDGER) && Execute(tx, SMALL_LEDGER) == SMALL_LEDGER
            && Charged(tx, 0) == 1 && !NoncesMatch([tx], SMALL_LEDGER, 0)
  {
    SmallLedgerIsGood();
    var tx := ChangePubKey(1, 7, 1, 5, 0, 32);
    assert Unpack(32) == 1;
    assert Execute(tx, SMALL_LEDGER) == SMALL_LEDGER;
    assert CanExecuteAll([tx], SMALL_LEDGER);
  }

  /** An empty account that holds something loses it to the next transfer to it. */
  lemma {:induction false} TransferToNewLosesABalance()
    ensures var ledger := SMALL_LEDGER[2 := Account(0, 0, 0, NO_BALANCES[0 := 5])];
            var tx := TransferToNew(1, 0, 32, 9, 2, 0);
            && Good(ledger) && CanExecute(tx, ledger) && Overwritten(tx, ledger, 0) == 5
            && Total(Execute(tx, ledger), 0) + 5 == Total(ledger, 0)
  {
    SmallLedgerIsGood();
    var ledger := SMALL_LEDGER[2 := Account(0, 0, 0, NO_BALANCES[0 := 5])];
    var tx := TransferToNew(1, 0, 32, 9, 2, 0);
    assert Unpack(32) == 1 && Unpack(0) == 0;
    OperationBalance(tx, ledger, 0);
  }
}
