/** What the server's blocks do to value: they create none and lose none. */
module ServerValue {
  import opened Common
  import opened Params
  import opened Amounts
  import opened PrimeField
  import opened Ledger
  import opened Transactions
  import opened Soundness
  import opened Conservation
  import opened ServerState
  import opened ServerCircuit
  import opened ServerBlocks
  import Completeness
  import W = WalletMessages

  // ----- what the server holds

  /** All balances of a token in the accounts below `n`. */
  function HeldBelow(s: Snapshot, n: nat, token: nat): nat {
    if n == 0 then 0 else HeldBelow(s, n - 1, token) + if n - 1 in s.accounts then GetBalance(s.accounts[n - 1], token) else 0
  }

  function Held(s: Snapshot, token: nat): nat {
    HeldBelow(s, |s.accounts|, token)
  }

  lemma {:induction false} TotalOfMore(accounts: seq<Account>, a: Account, token: nat)
    requires Sized(accounts) && |a.balances| == TOKENS && token < TOKENS
    ensures Sized(accounts + [a]) && Total(accounts + [a], token) == Total(accounts, token) + a.balances[token]
  {
    if accounts == [] {
      assert [] + [a] == [a] && [a][1..] == [];
    } else {
      TotalOfMore(accounts[1..], a, token);
      assert (accounts + [a])[0] == accounts[0] && (accounts + [a])[1..] == accounts[1..] + [a];
    }
  }

  lemma {:induction false} EntryHolds(s: Snapshot, id: nat, token: nat)
    requires id < ACCOUNTS && token < TOKENS
    ensures |LedgerOf(s)| == ACCOUNTS && |LedgerOf(s)[id].balances| == TOKENS
    ensures LedgerOf(s)[id].balances[token] == if id in s.accounts then GetBalance(s.accounts[id], token) else 0
  {
    EntryOf(s, id);
    NothingEmpty(token);
    hide GetBalance, LedgerOf;
  }

  lemma {:induction false} SizedTo(s: Snapshot, n: nat)
    requires n <= ACCOUNTS
    ensures |LedgerOf(s)| == ACCOUNTS && Sized(LedgerOf(s)[..n])
  {
    hide GetBalance;
    var ledger := LedgerOf(s);
    forall i | 0 <= i < |ledger[..n]|
      ensures |ledger[..n][i].balances| == TOKENS
    {
      EntryHolds(s, i, 0);
    }
  }

  lemma {:induction false} HeldMore(s: Snapshot, n: nat, token: nat)
    ensures n > 0 ==> HeldBelow(s, n, token) == HeldBelow(s, n - 1, token) + if n - 1 in s.accounts then GetBalance(s.accounts[n - 1], token) else 0
    ensures HeldBelow(s, 0, token) == 0
  {
    hide GetBalance;
  }

  lemma {:induction false} Longer(ledger: seq<Account>, n: nat)
    requires 0 < n <= |ledger|
    ensures ledger[..n] == ledger[..n - 1] + [ledger[n - 1]]
  {
  }

  lemma {:induction false} NoTotal(ledger: seq<Account>, token: nat)
    requires token < TOKENS
    ensures Sized(ledger[..0]) && Total(ledger[..0], token) == 0
  {
  }

  lemma {:induction false} TotalBelow(s: Snapshot, n: nat, token: nat)
    requires token < TOKENS && n <= ACCOUNTS
    ensures Sized(LedgerOf(s)[..n]) && Total(LedgerOf(s)[..n], token) == HeldBelow(s, n, token)
  {
    hide *;
    SizedTo(s, n);
    HeldMore(s, n, token);
    var ledger := LedgerOf(s);
    if n > 0 {
      TotalBelow(s, n - 1, token);
      EntryHolds(s, n - 1, token);
      Longer(ledger, n);
      TotalOfMore(ledger[..n - 1], ledger[n - 1], token);
    } else {
      NoTotal(ledger, token);
    }
  }

  lemma {:induction false} NoneAbove(s: Snapshot, n: nat, token: nat)
    requires |s.accounts| <= n && forall id: nat :: id in s.accounts <==> id < |s.accounts|
    ensures HeldBelow(s, n, token) == HeldBelow(s, |s.accounts|, token)
    decreases n
  {
    hide *;
    if n > |s.accounts| {
      HeldMore(s, n, token);
      NoneAbove(s, n - 1, token);
    }
  }

  lemma {:induction false} NoGaps(s: Snapshot)
    requires Consistent(s)
    ensures forall id: nat :: id in s.accounts <==> id < |s.accounts|
  {
  }

  /** The ledger behind the state holds what the state holds. */
  lemma {:induction false} LedgerHolds(s: Snapshot, token: nat)
    requires Consistent(s) && |s.accounts| <= ACCOUNTS && token < TOKENS
    ensures Sized(LedgerOf(s)) && Total(LedgerOf(s), token) == Held(s, token)
  {
    NoGaps(s);
    TotalBelow(s, ACCOUNTS, token);
    NoneAbove(s, ACCOUNTS, token);
    hide Consistent, HeldBelow, Total, LedgerOf, Sized;
    assert LedgerOf(s)[..ACCOUNTS] == LedgerOf(s);
  }

  // ----- the server makes no operation that mints or overwrites

  /** Accounts without nonce, key and address hold nothing. */
  predicate EmptyHandless(s: Snapshot) {
    forall id, t :: id in s.accounts && EmptyServerAccount(s.accounts[id]) && 0 <= t < TOKENS ==> GetBalance(s.accounts[id], t) == 0
  }

  lemma {:induction false} EmptyIs(s: Snapshot)
    requires Good(LedgerOf(s)) && forall id :: id in s.accounts ==> id < ACCOUNTS
    ensures EmptyHoldNothing(LedgerOf(s)) <==> EmptyHandless(s)
  {
    var ledger := LedgerOf(s);
    hide GoodAccount;
    if EmptyHoldNothing(ledger) {
      forall id, t | id in s.accounts && EmptyServerAccount(s.accounts[id]) && 0 <= t < TOKENS
        ensures GetBalance(s.accounts[id], t) == 0
      {
        assert ledger[id] == Entry(s.accounts[id]) && EmptyAccount(ledger[id]);
        assert ledger[id].balances[t] == 0;
      }
    }
    if EmptyHandless(s) {
      forall i, t | 0 <= i < ACCOUNTS && 0 <= t < TOKENS && EmptyAccount(ledger[i])
        ensures ledger[i].balances[t] == 0
      {
        assert ledger[i] == Entry(if i in s.accounts then s.accounts[i] else EMPTY);
      }
    }
  }

  lemma {:induction false} CreatedReceiver(s: Snapshot, w: W.WalletTx, signer: Option<nat>)
    requires Consistent(s) && w.TransferTx? && CreateTransfer(s, w, signer).Op?
    ensures var op := CreateTransfer(s, w, signer).op; op.TransferToNew? ==> op.toAddress == w.toAddress != 0
  {
    hide PackedNumber;
  }

  /** A new account gets an address, and an executed key change names the nonce of its account. */
  lemma {:induction false} DoneIsHonest(s: Snapshot, r: Request)
    requires Consistent(s) && Perform(s, r).Done? && WithinLimits(s, Perform(s, r).op)
    ensures var op := Perform(s, r).op;
            && (op.TransferToNew? ==> op.toAddress != 0)
            && (op.ChangePubKey? ==> op.account in s.accounts && op.nonce == s.accounts[op.account].nonce != MAX_NONCE)
  {
    hide *;
    PerformMeans(s, r);
    var op := Perform(s, r).op;
    NamesMeans(s, op);
    if op.TransferToNew? || op.ChangePubKey? {
      if r.SignedRequest? {
        HasNumbersKind(op, r.w);
        if op.TransferToNew? {
          CreatedIsTransfer(s, r);
          CreatedReceiver(s, r.w, r.signer);
        } else {
          KeyChangeIsDone(s, op, r.w);
        }
      } else {
        CreatedRequest(s, r);
      }
    }
  }

  lemma {:induction false} KeyChangeIsDone(s: Snapshot, op: Tx, w: W.WalletTx)
    requires op.ChangePubKey? && w.ChangePubKeyTx? && op.account in s.accounts && ApplyChangePubKey(s, op, w).Done?
    requires HasNumbers(op, w) && WithinLimits(s, op)
    ensures op.nonce == s.accounts[op.account].nonce != MAX_NONCE
  {
    hide PackedNumber, Insert, Payer;
  }

  lemma {:induction false} KeyChangeIsPaid(s: Snapshot, op: Tx)
    requires op.ChangePubKey? && op.account in s.accounts && op.account < ACCOUNTS
    requires op.nonce == s.accounts[op.account].nonce != MAX_NONCE
    ensures KeyChangeApplies(op, LedgerOf(s)[Slot(op.account)])
  {
    EntryOf(s, op.account);
  }

  lemma {:induction false} HonestFirst(tx: Tx, txs: seq<Tx>, ledger: Accounts, next: Accounts, token: nat)
    requires Good(ledger) && CanExecute(tx, ledger) && next == Execute(tx, ledger) && CanExecuteAll(txs, next)
    requires tx.ChangePubKey? ==> KeyChangeApplies(tx, ledger[Slot(tx.account)])
    requires tx.TransferToNew? ==> tx.toAddress != 0
    requires NoncesMatch(txs, next, token) && NewAddressesSet(txs)
    ensures CanExecuteAll([tx] + txs, ledger) && NoncesMatch([tx] + txs, ledger, token) && NewAddressesSet([tx] + txs)
  {
    hide CanExecute, Execute, GoodAccount, KeyChangeApplies, Charged;
    assert ([tx] + txs)[0] == tx && ([tx] + txs)[1..] == txs;
  }

  lemma {:induction false} RunIsHonest(s: Snapshot, requests: seq<Request>, token: nat)
    requires Runs(s, requests) && Good(LedgerOf(s))
    ensures CanExecuteAll(OpsOf(s, requests), LedgerOf(s))
    ensures NoncesMatch(OpsOf(s, requests), LedgerOf(s), token) && NewAddressesSet(OpsOf(s, requests))
    decreases |requests|
  {
    if requests == [] {
      hide LedgerOf, GoodAccount;
    } else {
      hide *;
      RunsMeans(s, requests);
      var r, done := requests[0], Perform(s, requests[0]);
      if done.Done? {
        CircuitAgreesIff(s, r);
        AgreedIsGood(s, done);
        RunAgrees(done.after, requests[1..]);
        RunIsHonest(done.after, requests[1..], token);
        DoneIsHonest(s, r);
        IdsAreSmall(s);
        if done.op.ChangePubKey? {
          KeyChangeIsPaid(s, done.op);
        }
        HonestFirst(done.op, OpsOf(done.after, requests[1..]), LedgerOf(s), LedgerOf(done.after), token);
      } else {
        RunIsHonest(s, requests[1..], token);
      }
    }
  }

  // ----- runs

  lemma {:induction false} RunStaysConsistent(s: Snapshot, requests: seq<Request>)
    requires Runs(s, requests) && |s.accounts| <= ACCOUNTS
    ensures Consistent(AfterAll(s, requests)) && |AfterAll(s, requests).accounts| <= ACCOUNTS
    decreases |requests|
  {
    if requests == [] {
      hide Consistent;
    } else {
      hide *;
      RunsMeans(s, requests);
      var done := Perform(s, requests[0]);
      if done.Done? {
        PerformIsConsistent(s, requests[0]);
        ContinuesMeans(s, done.after);
        RunStaysConsistent(done.after, requests[1..]);
      } else {
        RunStaysConsistent(s, requests[1..]);
      }
    }
  }

  lemma {:induction false} ContinuesMeans(s: Snapshot, after: Snapshot)
    requires Continues(s, after)
    ensures Consistent(after) && |after.accounts| <= |s.accounts| + 1
  {
    hide Consistent;
  }

  lemma {:induction false} RunKeepsEmpty(txs: seq<Tx>, ledger: Accounts)
    requires Good(ledger) && CanExecuteAll(txs, ledger) && EmptyHoldNothing(ledger) && NewAddressesSet(txs)
    ensures Good(ExecuteAll(txs, ledger)) && EmptyHoldNothing(ExecuteAll(txs, ledger))
    decreases |txs|
  {
    hide CanExecute, Execute, GoodAccount, EmptyHoldNothing, Overwritten;
    if txs != [] {
      OperationKeepsEmpty(txs[0], ledger);
      RunKeepsEmpty(txs[1..], Execute(txs[0], ledger));
    }
  }

  lemma {:induction false} HonestBalance(txs: seq<Tx>, ledger: Accounts, token: nat)
    requires Good(ledger) && CanExecuteAll(txs, ledger) && token < TOKENS
    requires NoncesMatch(txs, ledger, token) && NewAddressesSet(txs) && EmptyHoldNothing(ledger)
    ensures Total(ExecuteAll(txs, ledger), token) + AllExited(txs, token) + FeesIn(txs, token)
         == Total(ledger, token) + AllDeposited(txs, token)
  {
    hide *;
    GoodIsSized(ledger);
    NothingMintedIff(txs, ledger, token);
    TargetsAreEmptyHanded(txs, ledger, token);
    NothingOverwrittenIff(txs, ledger, token);
    RunBalance(txs, ledger, token);
  }

  lemma {:induction false} GoodIsSized(ledger: Accounts)
    requires Good(ledger)
    ensures Sized(ledger)
  {
  }

  /** Over any run of the server, what its accounts hold of a token with the fees it collected is what they held, with
      the deposits and without what left, and empty accounts go on holding nothing. */
  lemma {:induction false} ServerKeepsValue(s: Snapshot, requests: seq<Request>, token: nat)
    requires Runs(s, requests) && |s.accounts| <= ACCOUNTS && EmptyHandless(s) && token < TOKENS && Good(LedgerOf(s))
    ensures var after, ops := AfterAll(s, requests), OpsOf(s, requests);
            && Held(after, token) + SumOf(Collected(s, requests), token) + AllExited(ops, token) == Held(s, token) + AllDeposited(ops, token)
            && EmptyHandless(after)
  {
    hide *;
    var after, ops := AfterAll(s, requests), OpsOf(s, requests);
    RunIsConsistent(s, requests);
    RunAgrees(s, requests);
    RunIsHonest(s, requests, token);
    RunStaysConsistent(s, requests);
    IdsFit(s);
    IdsFit(after);
    EmptyIs(s);
    HonestBalance(ops, LedgerOf(s), token);
    RunKeepsEmpty(ops, LedgerOf(s));
    EmptyIs(after);
    CollectedIsPaid(s, requests, token);
    LedgerHolds(s, token);
    LedgerHolds(after, token);
  }

  lemma {:induction false} RunIsConsistent(s: Snapshot, requests: seq<Request>)
    requires Runs(s, requests)
    ensures Consistent(s)
  {
    hide Consistent;
  }

  lemma {:induction false} IdsFit(s: Snapshot)
    requires Consistent(s) && |s.accounts| <= ACCOUNTS
    ensures forall id :: id in s.accounts ==> id < ACCOUNTS
  {
  }

  // ----- blocks

  lemma {:induction false} HeldWith(s: Snapshot, n: nat, id: nat, a: ServerAccount, token: nat)
    requires id in s.accounts
    ensures HeldBelow(Insert(s, id, a), n, token) + (if id < n then GetBalance(s.accounts[id], token) else 0)
         == HeldBelow(s, n, token) + (if id < n then GetBalance(a, token) else 0)
  {
    hide GetBalance;
    if n > 0 {
      HeldWith(s, n - 1, id, a, token);
    }
  }

  /** The server's blocks keep value: after the fees are collected too, its accounts hold what they held, with the
      deposits and without what left. */
  lemma {:induction false} ServerBlockKeepsValue(s: Snapshot, requests: seq<Request>, feeAccount: nat, token: nat)
    requires Runs(s, requests) && |s.accounts| <= ACCOUNTS && EmptyHandless(s) && token < TOKENS && Good(LedgerOf(s))
    requires feeAccount in AfterAll(s, requests).accounts && !EmptyServerAccount(AfterAll(s, requests).accounts[feeAccount])
    ensures var after, ops := AfterBlock(s, requests, feeAccount), OpsOf(s, requests);
            && Held(after, token) + AllExited(ops, token) == Held(s, token) + AllDeposited(ops, token)
            && Consistent(after) && |after.accounts| <= ACCOUNTS && EmptyHandless(after)
  {
    hide *;
    var run, fees := AfterAll(s, requests), Collected(s, requests);
    ServerKeepsValue(s, requests, token);
    RunStaysConsistent(s, requests);
    AfterBlockIs(s, requests, feeAccount);
    FeesAreAdded(run.accounts[feeAccount], fees, token);
    FeesKeepAddress(run, fees, feeAccount);
    HeldAfterFees(run, WithFees(run.accounts[feeAccount], fees), feeAccount, token);
  }

  lemma {:induction false} HeldAfterFees(s: Snapshot, a: ServerAccount, id: nat, token: nat)
    requires Consistent(s) && id in s.accounts && |Insert(s, id, a).accounts| == |s.accounts|
    ensures Held(Insert(s, id, a), token) + GetBalance(s.accounts[id], token) == Held(s, token) + GetBalance(a, token)
  {
    HeldWith(s, |s.accounts|, id, a, token);
    hide Insert, GetBalance;
  }

  lemma {:induction false} FeesKeepAddress(s: Snapshot, fees: seq<(nat, nat)>, id: nat)
    requires Consistent(s) && id in s.accounts && EmptyHandless(s) && !EmptyServerAccount(s.accounts[id])
    ensures var after := Insert(s, id, WithFees(s.accounts[id], fees));
            && Consistent(after) && EmptyHandless(after) && |after.accounts| == |s.accounts|
  {
    hide GetBalance, WithFees, Consistent, Insert;
    var a := WithFees(s.accounts[id], fees);
    FeesAreAdded(s.accounts[id], fees, 0);
    Replaced(s, id, a);
    Inserted(s, id, a);
  }

  // ----- from genesis on

  /** What goes into a block: requests, no-ops to fill it up, and the account that gets the fees. */
  datatype Batch = Batch(requests: seq<Request>, noops: nat, feeAccount: nat)

  /** The server can make these blocks one after another; the fee account is set up. */
  ghost predicate Seals(s: Snapshot, batches: seq<Batch>)
    decreases |batches|
  {
    batches != [] ==>
    var b := batches[0];
    && CanSeal(s, b.requests, b.noops, b.feeAccount) && !EmptyServerAccount(AfterAll(s, b.requests).accounts[b.feeAccount])
    && Seals(AfterBlock(s, b.requests, b.feeAccount), batches[1..])
  }

  function AfterBlocks(s: Snapshot, batches: seq<Batch>): Snapshot
    requires Seals(s, batches)
    decreases |batches|
  {
    if batches == [] then s else AfterBlocks(AfterBlock(s, batches[0].requests, batches[0].feeAccount), batches[1..])
  }

  /** What was deposited in these blocks. */
  function In(s: Snapshot, batches: seq<Batch>, token: nat): nat
    requires Seals(s, batches)
    decreases |batches|
  {
    if batches == [] then 0
    else
      AllDeposited(OpsOf(s, batches[0].requests), token)
      + In(AfterBlock(s, batches[0].requests, batches[0].feeAccount), batches[1..], token)
  }

  /** What left in these blocks. */
  function Out(s: Snapshot, batches: seq<Batch>, token: nat): nat
    requires Seals(s, batches)
    decreases |batches|
  {
    if batches == [] then 0
    else
      AllExited(OpsOf(s, batches[0].requests), token)
      + Out(AfterBlock(s, batches[0].requests, batches[0].feeAccount), batches[1..], token)
  }

  lemma {:induction false} FirstSeals(s: Snapshot, batches: seq<Batch>, token: nat)
    requires Seals(s, batches) && batches != []
    ensures var b := batches[0];
            && CanSeal(s, b.requests, b.noops, b.feeAccount) && b.feeAccount in AfterAll(s, b.requests).accounts
            && Runs(s, b.requests) && Good(LedgerOf(s))
            && !EmptyServerAccount(AfterAll(s, b.requests).accounts[b.feeAccount])
            && var next := AfterBlock(s, b.requests, b.feeAccount);
               && Seals(next, batches[1..])
               && In(s, batches, token) == AllDeposited(OpsOf(s, b.requests), token) + In(next, batches[1..], token)
               && Out(s, batches, token) == AllExited(OpsOf(s, b.requests), token) + Out(next, batches[1..], token)
               && AfterBlocks(s, batches) == AfterBlocks(next, batches[1..])
  {
    hide Runs, Good, LedgerOf, AfterAll, AfterBlock, OpsOf, AllDeposited, AllExited, CanCollect, Collected, Padded, Completeness.ChunkCount;
  }

  lemma {:induction false} BlocksKeepValue(s: Snapshot, batches: seq<Batch>, token: nat)
    requires Seals(s, batches) && Consistent(s) && |s.accounts| <= ACCOUNTS && EmptyHandless(s) && token < TOKENS
    ensures Held(AfterBlocks(s, batches), token) + Out(s, batches, token) == Held(s, token) + In(s, batches, token)
    decreases |batches|
  {
    if batches == [] {
      hide Consistent, EmptyHandless;
    } else {
      hide *;
      FirstSeals(s, batches, token);
      var b := batches[0];
      ServerBlockKeepsValue(s, b.requests, b.feeAccount, token);
      BlocksKeepValue(AfterBlock(s, b.requests, b.feeAccount), batches[1..], token);
    }
  }

  /** The state before the first block: the fee account alone. */
  function Genesis(feeAddress: nat): Snapshot {
    Insert(Snapshot(map[], map[]), 0, NewAccount(feeAddress))
  }

  lemma {:induction false} GenesisIsEmpty(feeAddress: nat, token: nat)
    ensures Consistent(Genesis(feeAddress)) && |Genesis(feeAddress).accounts| == 1
    ensures EmptyHandless(Genesis(feeAddress)) && Held(Genesis(feeAddress), token) == 0
  {
    var s := Genesis(feeAddress);
    assert s.accounts.Keys == {0};
    assert HeldBelow(s, 1, token) == HeldBelow(s, 0, token) + GetBalance(s.accounts[0], token);
  }

  /** From genesis on, over any blocks that the server makes within the limits of the circuit, its accounts hold of each
      token exactly what was deposited and did not leave. */
  lemma {:induction false} ServerIsSolvent(feeAddress: nat, batches: seq<Batch>, token: nat)
    requires Seals(Genesis(feeAddress), batches) && token < TOKENS
    ensures Held(AfterBlocks(Genesis(feeAddress), batches), token) + Out(Genesis(feeAddress), batches, token)
         == In(Genesis(feeAddress), batches, token)
  {
    GenesisIsEmpty(feeAddress, token);
    hide Genesis, Held, Consistent, EmptyHandless, Seals, AfterBlocks, In, Out;
    BlocksKeepValue(Genesis(feeAddress), batches, token);
  }
}
