/** Blocks of the server: what it executes and the fees it collects leave the state whose root the circuit commits to. */
module ServerBlocks {
  import opened Common
  import opened Merkle
  import opened Params
  import opened PrimeField
  import opened Amounts
  import opened Gadgets
  import opened Witness
  import opened BlockSpec
  import opened Ledger
  import opened Transactions
  import opened Soundness
  import opened Blocks
  import Prover
  import Completeness
  import opened ServerState
  import opened ServerCircuit
  import W = WalletMessages

  // ----- runs of requests

  /** A list of requests that never panics, with room for new accounts, in which whatever is executed keeps the limits of
      the circuit. Refused requests are dropped. */
  ghost predicate Runs(s: Snapshot, requests: seq<Request>)
    decreases |requests|
  {
    Consistent(s) &&
    (requests == [] ||
     (|s.accounts| < ACCOUNTS && RequestFits(requests[0]) &&
      match Perform(s, requests[0])
      case Done(after, op, _) => WithinLimits(s, op) && Runs(after, requests[1..])
      case Refused => Runs(s, requests[1..])
      case Panicked => false))
  }

  function OpsOf(s: Snapshot, requests: seq<Request>): seq<Tx>
    requires Runs(s, requests)
    decreases |requests|
  {
    if requests == [] then []
    else
      match Perform(s, requests[0])
      case Done(after, op, _) => [op] + OpsOf(after, requests[1..])
      case Refused => OpsOf(s, requests[1..])
  }

  function AfterAll(s: Snapshot, requests: seq<Request>): Snapshot
    requires Runs(s, requests)
    decreases |requests|
  {
    if requests == [] then s
    else
      match Perform(s, requests[0])
      case Done(after, op, _) => AfterAll(after, requests[1..])
      case Refused => AfterAll(s, requests[1..])
  }

  lemma {:induction false} AgreedIsGood(s: Snapshot, done: Outcome)
    requires Agrees(s, done)
    ensures Good(LedgerOf(s)) && CanExecute(done.op, LedgerOf(s)) && Execute(done.op, LedgerOf(s)) == LedgerOf(done.after)
    ensures Good(LedgerOf(done.after))
  {
    hide CanExecute, LedgerOf, GoodAccount;
    assert Good(Execute(done.op, LedgerOf(s)));
  }

  lemma {:induction false} OneMore(tx: Tx, txs: seq<Tx>, ledger: Accounts, next: Accounts)
    requires Good(ledger) && CanExecute(tx, ledger) && next == Execute(tx, ledger) && CanExecuteAll(txs, next)
    ensures CanExecuteAll([tx] + txs, ledger) && ExecuteAll([tx] + txs, ledger) == ExecuteAll(txs, next)
  {
    hide CanExecute, Execute, GoodAccount;
    assert ([tx] + txs)[0] == tx && ([tx] + txs)[1..] == txs;
  }

  /** Over any run the circuit executes the same operations, and the ledger follows the state. */
  lemma {:induction false} RunAgrees(s: Snapshot, requests: seq<Request>)
    requires Runs(s, requests) && Good(LedgerOf(s))
    ensures CanExecuteAll(OpsOf(s, requests), LedgerOf(s)) && Good(LedgerOf(AfterAll(s, requests)))
    ensures ExecuteAll(OpsOf(s, requests), LedgerOf(s)) == LedgerOf(AfterAll(s, requests))
    decreases |requests|
  {
    if requests == [] {
      hide LedgerOf, GoodAccount;
    } else {
      hide *;
      RunsMeans(s, requests);
      var done := Perform(s, requests[0]);
      if done.Done? {
        CircuitAgreesIff(s, requests[0]);
        AgreedIsGood(s, done);
        RunAgrees(done.after, requests[1..]);
        OneMore(done.op, OpsOf(done.after, requests[1..]), LedgerOf(s), LedgerOf(done.after));
      } else {
        RunAgrees(s, requests[1..]);
      }
    }
  }

  lemma {:induction false} RunsMeans(s: Snapshot, requests: seq<Request>)
    requires Runs(s, requests) && requests != []
    ensures Consistent(s) && |s.accounts| < ACCOUNTS && RequestFits(requests[0]) && !Perform(s, requests[0]).Panicked?
    ensures Perform(s, requests[0]).Done? ==>
              var done := Perform(s, requests[0]);
              && WithinLimits(s, done.op) && Runs(done.after, requests[1..])
              && OpsOf(s, requests) == [done.op] + OpsOf(done.after, requests[1..])
              && AfterAll(s, requests) == AfterAll(done.after, requests[1..])
    ensures Perform(s, requests[0]).Refused? ==>
              && Runs(s, requests[1..]) && OpsOf(s, requests) == OpsOf(s, requests[1..])
              && AfterAll(s, requests) == AfterAll(s, requests[1..])
  {
    hide Consistent, RequestFits, Perform, WithinLimits;
  }

  // ----- fees

  /** What the server collects: the fee of each executed transaction, as it was signed. */
  function Collected(s: Snapshot, requests: seq<Request>): seq<(nat, nat)>
    requires Runs(s, requests)
    decreases |requests|
  {
    if requests == [] then []
    else
      match Perform(s, requests[0])
      case Done(after, op, _) =>
        (if requests[0].SignedRequest? then [(requests[0].w.token, requests[0].w.fee)] else []) + Collected(after, requests[1..])
      case Refused => Collected(s, requests[1..])
  }

  function SumOf(fees: seq<(nat, nat)>, token: nat): nat {
    if fees == [] then 0 else (if fees[0].0 == token then fees[0].1 else 0) + SumOf(fees[1..], token)
  }

  lemma {:induction false} FeesAreAdded(a: ServerAccount, fees: seq<(nat, nat)>, token: nat)
    ensures GetBalance(WithFees(a, fees), token) == GetBalance(a, token) + SumOf(fees, token)
    ensures WithFees(a, fees).nonce == a.nonce && WithFees(a, fees).pubKeyHash == a.pubKeyHash && WithFees(a, fees).address == a.address
    decreases |fees|
  {
    if fees != [] {
      FeesAreAdded(if fees[0].1 == 0 then a else AddBalance(a, fees[0].0, fees[0].1), fees[1..], token);
    }
  }

  lemma {:induction false} FeeOfDone(s: Snapshot, r: Request)
    requires Consistent(s) && RequestFits(r) && Perform(s, r).Done?
    ensures var op := Perform(s, r).op;
            if r.SignedRequest? then FeeOf(op) == r.w.fee && TokenOf(op) == r.w.token else FeeOf(op) == 0
  {
    hide *;
    PerformMeans(s, r);
    var op := Perform(s, r).op;
    if r.SignedRequest? {
      RequestNumbers(r);
      NumbersAreGood(op, r.w);
      SameToken(op, r.w);
      HasNumbersKind(op, r.w);
      TokenIs(op);
    } else {
      CreatedRequest(s, r);
      NoFee(op);
    }
  }

  lemma {:induction false} TokenIs(op: Tx)
    requires !op.Noop?
    ensures TokenOf(op) == op.token
  {
  }

  lemma {:induction false} NoFee(op: Tx)
    requires op.Deposit? || op.FullExit?
    ensures FeeOf(op) == 0
  {
  }

  lemma {:induction false} CollectedOne(s: Snapshot, requests: seq<Request>)
    requires Runs(s, requests) && requests != []
    ensures Perform(s, requests[0]).Done? ==>
              var done := Perform(s, requests[0]);
              && Runs(done.after, requests[1..])
              && Collected(s, requests) ==
                   (if requests[0].SignedRequest? then [(requests[0].w.token, requests[0].w.fee)] else []) + Collected(done.after, requests[1..])
    ensures Perform(s, requests[0]).Refused? ==> Runs(s, requests[1..]) && Collected(s, requests) == Collected(s, requests[1..])
  {
    hide Consistent, RequestFits, Perform, WithinLimits;
  }

  lemma {:induction false} SumOfMore(token: nat, fee: (nat, nat), fees: seq<(nat, nat)>)
    ensures SumOf([fee] + fees, token) == (if fee.0 == token then fee.1 else 0) + SumOf(fees, token)
    ensures SumOf([] + fees, token) == SumOf(fees, token)
  {
    assert [] + fees == fees && ([fee] + fees)[1..] == fees;
  }

  lemma {:induction false} FeesInMore(tx: Tx, txs: seq<Tx>, token: nat)
    ensures FeesIn([tx] + txs, token) == (if TokenOf(tx) == token then FeeOf(tx) else 0) + FeesIn(txs, token)
  {
    hide TokenOf, FeeOf;
    assert ([tx] + txs)[0] == tx && ([tx] + txs)[1..] == txs;
  }

  /** The server collects what the operations of the circuit pay. */
  lemma {:induction false} CollectedIsPaid(s: Snapshot, requests: seq<Request>, token: nat)
    requires Runs(s, requests)
    ensures SumOf(Collected(s, requests), token) == FeesIn(OpsOf(s, requests), token)
    decreases |requests|
  {
    if requests != [] {
      hide *;
      RunsMeans(s, requests);
      CollectedOne(s, requests);
      var r, done := requests[0], Perform(s, requests[0]);
      if done.Done? {
        FeeOfDone(s, r);
        CollectedIsPaid(done.after, requests[1..], token);
        FeesInMore(done.op, OpsOf(done.after, requests[1..]), token);
        SumOfMore(token, if r.SignedRequest? then (r.w.token, r.w.fee) else (0, 0), Collected(done.after, requests[1..]));
      } else {
        CollectedIsPaid(s, requests[1..], token);
      }
    }
  }

  /** No fee is paid in a token that the fee vector of the circuit does not cover. */
  predicate FeesProcessable(fees: seq<(nat, nat)>) {
    forall i :: 0 <= i < |fees| ==> fees[i].0 < PROCESSABLE_TOKENS || fees[i].1 == 0
  }

  lemma {:induction false} NothingBeyond(fees: seq<(nat, nat)>, token: nat)
    requires FeesProcessable(fees) && token >= PROCESSABLE_TOKENS
    ensures SumOf(fees, token) == 0
  {
    if fees != [] {
      assert fees[0].0 < PROCESSABLE_TOKENS || fees[0].1 == 0;
      assert forall i :: 0 <= i < |fees[1..]| ==> fees[1..][i] == fees[i + 1];
      NothingBeyond(fees[1..], token);
    }
  }

  /** Collecting the fees credits them in the ledger. */
  lemma {:induction false} CollectingCredits(s: Snapshot, fees: seq<(nat, nat)>, feeAccount: nat, txs: seq<Tx>)
    requires Good(LedgerOf(s)) && feeAccount in s.accounts && feeAccount < ACCOUNTS && FeesProcessable(fees)
    requires forall t :: SumOf(fees, t) == FeesIn(txs, t)
    ensures LedgerOf(Insert(s, feeAccount, WithFees(s.accounts[feeAccount], fees))) == CreditFees(LedgerOf(s), feeAccount, txs)
  {
    hide Good, FeesIn, SumOf, WithFees, LedgerOf, GetBalance;
    var a := s.accounts[feeAccount];
    var after := WithFees(a, fees);
    InsertMoves(s, feeAccount, after);
    EntryIsGood(s, feeAccount);
    var credited := CreditFees(LedgerOf(s), feeAccount, txs)[feeAccount];
    FeesAreAdded(a, fees, 0);
    forall t | 0 <= t < TOKENS
      ensures Entry(after).balances[t] == credited.balances[t]
    {
      FeesAreAdded(a, fees, t);
      if t >= PROCESSABLE_TOKENS {
        NothingBeyond(fees, t);
      }
    }
    assert Entry(after) == credited;
  }

  // ----- whole blocks

  /** What a block holds besides its operations: as many no-ops as it has chunks left. */
  function Padded(txs: seq<Tx>, noops: nat): seq<Tx> {
    txs + seq(noops, _ => Noop)
  }

  lemma {:induction false} NoopsRun(n: nat, ledger: Accounts)
    requires Good(ledger)
    ensures CanExecuteAll(seq(n, _ => Noop), ledger) && ExecuteAll(seq(n, _ => Noop), ledger) == ledger
    decreases n
  {
    var txs := seq(n, _ => Noop);
    if n > 0 {
      assert txs[0] == Noop && txs[1..] == seq(n - 1, _ => Noop);
      NoopRuns(ledger);
      hide CanExecute, Execute, GoodAccount;
      NoopsRun(n - 1, ledger);
    }
  }

  lemma {:induction false} NoopRuns(ledger: Accounts)
    requires Good(ledger)
    ensures CanExecute(Noop, ledger) && Execute(Noop, ledger) == ledger
  {
    assert GoodTx(Noop);
    SameLedger(ledger, 0);
    hide GoodAccount;
  }

  lemma {:induction false} PaddedRuns(txs: seq<Tx>, noops: nat, ledger: Accounts)
    requires Good(ledger) && CanExecuteAll(txs, ledger)
    ensures CanExecuteAll(Padded(txs, noops), ledger) && ExecuteAll(Padded(txs, noops), ledger) == ExecuteAll(txs, ledger)
    ensures forall t :: FeesIn(Padded(txs, noops), t) == FeesIn(txs, t)
    decreases |txs|
  {
    if txs == [] {
      NoopsRun(noops, ledger);
      var rest := seq(noops, _ => Noop);
      assert Padded([], noops) == rest;
      forall t
        ensures FeesIn(rest, t) == 0
      {
        NoopsPayNothing(noops, t);
      }
    } else {
      assert Padded(txs, noops)[0] == txs[0] && Padded(txs, noops)[1..] == Padded(txs[1..], noops);
      hide CanExecute, Execute, GoodAccount, FeeOf, TokenOf;
      PaddedRuns(txs[1..], noops, Execute(txs[0], ledger));
    }
  }

  lemma {:induction false} NoopsPayNothing(n: nat, t: nat)
    ensures FeesIn(seq(n, _ => Noop), t) == 0
    decreases n
  {
    if n > 0 {
      assert seq(n, _ => Noop)[0] == Noop && seq(n, _ => Noop)[1..] == seq(n - 1, _ => Noop);
      NoopsPayNothing(n - 1, t);
    }
  }

  /** The published fields of what the server executed fit. */
  lemma {:induction false} DoneFits(s: Snapshot, r: Request)
    requires Consistent(s) && |s.accounts| < ACCOUNTS && RequestFits(r) && Perform(s, r).Done?
    ensures Prover.TxFits(Perform(s, r).op)
  {
    hide *;
    PerformMeans(s, r);
    IdsAreSmall(s);
    RequestNumbers(r);
    var op := Perform(s, r).op;
    NamesMeans(s, op);
    if r.SignedRequest? {
      HasNumbersKind(op, r.w);
      PackedNumbersFit(r.w);
      if r.w.TransferTx? {
        CreatedIsTransfer(s, r);
        CreatedTransfer(s, r.w, r.signer);
        TransferFits(s, op, r.w);
      } else {
        CreatedOther(s, r);
        CreatedPlaces(s, r);
        OtherFits(s, op, r.w);
      }
    } else {
      CreatedRequest(s, r);
      RequestOpFits(s, op, r);
    }
  }

  lemma {:induction false} PackedNumbersFit(w: W.WalletTx)
    requires W.Fits(w)
    ensures PackFee(w.fee) < 0x1_0000 && (w.TransferTx? ==> PackAmount(w.amount) < 0x100_0000_0000)
  {
    Widths();
    W.PackedFits(w.fee, FEE_MANTISSA, FEE_WIDTH);
    if w.TransferTx? {
      AmountsPack();
      W.PackedFits(w.amount, AMOUNT_MANTISSA, AMOUNT_WIDTH);
    }
    hide PackedNumber;
  }

  lemma {:induction false} TransferFits(s: Snapshot, op: Tx, w: W.WalletTx)
    requires HasNumbers(op, w) && NamesAccounts(s, op) && (op.Transfer? || op.TransferToNew?) && w.TransferTx?
    requires FreeId(s) < ACCOUNTS && forall id :: id in s.accounts ==> id < ACCOUNTS
    requires op.TransferToNew? ==> op.to == FreeId(s)
    requires PackFee(w.fee) < 0x1_0000 && PackAmount(w.amount) < 0x100_0000_0000
    ensures Prover.TxFits(op)
  {
    hide PackedNumber;
  }

  /** The other operations name places and addresses of the transaction. */
  lemma {:induction false} CreatedPlaces(s: Snapshot, r: Request)
    requires Consistent(s) && r.SignedRequest? && !r.w.TransferTx? && CreateOp(s, r).Op?
    ensures var op := CreateOp(s, r).op;
            && (op.Withdraw? ==> r.w.WithdrawTx? && op.ethAddress == r.w.toAddress)
            && (op.ForcedExit? ==> r.w.ForcedExitTx? && op.ethAddress == r.w.target)
  {
    hide PackedNumber;
  }

  lemma {:induction false} OtherFits(s: Snapshot, op: Tx, w: W.WalletTx)
    requires HasNumbers(op, w) && NamesAccounts(s, op) && W.Fits(w) && (op.Withdraw? || op.ChangePubKey? || op.ForcedExit?)
    requires forall id :: id in s.accounts ==> id < ACCOUNTS
    requires op.Withdraw? ==> w.WithdrawTx? && op.ethAddress == w.toAddress
    requires op.ForcedExit? ==> w.ForcedExitTx? && op.ethAddress == w.target
    requires PackFee(w.fee) < 0x1_0000
    ensures Prover.TxFits(op)
  {
    hide PackedNumber;
  }

  lemma {:induction false} RequestOpFits(s: Snapshot, op: Tx, r: Request)
    requires FreeId(s) < ACCOUNTS && forall id :: id in s.accounts ==> id < ACCOUNTS
    requires op.Deposit? ==> op.account in s.accounts || op.account == FreeId(s)
    requires op.FullExit? ==> r.FullExitRequest? && op.account == r.accountId < ACCOUNTS && op.ethAddress == r.ethAddress < ADDRESS_LIMIT
    requires op.Deposit? || op.FullExit?
    ensures Prover.TxFits(op)
  {
  }

  lemma {:induction false} FitOneMore(tx: Tx, txs: seq<Tx>)
    requires Prover.TxFits(tx) && Completeness.AllFit(txs)
    ensures Completeness.AllFit([tx] + txs)
  {
    hide Prover.TxFits;
  }

  lemma {:induction false} RunFits(s: Snapshot, requests: seq<Request>)
    requires Runs(s, requests)
    ensures Completeness.AllFit(OpsOf(s, requests))
    decreases |requests|
  {
    if requests != [] {
      hide *;
      RunsMeans(s, requests);
      var done := Perform(s, requests[0]);
      if done.Done? {
        DoneFits(s, requests[0]);
        RunFits(done.after, requests[1..]);
        FitOneMore(done.op, OpsOf(done.after, requests[1..]));
      } else {
        RunFits(s, requests[1..]);
      }
    }
  }

  lemma {:induction false} PaddedFits(txs: seq<Tx>, noops: nat)
    requires Completeness.AllFit(txs)
    ensures Completeness.AllFit(Padded(txs, noops))
  {
    assert Prover.TxFits(Noop);
    hide Prover.TxFits;
  }

  /** The account that collects the fees holds only processable tokens, and can take them. */
  ghost predicate CanCollect(a: ServerAccount, fees: seq<(nat, nat)>) {
    && FeesProcessable(fees)
    && (forall t :: PROCESSABLE_TOKENS <= t < TOKENS ==> GetBalance(a, t) == 0)
    && (forall t :: 0 <= t < PROCESSABLE_TOKENS ==> GetBalance(a, t) + SumOf(fees, t) < U128_LIMIT)
  }

  lemma {:induction false} CollectorIsReady(s: Snapshot, fees: seq<(nat, nat)>, feeAccount: nat, txs: seq<Tx>)
    requires Good(LedgerOf(s)) && feeAccount in s.accounts && feeAccount < ACCOUNTS && CanCollect(s.accounts[feeAccount], fees)
    requires forall t :: SumOf(fees, t) == FeesIn(txs, t)
    ensures ValidatorReady(LedgerOf(s), feeAccount, txs)
  {
    EntryIsGood(s, feeAccount);
    hide Good, FeesIn, SumOf, LedgerOf, GetBalance, FeesProcessable;
    assert forall t :: 0 <= t < TOKENS ==> Entry(s.accounts[feeAccount]).balances[t] == GetBalance(s.accounts[feeAccount], t);
  }

  /** The state of the server after the block. */
  function AfterBlock(s: Snapshot, requests: seq<Request>, feeAccount: nat): Snapshot
    requires Runs(s, requests) && feeAccount in AfterAll(s, requests).accounts
  {
    var after := AfterAll(s, requests);
    Insert(after, feeAccount, WithFees(after.accounts[feeAccount], Collected(s, requests)))
  }

  /** A block that the server can make: what runs keeps the limits of the circuit, and the fees can be collected. */
  ghost predicate CanSeal(s: Snapshot, requests: seq<Request>, noops: nat, feeAccount: nat) {
    && Runs(s, requests) && Good(LedgerOf(s))
    && Padded(OpsOf(s, requests), noops) != [] && Completeness.ChunkCount(Padded(OpsOf(s, requests), noops)) < 0x1_0000_0000_0000_0000
    && feeAccount < ACCOUNTS && feeAccount in AfterAll(s, requests).accounts
    && CanCollect(AfterAll(s, requests).accounts[feeAccount], Collected(s, requests))
  }

  lemma {:induction false} SealedIsProvable(s: Snapshot, requests: seq<Request>, noops: nat, feeAccount: nat)
    requires CanSeal(s, requests, noops, feeAccount)
    ensures Completeness.Provable(LedgerOf(s), Padded(OpsOf(s, requests), noops), feeAccount)
    ensures CanExecuteAll(Padded(OpsOf(s, requests), noops), LedgerOf(s))
    ensures CreditFees(ExecuteAll(Padded(OpsOf(s, requests), noops), LedgerOf(s)), feeAccount, Padded(OpsOf(s, requests), noops))
         == LedgerOf(AfterBlock(s, requests, feeAccount))
  {
    hide *;
    SealMeans(s, requests, noops, feeAccount);
    var txs, fees, after := OpsOf(s, requests), Collected(s, requests), AfterAll(s, requests);
    RunAgrees(s, requests);
    RunFits(s, requests);
    PaddedRuns(txs, noops, LedgerOf(s));
    PaddedFits(txs, noops);
    forall t
      ensures SumOf(fees, t) == FeesIn(Padded(txs, noops), t)
    {
      CollectedIsPaid(s, requests, t);
    }
    CollectorIsReady(after, fees, feeAccount, Padded(txs, noops));
    CollectMeans(after.accounts[feeAccount], fees);
    CollectingCredits(after, fees, feeAccount, Padded(txs, noops));
    AfterBlockIs(s, requests, feeAccount);
    ProvableIs(LedgerOf(s), Padded(txs, noops), feeAccount);
  }

  lemma {:induction false} SealMeans(s: Snapshot, requests: seq<Request>, noops: nat, feeAccount: nat)
    requires CanSeal(s, requests, noops, feeAccount)
    ensures Runs(s, requests) && Good(LedgerOf(s)) && feeAccount < ACCOUNTS && feeAccount < 0x1_0000_0000
    ensures Padded(OpsOf(s, requests), noops) != [] && Completeness.ChunkCount(Padded(OpsOf(s, requests), noops)) < 0x1_0000_0000_0000_0000
    ensures feeAccount in AfterAll(s, requests).accounts && CanCollect(AfterAll(s, requests).accounts[feeAccount], Collected(s, requests))
  {
    hide Runs, Good, LedgerOf, OpsOf, AfterAll, Collected, CanCollect, Completeness.ChunkCount;
  }

  lemma {:induction false} CollectMeans(a: ServerAccount, fees: seq<(nat, nat)>)
    requires CanCollect(a, fees)
    ensures FeesProcessable(fees)
  {
    hide FeesProcessable;
  }

  lemma {:induction false} AfterBlockIs(s: Snapshot, requests: seq<Request>, feeAccount: nat)
    requires Runs(s, requests) && feeAccount in AfterAll(s, requests).accounts
    ensures var after := AfterAll(s, requests);
            AfterBlock(s, requests, feeAccount) == Insert(after, feeAccount, WithFees(after.accounts[feeAccount], Collected(s, requests)))
  {
    hide Runs, AfterAll, Insert, WithFees, Collected;
  }

  lemma {:induction false} ProvableIs(ledger: Accounts, txs: seq<Tx>, validator: nat)
    requires Good(ledger) && txs != [] && CanExecuteAll(txs, ledger) && Completeness.AllFit(txs) && validator < 0x1_0000_0000
    requires Completeness.ChunkCount(txs) < 0x1_0000_0000_0000_0000 && ValidatorReady(ExecuteAll(txs, ledger), validator, txs)
    ensures Completeness.Provable(ledger, txs, validator)
  {
    hide Good, CanExecuteAll, ExecuteAll, Completeness.AllFit, Completeness.ChunkCount, ValidatorReady;
  }

  /** The public input names the server's root before the block and the one after it. */
  ghost predicate CommitsTo(commitment: Commitment, before: Snapshot, after: Snapshot) {
    && Good(LedgerOf(before)) && Good(LedgerOf(after))
    && commitment.oldRoot == FullRoot(LedgerRoot(LedgerOf(before))) && commitment.newRoot == FullRoot(LedgerRoot(LedgerOf(after)))
  }

  /** From the server to the commitment. The witness that the prover builds for a block of the server is accepted, and
      every commitment it is accepted with names the root of the server's state before the block and the root of its
      state after it, with the fees collected. */
  lemma {:induction false} ServerBlockIsProven(s: Snapshot, requests: seq<Request>, noops: nat, number: nat, feeAccount: nat)
    requires CanSeal(s, requests, noops, feeAccount) && number < 0x1_0000_0000
    ensures Runs(s, requests) && Good(LedgerOf(s)) && feeAccount in AfterAll(s, requests).accounts
    ensures CanExecuteAll(Padded(OpsOf(s, requests), noops), LedgerOf(s))
    ensures var block := Completeness.BlockFor(number, LedgerOf(s), Padded(OpsOf(s, requests), noops), feeAccount);
            && (exists commitment :: BlockAccepted(block, commitment))
            && (forall commitment :: BlockAccepted(block, commitment) ==> CommitsTo(commitment, s, AfterBlock(s, requests, feeAccount)))
  {
    hide *;
    SealMeans(s, requests, noops, feeAccount);
    SealedIsProvable(s, requests, noops, feeAccount);
    var txs := Padded(OpsOf(s, requests), noops);
    Completeness.ProverBlockIsAccepted(number, LedgerOf(s), txs, feeAccount);
    var block := Completeness.BlockFor(number, LedgerOf(s), txs, feeAccount);
    forall commitment | BlockAccepted(block, commitment)
      ensures CommitsTo(commitment, s, AfterBlock(s, requests, feeAccount))
    {
      ProvedCommits(number, LedgerOf(s), txs, feeAccount, commitment);
      CommitsToIs(commitment, s, AfterBlock(s, requests, feeAccount));
    }
  }

  lemma {:induction false} CommitsToIs(commitment: Commitment, before: Snapshot, after: Snapshot)
    requires Good(LedgerOf(before)) && Good(LedgerOf(after))
    requires commitment.oldRoot == FullRoot(LedgerRoot(LedgerOf(before))) && commitment.newRoot == FullRoot(LedgerRoot(LedgerOf(after)))
    ensures CommitsTo(commitment, before, after)
  {
    hide Good, LedgerOf, FullRoot, LedgerRoot;
  }

  lemma {:induction false} ProvedCommits(number: nat, ledger: Accounts, txs: seq<Tx>, validator: nat, commitment: Commitment)
    requires Good(ledger) && Completeness.Provable(ledger, txs, validator) && number < 0x1_0000_0000 && CanExecuteAll(txs, ledger)
    requires BlockAccepted(Completeness.BlockFor(number, ledger, txs, validator), commitment)
    ensures var after := CreditFees(ExecuteAll(txs, ledger), validator, txs);
            && Good(after) && commitment.oldRoot == FullRoot(LedgerRoot(ledger)) && commitment.newRoot == FullRoot(LedgerRoot(after))
  {
    var block := Completeness.BlockFor(number, ledger, txs, validator);
    assert block.validator.id == validator && block.oldRoot == FullRoot(LedgerRoot(ledger));
    Completeness.ProverBlockIsAccepted(number, ledger, txs, validator);
    hide BlockAccepted, Good, FullRoot, LedgerRoot, CanExecuteAll, ExecuteAll, CreditFees, Completeness.BlockFor, Completeness.ChunkCount,
      BlockPresents, TxsOf, Completeness.AllFit, ValidatorReady;
    assert |block.ops| < 0x1_0000_0000_0000_0000;
    LedgerSoundness(block, commitment, ledger);
  }
}
