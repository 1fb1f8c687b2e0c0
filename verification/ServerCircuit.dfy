/** The server against the circuit: the ledger behind the server's state, and exactly when the circuit executes what
    the server executed, with the same result. */
module ServerCircuit {
  import opened Common
  import opened Params
  import opened PrimeField
  import opened Decimal
  import opened FloatRoundTrip
  import opened Amounts
  import opened Witness
  import opened Ledger
  import opened Transactions
  import opened ServerState
  import W = WalletMessages
  import Prover

  // ----- the ledger behind the state

  function Entry(a: ServerAccount): (r: Account)
    ensures |r.balances| == TOKENS && forall t :: 0 <= t < TOKENS ==> r.balances[t] == GetBalance(a, t)
  {
    Account(a.nonce, a.pubKeyHash, a.address, seq(TOKENS, t requires 0 <= t => GetBalance(a, t)))
  }

  const EMPTY: ServerAccount := NewAccount(0)

  function LedgerOf(s: Snapshot): (ledger: Accounts)
    ensures |ledger| == ACCOUNTS
    ensures forall i :: 0 <= i < ACCOUNTS ==> ledger[i] == Entry(if i in s.accounts then s.accounts[i] else EMPTY)
  {
    seq(ACCOUNTS, i requires 0 <= i => Entry(if i in s.accounts then s.accounts[i] else EMPTY))
  }

  lemma {:induction false} InsertMoves(s: Snapshot, id: nat, a: ServerAccount)
    requires id < ACCOUNTS
    ensures LedgerOf(Insert(s, id, a)) == LedgerOf(s)[id := Entry(a)]
  {
    hide Entry;
  }

  lemma {:induction false} EntryWith(a: ServerAccount, token: nat, balance: nat)
    requires token < TOKENS
    ensures Entry(a.(balances := a.balances[token := balance])) == SetBalance(Entry(a), token, balance)
  {
  }

  // ----- what the server checks and the circuit does not, and the other way round

  /** The numbers of a request fit their fields, and packed amounts can be packed. */
  ghost predicate RequestFits(r: Request) {
    match r
    case SignedRequest(w, _, _) => W.Fits(w) && W.Packable(w)
    case DepositRequest(_, amount, address) => amount < U128_LIMIT && address < ADDRESS_LIMIT
    case FullExitRequest(id, ethAddress, _) => id < ACCOUNTS && ethAddress < ADDRESS_LIMIT
  }

  predicate EmptyServerAccount(a: ServerAccount) {
    a.nonce == 0 && a.pubKeyHash == 0 && a.address == 0
  }

  /** The limits of the circuit that the server does not check: the last nonce, the size of balances, token ids of key
      changes, empty accounts, and a forced exit of the initiator itself. */
  predicate WithinLimits(s: Snapshot, op: Tx) {
    && NamesAccounts(s, op)
    && match op
       case Transfer(sender, token, receiver, packed, _) =>
         && s.accounts[sender].nonce != MAX_NONCE
         && (sender != receiver ==> GetBalance(s.accounts[receiver], token) + Unpack(packed) < U128_LIMIT)
       case TransferToNew(sender, _, _, _, _, _) => s.accounts[sender].nonce != MAX_NONCE
       case Withdraw(id, _, _, _, _) => s.accounts[id].nonce != MAX_NONCE
       case ChangePubKey(id, _, _, _, token, _) => s.accounts[id].nonce != MAX_NONCE && token <= PROCESSABLE_TOKENS
       case ForcedExit(initiator, target, _, _, _, _) =>
         s.accounts[initiator].nonce != MAX_NONCE && initiator != target && !EmptyServerAccount(s.accounts[target])
       case Deposit(id, token, amount, address) =>
         if id in s.accounts then !EmptyServerAccount(s.accounts[id]) && GetBalance(s.accounts[id], token) + amount < U128_LIMIT
         else address != 0
       case FullExit(id, _, _, _) => id in s.accounts ==> s.accounts[id].nonce != MAX_NONCE
       case Noop => true
  }

  /** The circuit executes the operation with the same result. */
  predicate Agrees(s: Snapshot, done: Outcome) {
    done.Done? && Good(LedgerOf(s)) && CanExecute(done.op, LedgerOf(s)) && Execute(done.op, LedgerOf(s)) == LedgerOf(done.after)
  }

  // ----- entries

  lemma {:induction false} PayerEntry(a: ServerAccount, token: nat, amount: nat)
    requires token < TOKENS && amount <= GetBalance(a, token) && a.nonce < MAX_NONCE
    ensures CanPay(Entry(a), token, amount) && Entry(Payer(a, token, amount)) == Paid(Entry(a), token, amount)
  {
    EntryWith(a, token, GetBalance(a, token) - amount);
  }

  lemma {:induction false} CreditEntry(a: ServerAccount, token: nat, amount: nat)
    requires token < TOKENS
    ensures Entry(AddBalance(a, token, amount)) == Credited(Entry(a), token, amount)
  {
    EntryWith(a, token, GetBalance(a, token) + amount);
  }

  predicate Pays(tx: Tx) {
    tx.Transfer? || tx.TransferToNew? || tx.Withdraw? || tx.ForcedExit?
  }

  lemma {:induction false} PayingIff(tx: Tx, a: Account)
    requires GoodAccount(a) && GoodTx(tx) && Pays(tx) && Spent(tx) <= a.balances[tx.token]
    ensures FirstAllowed(tx, a) <==> a.nonce < MAX_NONCE
    ensures FirstAllowed(tx, a) ==> FirstEffect(tx, a) == Paid(a, tx.token, Spent(tx))
  {
    hide Witness.Unpack;
  }

  lemma {:induction false} EntryIsGood(s: Snapshot, id: nat)
    requires Good(LedgerOf(s)) && id in s.accounts && id < ACCOUNTS
    ensures LedgerOf(s)[id] == Entry(s.accounts[id]) && GoodAccount(LedgerOf(s)[id]) && Slot(id) == id
    ensures s.accounts[id].nonce <= MAX_NONCE && forall t :: 0 <= t < TOKENS ==> GetBalance(s.accounts[id], t) < U128_LIMIT
  {
    hide *;
    IsSlot(id);
    EntryOf(s, id);
    GoodSlot(LedgerOf(s), id);
    GoodEntry(s.accounts[id]);
  }

  lemma {:induction false} IsSlot(id: nat)
    requires id < ACCOUNTS
    ensures Slot(id) == id
  {
  }

  lemma {:induction false} GoodSlot(ledger: Accounts, i: nat)
    requires Good(ledger) && i < ACCOUNTS
    ensures GoodAccount(ledger[i])
  {
    hide GoodAccount;
  }

  lemma {:induction false} GoodEntry(a: ServerAccount)
    requires GoodAccount(Entry(a))
    ensures a.nonce <= MAX_NONCE && forall t :: 0 <= t < TOKENS ==> GetBalance(a, t) < U128_LIMIT
  {
    forall t | 0 <= t < TOKENS
      ensures GetBalance(a, t) < U128_LIMIT
    {
      assert Entry(a).balances[t] == GetBalance(a, t);
    }
  }

  lemma {:induction false} FirstHalfIs(tx: Tx, ledger: Accounts)
    requires Good(ledger) && GoodTx(tx)
    ensures FirstOk(tx, ledger) <==> FirstAllowed(tx, ledger[Slot(FirstAccount(tx))])
    ensures FirstOk(tx, ledger) ==>
              AfterFirst(tx, ledger) == ledger[Slot(FirstAccount(tx)) := FirstEffect(tx, ledger[Slot(FirstAccount(tx))])]
  {
    hide FirstAllowed, FirstEffect, GoodTx, GoodAccount;
  }

  /** The state after a payment is the ledger after the first half. */
  lemma {:induction false} PaymentIsFirstHalf(s: Snapshot, tx: Tx, id: nat)
    requires Good(LedgerOf(s)) && GoodTx(tx) && id in s.accounts && id < ACCOUNTS && FirstAccount(tx) == id && Pays(tx)
    requires Spent(tx) <= GetBalance(s.accounts[id], tx.token) && tx.token < TOKENS
    ensures FirstOk(tx, LedgerOf(s)) <==> s.accounts[id].nonce != MAX_NONCE
    ensures FirstOk(tx, LedgerOf(s)) ==>
              AfterFirst(tx, LedgerOf(s)) == LedgerOf(Insert(s, id, Payer(s.accounts[id], tx.token, Spent(tx))))
  {
    var a := s.accounts[id];
    EntryIsGood(s, id);
    InsertMoves(s, id, Payer(a, tx.token, Spent(tx)));
    hide *;
    PayingIff(tx, Entry(a));
    FirstHalfIs(tx, LedgerOf(s));
    if a.nonce < MAX_NONCE {
      PayerEntry(a, tx.token, Spent(tx));
    }
  }

  // ----- one lemma for each operation

  /** The published numbers are those that were signed. */
  lemma {:induction false} SignedNumbers(w: W.WalletTx)
    requires W.Fits(w) && W.Packable(w)
    ensures Witness.Unpack(PackFee(w.fee)) == w.fee < U128_LIMIT
    ensures w.TransferTx? ==> Witness.Unpack(PackAmount(w.amount)) == w.amount < U128_LIMIT
  {
    W.PackedKeeps(w.fee, FEE_MANTISSA);
    if w.TransferTx? {
      W.PackedKeeps(w.amount, AMOUNT_MANTISSA);
    }
    hide PackedNumber, Witness.Unpack;
  }

  lemma {:induction false} OneSidedIs(tx: Tx, ledger: Accounts)
    requires Good(ledger) && !TwoSided(tx)
    ensures CanExecute(tx, ledger) <==> FirstOk(tx, ledger)
    ensures CanExecute(tx, ledger) ==> Execute(tx, ledger) == AfterFirst(tx, ledger)
  {
    hide FirstAllowed, FirstEffect, GoodTx, GoodAccount;
  }

  lemma {:induction false} NumbersAreGood(op: Tx, w: W.WalletTx)
    requires W.Fits(w) && W.Packable(w) && HasNumbers(op, w)
    ensures FeeOf(op) == w.fee && (op.Transfer? || op.TransferToNew? ==> Witness.Unpack(op.amountPacked) == w.amount)
    ensures op.Transfer? || op.TransferToNew? || op.Withdraw? ==> Spent(op) == w.amount + w.fee
    ensures op.ForcedExit? ==> Spent(op) == w.fee
    ensures GoodTx(op) <==> op.token <= PROCESSABLE_TOKENS && (op.ForcedExit? ==> op.amount < U128_LIMIT)
  {
    SignedNumbers(w);
    hide PackedNumber, Witness.Unpack;
  }

  lemma {:induction false} SameToken(op: Tx, w: W.WalletTx)
    requires HasNumbers(op, w)
    ensures op.token == w.token
  {
    hide PackedNumber;
  }

  lemma {:induction false} WithdrawAgrees(s: Snapshot, op: Tx, w: W.WalletTx, done: Outcome)
    requires op.Withdraw? && w.WithdrawTx? && op.account in s.accounts && done == ApplyWithdraw(s, op, w) && done.Done?
    requires HasNumbers(op, w) && op.token <= MAX_TOKEN_ID
    requires Good(LedgerOf(s)) && W.Fits(w) && W.Packable(w)
    ensures Agrees(s, done) <==> WithinLimits(s, op)
  {
    hide LedgerOf, GoodAccount, PackedNumber, Witness.Unpack, CanExecute, Execute, FirstOk, AfterFirst, GoodTx, Spent, FeeOf, Payer, Insert,
      Good, HasNumbers, GetBalance, W.Fits, W.Packable;
    SameToken(op, w);
    NumbersAreGood(op, w);
    PaymentIsFirstHalf(s, op, op.account);
    OneSidedIs(op, LedgerOf(s));
  }

  lemma {:induction false} TwoSidedIs(tx: Tx, ledger: Accounts)
    requires Good(ledger) && TwoSided(tx) && FirstOk(tx, ledger)
    ensures var mid, i := AfterFirst(tx, ledger), Slot(SecondAccount(tx));
            && (CanExecute(tx, ledger) <==> SecondAllowed(tx, mid[i]))
            && (CanExecute(tx, ledger) ==> Execute(tx, ledger) == mid[i := SecondEffect(tx, mid[i])])
  {
    hide FirstAllowed, FirstEffect, SecondAllowed, SecondEffect, GoodTx, GoodAccount;
  }

  /** Without its first half nothing is executed. */
  lemma {:induction false} FirstHalfNeeded(tx: Tx, ledger: Accounts)
    requires Good(ledger) && CanExecute(tx, ledger)
    ensures FirstOk(tx, ledger)
  {
    hide FirstAllowed, SecondAllowed, GoodTx, GoodAccount;
  }

  lemma {:induction false} NewEntry(op: Tx, w: W.WalletTx)
    requires HasNumbers(op, w) && op.TransferToNew? && Witness.Unpack(op.amountPacked) == w.amount < U128_LIMIT
    requires op.token <= MAX_TOKEN_ID && GoodTx(op) && GoodAccount(Entry(EMPTY))
    ensures SecondAllowed(op, Entry(EMPTY))
    ensures SecondEffect(op, Entry(EMPTY)) == Entry(AddBalance(NewAccount(w.toAddress), w.token, w.amount))
  {
    hide Witness.Unpack, PackedNumber;
    EntryWith(NewAccount(w.toAddress), w.token, w.amount);
    EntryWith(EMPTY, w.token, w.amount);
  }

  lemma {:induction false} EmptyIsGood()
    ensures GoodAccount(Entry(EMPTY))
  {
  }

  lemma {:induction false} EntryOf(s: Snapshot, id: nat)
    requires id < ACCOUNTS
    ensures Slot(id) == id && LedgerOf(s)[id] == Entry(if id in s.accounts then s.accounts[id] else EMPTY)
  {
    hide Entry;
  }

  lemma {:induction false} Inserted(s: Snapshot, id: nat, a: ServerAccount)
    ensures Insert(s, id, a).accounts == s.accounts[id := a]
  {
  }

  lemma {:induction false} TransferToNewAgrees(s: Snapshot, op: Tx, w: W.WalletTx, done: Outcome)
    requires op.TransferToNew? && w.TransferTx? && op.from in s.accounts && done == ApplyTransferToNew(s, op, w) && done.Done?
    requires HasNumbers(op, w) && op.token <= MAX_TOKEN_ID
    requires Good(LedgerOf(s)) && W.Fits(w) && W.Packable(w)
    ensures Agrees(s, done) <==> WithinLimits(s, op)
  {
    hide LedgerOf, GoodAccount, PackedNumber, Witness.Unpack, CanExecute, Execute, FirstOk, AfterFirst, GoodTx, Spent, FeeOf, Payer, Insert,
      SecondAllowed, SecondEffect, Entry, AddBalance, Good, HasNumbers, GetBalance, W.Fits, W.Packable;
    SameToken(op, w);
    NumbersAreGood(op, w);
    FitsAmount(w);
    PaymentIsFirstHalf(s, op, op.from);
    var s1 := Insert(s, op.from, Payer(s.accounts[op.from], op.token, Spent(op)));
    Inserted(s, op.from, Payer(s.accounts[op.from], op.token, Spent(op)));
    EntryOf(s1, op.to);
    EmptyIsGood();
    NewEntry(op, w);
    InsertMoves(s1, op.to, AddBalance(NewAccount(w.toAddress), w.token, w.amount));
    if FirstOk(op, LedgerOf(s)) {
      TwoSidedIs(op, LedgerOf(s));
    } else if CanExecute(op, LedgerOf(s)) {
      FirstHalfNeeded(op, LedgerOf(s));
    }
  }

  lemma {:induction false} FitsAmount(w: W.WalletTx)
    requires W.Fits(w)
    ensures w.TransferTx? || w.WithdrawTx? ==> w.amount < U128_LIMIT
  {
  }

  // ----- transfers

  lemma {:induction false} ReceiverEntry(op: Tx, w: W.WalletTx, a: ServerAccount)
    requires HasNumbers(op, w) && op.Transfer? && Witness.Unpack(op.amountPacked) == w.amount && op.token <= MAX_TOKEN_ID
    requires GoodTx(op) && GoodAccount(Entry(a)) && a.address != 0
    ensures SecondAllowed(op, Entry(a)) <==> GetBalance(a, op.token) + w.amount < U128_LIMIT
    ensures SecondAllowed(op, Entry(a)) ==> SecondEffect(op, Entry(a)) == Entry(AddBalance(a, op.token, w.amount))
  {
    hide Witness.Unpack, PackedNumber;
    CreditEntry(a, op.token, w.amount);
  }

  /** The ledger after both halves. */
  lemma {:induction false} BothHalves(op: Tx, ledger: Accounts, mid: Accounts, i: nat)
    requires Good(ledger) && TwoSided(op) && FirstOk(op, ledger) && AfterFirst(op, ledger) == mid && Slot(SecondAccount(op)) == i
    requires |mid| == ACCOUNTS && GoodTx(op) && GoodAccount(mid[i])
    ensures CanExecute(op, ledger) <==> SecondAllowed(op, mid[i])
    ensures CanExecute(op, ledger) ==> Execute(op, ledger) == mid[i := SecondEffect(op, mid[i])]
  {
    hide CanExecute, Execute, AfterFirst, FirstOk, SecondAllowed, SecondEffect, GoodTx, GoodAccount;
    TwoSidedIs(op, ledger);
  }

  lemma {:induction false} TransferAgrees(s: Snapshot, op: Tx, w: W.WalletTx, done: Outcome)
    requires op.Transfer? && w.TransferTx? && op.from in s.accounts && op.to in s.accounts && op.from != op.to
    requires done == ApplyTransfer(s, op, w) && done.Done? && s.accounts[op.to].address != 0
    requires HasNumbers(op, w) && op.token <= MAX_TOKEN_ID
    requires Good(LedgerOf(s)) && W.Fits(w) && W.Packable(w)
    ensures Agrees(s, done) <==> WithinLimits(s, op)
  {
    hide LedgerOf, GoodAccount, PackedNumber, Witness.Unpack, CanExecute, Execute, FirstOk, AfterFirst, GoodTx, Spent, FeeOf, Payer, Insert,
      SecondAllowed, SecondEffect, Entry, AddBalance, Good, HasNumbers, GetBalance, W.Fits, W.Packable;
    SameToken(op, w);
    HasNumbersKind(op, w);
    NumbersAreGood(op, w);
    PaymentIsFirstHalf(s, op, op.from);
    var payer := Payer(s.accounts[op.from], op.token, Spent(op));
    var s1 := Insert(s, op.from, payer);
    Inserted(s, op.from, payer);
    EntryOf(s1, op.to);
    EntryIsGood(s, op.to);
    ReceiverEntry(op, w, s.accounts[op.to]);
    InsertMoves(s1, op.to, AddBalance(s.accounts[op.to], w.token, w.amount));
    if FirstOk(op, LedgerOf(s)) {
      BothHalves(op, LedgerOf(s), LedgerOf(s1), op.to);
    } else if CanExecute(op, LedgerOf(s)) {
      FirstHalfNeeded(op, LedgerOf(s));
    }
  }

  /** A transfer to the payer itself takes the fee only. */
  lemma {:induction false} OwnEntry(op: Tx, w: W.WalletTx, a: ServerAccount)
    requires HasNumbers(op, w) && op.Transfer? && Witness.Unpack(op.amountPacked) == w.amount && op.token <= MAX_TOKEN_ID && GoodTx(op)
    requires GoodAccount(Entry(a)) && a.address != 0 && a.nonce < MAX_NONCE && w.amount + w.fee <= GetBalance(a, op.token)
    ensures var paid := Entry(Payer(a, op.token, w.amount + w.fee));
            GoodAccount(paid) && SecondAllowed(op, paid) && SecondEffect(op, paid) == Entry(Payer(a, op.token, w.fee))
  {
    hide Witness.Unpack, PackedNumber;
    var b := GetBalance(a, op.token);
    EntryWith(a, op.token, b - w.amount - w.fee);
    EntryWith(a, op.token, b - w.fee);
    var paid := Entry(Payer(a, op.token, w.amount + w.fee));
    assert paid == SetBalance(Entry(a), op.token, b - w.amount - w.fee).(nonce := a.nonce + 1);
    assert Entry(Payer(a, op.token, w.fee)) == SetBalance(Entry(a), op.token, b - w.fee).(nonce := a.nonce + 1);
    assert SecondEffect(op, paid).balances == paid.balances[op.token := b - w.fee];
  }

  lemma {:induction false} OwnTransferAgrees(s: Snapshot, op: Tx, w: W.WalletTx, done: Outcome)
    requires op.Transfer? && w.TransferTx? && op.from in s.accounts && op.from == op.to
    requires done == ApplyTransfer(s, op, w) && done.Done? && s.accounts[op.from].address != 0
    requires HasNumbers(op, w) && op.token <= MAX_TOKEN_ID
    requires Good(LedgerOf(s)) && W.Fits(w) && W.Packable(w)
    ensures Agrees(s, done) <==> WithinLimits(s, op)
  {
    hide LedgerOf, GoodAccount, PackedNumber, Witness.Unpack, CanExecute, Execute, FirstOk, AfterFirst, GoodTx, Spent, FeeOf, Payer, Insert,
      SecondAllowed, SecondEffect, Entry, AddBalance, Good, HasNumbers, GetBalance, W.Fits, W.Packable;
    SameToken(op, w);
    var a := s.accounts[op.from];
    NumbersAreGood(op, w);
    PaymentIsFirstHalf(s, op, op.from);
    EntryIsGood(s, op.from);
    InsertMoves(s, op.from, Payer(a, w.token, w.fee));
    InsertMoves(s, op.from, Payer(a, w.token, w.amount + w.fee));
    if FirstOk(op, LedgerOf(s)) {
      OwnEntry(op, w, a);
      TwoSidedIs(op, LedgerOf(s));
    } else if CanExecute(op, LedgerOf(s)) {
      FirstHalfNeeded(op, LedgerOf(s));
    }
  }

  // ----- forced exits

  lemma {:induction false} TargetEntry(op: Tx, a: ServerAccount)
    requires op.ForcedExit? && GoodTx(op) && GoodAccount(Entry(a)) && op.token <= MAX_TOKEN_ID
    requires a.pubKeyHash == 0 && op.ethAddress == a.address && op.amount == GetBalance(a, op.token)
    ensures SecondAllowed(op, Entry(a)) <==> !EmptyServerAccount(a)
    ensures SecondAllowed(op, Entry(a)) ==> SecondEffect(op, Entry(a)) == Entry(SubBalance(a, op.token, op.amount))
  {
    hide Witness.Unpack, PackedNumber;
    EntryWith(a, op.token, 0);
  }

  lemma {:induction false} ForcedExitAgrees(s: Snapshot, op: Tx, w: W.WalletTx, done: Outcome)
    requires op.ForcedExit? && w.ForcedExitTx? && op.initiator in s.accounts && op.target in s.accounts
    requires done == ApplyForcedExit(s, op, w) && done.Done?
    requires op.initiator != op.target && op.target < ACCOUNTS
    requires s.accounts[op.target].pubKeyHash == 0 && op.ethAddress == s.accounts[op.target].address
    requires HasNumbers(op, w) && op.token <= MAX_TOKEN_ID
    requires Good(LedgerOf(s)) && W.Fits(w) && W.Packable(w)
    ensures Agrees(s, done) <==> WithinLimits(s, op)
  {
    hide LedgerOf, GoodAccount, PackedNumber, Witness.Unpack, CanExecute, Execute, FirstOk, AfterFirst, GoodTx, Spent, FeeOf, Payer, Insert,
      SecondAllowed, SecondEffect, Entry, SubBalance, EmptyServerAccount;
    var target := s.accounts[op.target];
    NumbersAreGood(op, w);
    EntryIsGood(s, op.target);
    PaymentIsFirstHalf(s, op, op.initiator);
    var s1 := Insert(s, op.initiator, Payer(s.accounts[op.initiator], op.token, Spent(op)));
    Inserted(s, op.initiator, Payer(s.accounts[op.initiator], op.token, Spent(op)));
    EntryOf(s1, op.target);
    TargetEntry(op, target);
    InsertMoves(s1, op.target, SubBalance(target, op.token, op.amount));
    if FirstOk(op, LedgerOf(s)) {
      TwoSidedIs(op, LedgerOf(s));
    } else if CanExecute(op, LedgerOf(s)) {
      FirstHalfNeeded(op, LedgerOf(s));
    }
  }

  /** A forced exit of the initiator itself never agrees: the server writes the target over the payer. */
  lemma {:induction false} OwnTargetEntry(op: Tx, a: ServerAccount, fee: nat)
    requires op.ForcedExit? && GoodTx(op) && GoodAccount(Entry(a)) && op.token <= MAX_TOKEN_ID && a.nonce < MAX_NONCE
    requires op.amount == GetBalance(a, op.token) && fee <= GetBalance(a, op.token)
    ensures var paid := Entry(Payer(a, op.token, fee));
            GoodAccount(paid) && (SecondAllowed(op, paid) ==> SecondEffect(op, paid) != Entry(SubBalance(a, op.token, op.amount)))
  {
    hide Witness.Unpack, PackedNumber;
    EntryWith(a, op.token, GetBalance(a, op.token) - fee);
    var paid := Entry(Payer(a, op.token, fee));
    assert paid == SetBalance(Entry(a), op.token, GetBalance(a, op.token) - fee).(nonce := a.nonce + 1);
    assert SecondAllowed(op, paid) ==> SecondEffect(op, paid).nonce == a.nonce + 1;
  }

  lemma {:induction false} OwnForcedExitDiffers(s: Snapshot, op: Tx, w: W.WalletTx, done: Outcome)
    requires op.ForcedExit? && w.ForcedExitTx? && op.initiator in s.accounts && op.initiator == op.target
    requires done == ApplyForcedExit(s, op, w) && done.Done?
    requires HasNumbers(op, w) && op.token <= MAX_TOKEN_ID
    requires Good(LedgerOf(s)) && W.Fits(w) && W.Packable(w)
    ensures !Agrees(s, done)
  {
    hide LedgerOf, GoodAccount, PackedNumber, Witness.Unpack, CanExecute, Execute, FirstOk, AfterFirst, GoodTx, Spent, FeeOf, Payer, Insert,
      SecondAllowed, SecondEffect, Entry, SubBalance;
    var a := s.accounts[op.initiator];
    NumbersAreGood(op, w);
    EntryIsGood(s, op.initiator);
    PaymentIsFirstHalf(s, op, op.initiator);
    InsertTwice(s, op.initiator, Payer(a, op.token, Spent(op)), SubBalance(a, op.token, op.amount));
    InsertMoves(s, op.initiator, SubBalance(a, op.token, op.amount));
    InsertMoves(s, op.initiator, Payer(a, op.token, Spent(op)));
    if CanExecute(op, LedgerOf(s)) {
      FirstHalfNeeded(op, LedgerOf(s));
      TwoSidedIs(op, LedgerOf(s));
      OwnTargetEntry(op, a, Spent(op));
      var mid := LedgerOf(s)[op.initiator := Entry(Payer(a, op.token, Spent(op)))];
      assert mid[op.initiator] == Entry(Payer(a, op.token, Spent(op)));
      assert Execute(op, LedgerOf(s))[op.initiator] == SecondEffect(op, mid[op.initiator]);
      assert LedgerOf(done.after)[op.initiator] == Entry(SubBalance(a, op.token, op.amount));
    }
  }

  lemma {:induction false} InsertTwice(s: Snapshot, id: nat, a: ServerAccount, b: ServerAccount)
    ensures Insert(Insert(s, id, a), id, b).accounts == Insert(s, id, b).accounts
    ensures LedgerOf(Insert(Insert(s, id, a), id, b)) == LedgerOf(Insert(s, id, b))
  {
    assert s.accounts[id := a][id := b] == s.accounts[id := b];
  }

  // ----- key changes

  lemma {:induction false} KeyEntry(op: Tx, w: W.WalletTx, a: ServerAccount)
    requires op.ChangePubKey? && HasNumbers(op, w) && FeeOf(op) == w.fee && GoodTx(op) && GoodAccount(Entry(a))
    requires op.token <= PROCESSABLE_TOKENS && op.address == a.address && w.nonce == a.nonce && w.fee <= GetBalance(a, op.token)
    ensures FirstAllowed(op, Entry(a))
    ensures FirstEffect(op, Entry(a)) == Entry(Payer(a, w.token, w.fee).(pubKeyHash := w.newPkHash)) <==> a.nonce != MAX_NONCE
  {
    hide Witness.Unpack, PackedNumber;
    EntryWith(a, op.token, GetBalance(a, op.token) - w.fee);
    var after := Entry(Payer(a, w.token, w.fee).(pubKeyHash := w.newPkHash));
    assert after.nonce == (a.nonce + 1) % 0x1_0000_0000;
    if a.nonce != MAX_NONCE {
      assert FirstEffect(op, Entry(a)).balances == after.balances;
    }
  }

  lemma {:induction false} ChangePubKeyAgrees(s: Snapshot, op: Tx, w: W.WalletTx, done: Outcome)
    requires op.ChangePubKey? && w.ChangePubKeyTx? && op.account in s.accounts && op.account < ACCOUNTS
    requires done == ApplyChangePubKey(s, op, w) && done.Done?
    requires op.address == s.accounts[op.account].address && op.newPubKeyHash < ADDRESS_LIMIT
    requires HasNumbers(op, w)
    requires Good(LedgerOf(s)) && W.Fits(w) && W.Packable(w)
    ensures Agrees(s, done) <==> WithinLimits(s, op)
  {
    hide LedgerOf, GoodAccount, PackedNumber, Witness.Unpack, CanExecute, Execute, FirstOk, AfterFirst, FeeOf, Payer, Insert, GoodTx,
      FirstAllowed, FirstEffect, Entry;
    var a := s.accounts[op.account];
    NumbersAreGood(op, w);
    EntryIsGood(s, op.account);
    InsertMoves(s, op.account, Payer(a, w.token, w.fee).(pubKeyHash := w.newPkHash));
    OneSidedIs(op, LedgerOf(s));
    if GoodTx(op) {
      FirstHalfIs(op, LedgerOf(s));
      if op.token <= PROCESSABLE_TOKENS {
        KeyEntry(op, w, a);
        SameSlot(LedgerOf(s), op.account, FirstEffect(op, Entry(a)), Entry(Payer(a, w.token, w.fee).(pubKeyHash := w.newPkHash)));
      }
    } else if CanExecute(op, LedgerOf(s)) {
      FirstHalfNeeded(op, LedgerOf(s));
      ExecutedIsGood(op, LedgerOf(s));
    }
  }

  lemma {:induction false} SameSlot(ledger: Accounts, i: nat, x: Account, y: Account)
    requires i < |ledger|
    ensures ledger[i := x] == ledger[i := y] <==> x == y
  {
    assert ledger[i := x][i] == x && ledger[i := y][i] == y;
  }

  lemma {:induction false} ExecutedIsGood(tx: Tx, ledger: Accounts)
    requires Good(ledger) && FirstOk(tx, ledger)
    ensures GoodTx(tx)
  {
    hide GoodTx, FirstAllowed, GoodAccount;
  }

  // ----- requests of the contract

  lemma {:induction false} DepositEntry(op: Tx, a: ServerAccount, isNew: bool)
    requires op.Deposit? && GoodTx(op) && GoodAccount(Entry(a)) && op.token <= MAX_TOKEN_ID
    requires if isNew then a == NewAccount(op.address) else op.address == a.address
    ensures var shown := if isNew then EMPTY else a;
            && GoodAccount(Entry(shown))
            && (FirstAllowed(op, Entry(shown)) <==>
                  if isNew then op.address != 0 else !EmptyServerAccount(a) && GetBalance(a, op.token) + op.amount < U128_LIMIT)
            && (FirstAllowed(op, Entry(shown)) ==> FirstEffect(op, Entry(shown)) == Entry(AddBalance(a, op.token, op.amount)))
  {
    hide Witness.Unpack, PackedNumber;
    CreditEntry(a, op.token, op.amount);
    CreditEntry(EMPTY, op.token, op.amount);
  }

  lemma {:induction false} DepositAgrees(s: Snapshot, op: Tx)
    requires Good(LedgerOf(s)) && op.Deposit? && op.token <= MAX_TOKEN_ID && op.account < ACCOUNTS
    requires op.amount < U128_LIMIT && op.address < ADDRESS_LIMIT
    requires op.account in s.accounts ==> s.accounts[op.account].address == op.address
    ensures Agrees(s, ApplyDeposit(s, op)) <==> WithinLimits(s, op)
  {
    var isNew := op.account !in s.accounts;
    var a := if isNew then NewAccount(op.address) else s.accounts[op.account];
    DepositIsGood(op);
    if isNew {
      NewIsGood(op.address);
    } else {
      EntryIsGood(s, op.account);
    }
    hide LedgerOf, GoodAccount, PackedNumber, Witness.Unpack, CanExecute, Execute, FirstOk, AfterFirst, FeeOf, Insert, GoodTx,
      FirstAllowed, FirstEffect, Entry, AddBalance, EmptyServerAccount;
    EntryOf(s, op.account);
    InsertMoves(s, op.account, AddBalance(a, op.token, op.amount));
    DepositEntry(op, a, isNew);
    OneSidedIs(op, LedgerOf(s));
    FirstHalfIs(op, LedgerOf(s));
  }

  lemma {:induction false} DepositIsGood(op: Tx)
    requires op.Deposit? && op.token <= MAX_TOKEN_ID && op.amount < U128_LIMIT && op.address < ADDRESS_LIMIT
    ensures GoodTx(op)
  {
  }

  lemma {:induction false} NewIsGood(address: nat)
    requires address < ADDRESS_LIMIT
    ensures GoodAccount(Entry(NewAccount(address)))
  {
  }

  lemma {:induction false} ExitEntry(op: Tx, a: ServerAccount)
    requires op.FullExit? && GoodTx(op) && GoodAccount(Entry(a)) && op.token <= MAX_TOKEN_ID
    requires op.amount == if a.address == op.ethAddress then GetBalance(a, op.token) else 0
    ensures FirstAllowed(op, Entry(a)) <==> a.nonce != MAX_NONCE
    ensures FirstAllowed(op, Entry(a)) ==>
              FirstEffect(op, Entry(a)) == if a.address == op.ethAddress then Entry(SubBalance(a, op.token, op.amount)) else Entry(a)
  {
    hide Witness.Unpack, PackedNumber;
    EntryWith(a, op.token, 0);
    EntryWith(a, op.token, GetBalance(a, op.token));
    if a.address != op.ethAddress {
      assert Entry(a).balances[op.token := GetBalance(a, op.token)] == Entry(a).balances;
    }
  }

  lemma {:induction false} FullExitIsGood(op: Tx)
    requires op.FullExit? && op.token <= MAX_TOKEN_ID
    ensures GoodTx(op) <==> op.amount < U128_LIMIT
  {
  }

  lemma {:induction false} FullExitAgrees(s: Snapshot, op: Tx)
    requires Good(LedgerOf(s)) && op.FullExit? && op.token <= MAX_TOKEN_ID && op.account < ACCOUNTS
    requires op.amount == if op.account in s.accounts && s.accounts[op.account].address == op.ethAddress
                          then GetBalance(s.accounts[op.account], op.token) else 0
    ensures Agrees(s, ApplyFullExit(s, op)) <==> WithinLimits(s, op)
  {
    hide LedgerOf, GoodAccount, PackedNumber, Witness.Unpack, CanExecute, Execute, FirstOk, AfterFirst, FeeOf, Insert, GoodTx,
      FirstAllowed, FirstEffect, Entry, SubBalance, Good, GetBalance;
    var known := op.account in s.accounts;
    var a := if known then s.accounts[op.account] else EMPTY;
    if known {
      EntryIsGood(s, op.account);
    } else {
      EmptyIsGood();
    }
    FullExitIsGood(op);
    NothingEmpty(op.token);
    EntryOf(s, op.account);
    ExitEntry(op, a);
    OneSidedIs(op, LedgerOf(s));
    FirstHalfIs(op, LedgerOf(s));
    if known && a.address == op.ethAddress {
      InsertMoves(s, op.account, SubBalance(a, op.token, op.amount));
    } else {
      SameLedger(LedgerOf(s), op.account);
      NothingTaken(op, a);
    }
  }

  lemma {:induction false} NothingEmpty(token: nat)
    ensures GetBalance(EMPTY, token) == 0
  {
  }

  lemma {:induction false} NothingTaken(op: Tx, a: ServerAccount)
    requires op.FullExit? && op.token < TOKENS && op.amount == 0 && (a == EMPTY || a.address != op.ethAddress)
    ensures a == EMPTY ==> op.amount <= GetBalance(a, op.token) && Entry(SubBalance(a, op.token, op.amount)) == Entry(a)
  {
    if a == EMPTY {
      EntryWith(EMPTY, op.token, 0);
      assert Entry(EMPTY).balances[op.token := 0] == Entry(EMPTY).balances;
    }
  }

  lemma {:induction false} SameLedger(ledger: Accounts, i: nat)
    requires i < |ledger|
    ensures ledger[i := ledger[i]] == ledger
  {
  }

  // ----- any request

  lemma {:induction false} KeysFit(w: W.WalletTx)
    requires W.Fits(w) && w.ChangePubKeyTx?
    ensures w.newPkHash < ADDRESS_LIMIT
  {
  }

  lemma {:induction false} TransferRequestAgrees(s: Snapshot, r: Request)
    requires Consistent(s) && Good(LedgerOf(s)) && RequestFits(r) && Perform(s, r).Done? && r.SignedRequest? && r.w.TransferTx?
    ensures Agrees(s, Perform(s, r)) <==> WithinLimits(s, Perform(s, r).op)
  {
    hide *;
    PerformMeans(s, r);
    CreatedIsTransfer(s, r);
    CreatedTransfer(s, r.w, r.signer);
    RequestNumbers(r);
    var op := Perform(s, r).op;
    NamesMeans(s, op);
    if op.TransferToNew? {
      TransferToNewAgrees(s, op, r.w, Perform(s, r));
    } else if op.from == op.to {
      OwnTransferAgrees(s, op, r.w, Perform(s, r));
    } else {
      TransferAgrees(s, op, r.w, Perform(s, r));
    }
  }

  lemma {:induction false} RequestNumbers(r: Request)
    requires RequestFits(r)
    ensures r.SignedRequest? ==> W.Fits(r.w) && W.Packable(r.w)
    ensures r.DepositRequest? ==> r.amount < U128_LIMIT && r.address < ADDRESS_LIMIT
    ensures r.FullExitRequest? ==> r.accountId < ACCOUNTS && r.ethAddress < ADDRESS_LIMIT
  {
    hide W.Fits, W.Packable;
  }

  lemma {:induction false} OtherRequestAgrees(s: Snapshot, r: Request)
    requires Consistent(s) && Good(LedgerOf(s)) && |s.accounts| < ACCOUNTS && RequestFits(r) && Perform(s, r).Done?
    requires r.SignedRequest? && !r.w.TransferTx?
    ensures Agrees(s, Perform(s, r)) <==> WithinLimits(s, Perform(s, r).op)
  {
    hide *;
    PerformMeans(s, r);
    CreatedOther(s, r);
    IdsAreSmall(s);
    RequestNumbers(r);
    var op := Perform(s, r).op;
    NamesMeans(s, op);
    HasNumbersKind(op, r.w);
    if op.Withdraw? {
      WithdrawAgrees(s, op, r.w, Perform(s, r));
    } else if op.ChangePubKey? {
      NewKeyFits(op, r.w);
      ChangePubKeyAgrees(s, op, r.w, Perform(s, r));
    } else if op.initiator == op.target {
      OwnForcedExitDiffers(s, op, r.w, Perform(s, r));
      OwnTargetIsOutside(s, op);
    } else {
      ForcedExitAgrees(s, op, r.w, Perform(s, r));
    }
  }

  lemma {:induction false} ContractRequestAgrees(s: Snapshot, r: Request)
    requires Consistent(s) && Good(LedgerOf(s)) && |s.accounts| < ACCOUNTS && RequestFits(r) && Perform(s, r).Done? && !r.SignedRequest?
    ensures Agrees(s, Perform(s, r)) <==> WithinLimits(s, Perform(s, r).op)
  {
    hide *;
    PerformMeans(s, r);
    CreatedRequest(s, r);
    IdsAreSmall(s);
    RequestNumbers(r);
    var op := Perform(s, r).op;
    if op.Deposit? {
      DepositAgrees(s, op);
    } else {
      FullExitAgrees(s, op);
    }
  }

  /** The server against the circuit. Whenever the server executes a request, the circuit executes the operation
      with the same result if and only if it keeps the limits that the server does not check. */
  lemma {:induction false} CircuitAgreesIff(s: Snapshot, r: Request)
    requires Consistent(s) && Good(LedgerOf(s)) && |s.accounts| < ACCOUNTS && RequestFits(r) && Perform(s, r).Done?
    ensures Agrees(s, Perform(s, r)) <==> WithinLimits(s, Perform(s, r).op)
  {
    hide *;
    if r.SignedRequest? {
      if r.w.TransferTx? {
        TransferRequestAgrees(s, r);
      } else {
        OtherRequestAgrees(s, r);
      }
    } else {
      ContractRequestAgrees(s, r);
    }
  }

  lemma {:induction false} NewKeyFits(op: Tx, w: W.WalletTx)
    requires op.ChangePubKey? && HasNumbers(op, w) && W.Fits(w)
    ensures op.newPubKeyHash < ADDRESS_LIMIT
  {
    hide PackedNumber;
  }

  lemma {:induction false} OwnTargetIsOutside(s: Snapshot, op: Tx)
    requires op.ForcedExit? && op.initiator == op.target && NamesAccounts(s, op)
    ensures !WithinLimits(s, op)
  {
  }

  lemma {:induction false} IdsAreSmall(s: Snapshot)
    requires Consistent(s) && |s.accounts| < ACCOUNTS
    ensures FreeId(s) < ACCOUNTS && forall id :: id in s.accounts ==> id < ACCOUNTS
  {
  }

  // ----- the circuit against the server

  /** The operation that the transaction asks for, with no check made. */
  function Intended(s: Snapshot, w: W.WalletTx): Tx
    requires Consistent(s) && Knows(s, w)
  {
    match w
    case TransferTx(_, sender, receiver, token, amount, fee, _) =>
      if receiver in s.ids then Transfer(s.ids[sender], token, s.ids[receiver], PackAmount(amount), PackFee(fee))
      else TransferToNew(s.ids[sender], token, PackAmount(amount), receiver, FreeId(s), PackFee(fee))
    case WithdrawTx(_, sender, receiver, token, amount, fee, _) => Withdraw(s.ids[sender], token, amount, PackFee(fee), receiver)
    case ChangePubKeyTx(id, account, key, token, fee, nonce) => ChangePubKey(id, key, account, nonce, token, PackFee(fee))
    case ForcedExitTx(id, target, token, fee, _) =>
      ForcedExit(id, s.ids[target], token, GetBalance(s.accounts[s.ids[target]], token), PackFee(fee), target)
  }

  /** What the server checks and the circuit does not, or only through the signed message: the last processable token, the
      receiver zero, the payer's id, nonce and key, and that nobody is forced out by itself. */
  predicate ServerChecks(s: Snapshot, w: W.WalletTx, signer: Option<nat>, ethOk: bool)
    requires Knows(s, w)
  {
    match w
    case TransferTx(id, sender, receiver, token, _, _, nonce) =>
      && token <= MAX_TOKEN_ID && receiver != 0 && s.ids[sender] == id && id in s.accounts && s.accounts[id].nonce == nonce
      && s.accounts[id].pubKeyHash != 0 && signer == Some(s.accounts[id].pubKeyHash)
    case WithdrawTx(id, sender, _, token, _, _, nonce) =>
      && token <= MAX_TOKEN_ID && s.ids[sender] == id && id in s.accounts && s.accounts[id].nonce == nonce
      && s.accounts[id].pubKeyHash != 0 && signer == Some(s.accounts[id].pubKeyHash)
    case ChangePubKeyTx(id, account, key, _, _, nonce) =>
      && s.ids[account] == id && id in s.accounts && s.accounts[id].nonce == nonce != MAX_NONCE && signer == Some(key) && ethOk
    case ForcedExitTx(id, target, token, _, nonce) =>
      && token <= MAX_TOKEN_ID && s.accounts[id].nonce == nonce && s.ids[target] != id && signer == Some(s.accounts[id].pubKeyHash)
  }

  /** The server executes the transaction, and the circuit does the same. */
  ghost predicate BothExecute(s: Snapshot, r: Request)
    requires Consistent(s)
  {
    Perform(s, r).Done? && Agrees(s, Perform(s, r))
  }

  lemma {:induction false} ExecutedPays(op: Tx, ledger: Accounts)
    requires Good(ledger) && CanExecute(op, ledger) && (Pays(op) || op.ChangePubKey?)
    ensures GoodTx(op) && (if op.ChangePubKey? then FeeOf(op) else Spent(op)) <= ledger[Slot(FirstAccount(op))].balances[op.token]
    ensures Pays(op) ==> ledger[Slot(FirstAccount(op))].nonce < MAX_NONCE
  {
    FirstHalfNeeded(op, ledger);
    hide Witness.Unpack, GoodAccount, SecondAllowed, FirstEffect;
  }

  lemma {:induction false} ExecutedReceives(op: Tx, ledger: Accounts)
    requires Good(ledger) && CanExecute(op, ledger) && (op.Transfer? || op.ForcedExit?)
    requires Slot(FirstAccount(op)) != Slot(SecondAccount(op))
    ensures SecondAllowed(op, ledger[Slot(SecondAccount(op))])
  {
    FirstHalfNeeded(op, ledger);
    hide Witness.Unpack, GoodAccount, SecondAllowed, FirstEffect, FirstAllowed, GoodTx;
  }

  /** What the circuit's acceptance says about the payer. */
  lemma {:induction false} PayerCanPay(s: Snapshot, op: Tx, w: W.WalletTx, id: nat)
    requires Good(LedgerOf(s)) && W.Fits(w) && W.Packable(w) && HasNumbers(op, w) && FirstAccount(op) == id && id in s.accounts && id < ACCOUNTS
    requires CanExecute(op, LedgerOf(s))
    ensures GoodTx(op) && op.token <= PROCESSABLE_TOKENS
    ensures (if op.ChangePubKey? then w.fee else Spent(op)) <= GetBalance(s.accounts[id], w.token)
    ensures Pays(op) ==> s.accounts[id].nonce < MAX_NONCE
  {
    hide Good, LedgerOf, PackedNumber, Witness.Unpack, CanExecute, Consistent, Entry, GoodAccount, W.Fits, W.Packable, GoodTx, FeeOf, Spent;
    NumbersAreGood(op, w);
    HasNumbersKind(op, w);
    ExecutedPays(op, LedgerOf(s));
    EntryIsGood(s, id);
    EntryShows(s, id, w.token);
    SameToken(op, w);
  }

  lemma {:induction false} EntryShows(s: Snapshot, id: nat, token: nat)
    requires id in s.accounts && id < ACCOUNTS
    ensures LedgerOf(s)[id].nonce == s.accounts[id].nonce && LedgerOf(s)[id].pubKeyHash == s.accounts[id].pubKeyHash
    ensures token < TOKENS ==> LedgerOf(s)[id].balances[token] == GetBalance(s.accounts[id], token)
  {
  }

  lemma {:induction false} TransferIsPerformed(s: Snapshot, w: W.WalletTx, signer: Option<nat>, ethOk: bool)
    requires Consistent(s) && w.TransferTx? && Knows(s, w) && ServerChecks(s, w, signer, ethOk) && |s.accounts| < ACCOUNTS
    requires w.amount + w.fee <= GetBalance(s.accounts[w.accountId], w.token)
    ensures Perform(s, SignedRequest(w, signer, ethOk)).Done? && Perform(s, SignedRequest(w, signer, ethOk)).op == Intended(s, w)
  {
    IdsAreSmall(s);
    hide PackedNumber, GetBalance, Payer, Insert, AddBalance;
  }

  lemma {:induction false} TransferIsWithin(s: Snapshot, op: Tx)
    requires NamesAccounts(s, op) && (op.Transfer? || op.TransferToNew?) && s.accounts[op.from].nonce < MAX_NONCE
    requires op.Transfer? && op.from != op.to ==> GetBalance(s.accounts[op.to], op.token) + Witness.Unpack(op.amountPacked) < U128_LIMIT
    ensures WithinLimits(s, op)
  {
    hide Witness.Unpack, GetBalance;
  }

  lemma {:induction false} CheckedPayer(s: Snapshot, w: W.WalletTx, signer: Option<nat>, ethOk: bool)
    requires Consistent(s) && Knows(s, w) && ServerChecks(s, w, signer, ethOk)
    ensures w.accountId in s.accounts && FirstAccount(Intended(s, w)) == w.accountId && NamesAccounts(s, Intended(s, w))
    ensures HasNumbers(Intended(s, w), w)
    ensures Intended(s, w).Transfer? || Intended(s, w).TransferToNew? ==> Intended(s, w).from == w.accountId
  {
    hide PackedNumber, GetBalance;
  }

  lemma {:induction false} TransferDecides(s: Snapshot, w: W.WalletTx, signer: Option<nat>, ethOk: bool)
    requires Consistent(s) && Good(LedgerOf(s)) && |s.accounts| < ACCOUNTS && W.Fits(w) && W.Packable(w) && w.TransferTx?
    requires Knows(s, w) && CanExecute(Intended(s, w), LedgerOf(s)) && ServerChecks(s, w, signer, ethOk)
    ensures Perform(s, SignedRequest(w, signer, ethOk)).Done? && Perform(s, SignedRequest(w, signer, ethOk)).op == Intended(s, w)
    ensures WithinLimits(s, Intended(s, w))
  {
    hide *;
    var op := Intended(s, w);
    IntendedTransfer(s, w);
    CheckedPayer(s, w, signer, ethOk);
    IdsAreSmall(s);
    NumbersAreGood(op, w);
    PayerCanPay(s, op, w, w.accountId);
    NamesMeans(s, op);
    TransferIsPerformed(s, w, signer, ethOk);
    if op.Transfer? && op.from != op.to {
      EntryIsGood(s, op.to);
      EntryIsGood(s, op.from);
      TransferReceives(op, LedgerOf(s));
      RoomForReceiver(s, op);
    }
    TransferIsWithin(s, op);
  }

  lemma {:induction false} TransferReceives(op: Tx, ledger: Accounts)
    requires Good(ledger) && CanExecute(op, ledger) && op.Transfer? && op.from < ACCOUNTS && op.to < ACCOUNTS && op.from != op.to
    ensures SecondAllowed(op, ledger[op.to])
  {
    hide CanExecute, SecondAllowed, GoodAccount;
    ExecutedReceives(op, ledger);
  }

  lemma {:induction false} IntendedTransfer(s: Snapshot, w: W.WalletTx)
    requires Consistent(s) && w.TransferTx? && Knows(s, w)
    ensures var op := Intended(s, w);
            && HasNumbers(op, w) && NamesAccounts(s, op) && (op.Transfer? || op.TransferToNew?) && Pays(op)
            && FirstAccount(op) == s.ids[w.fromAddress]
  {
    hide PackedNumber;
  }

  lemma {:induction false} RoomForReceiver(s: Snapshot, op: Tx)
    requires Good(LedgerOf(s)) && op.Transfer? && op.to in s.accounts && op.to < ACCOUNTS && GoodTx(op)
    requires LedgerOf(s)[op.to] == Entry(s.accounts[op.to]) && GoodAccount(LedgerOf(s)[op.to]) && SecondAllowed(op, LedgerOf(s)[op.to])
    ensures GetBalance(s.accounts[op.to], op.token) + Witness.Unpack(op.amountPacked) < U128_LIMIT
  {
    hide LedgerOf, Witness.Unpack;
  }

  lemma {:induction false} WithdrawDecides(s: Snapshot, w: W.WalletTx, signer: Option<nat>, ethOk: bool)
    requires Consistent(s) && Good(LedgerOf(s)) && |s.accounts| < ACCOUNTS && W.Fits(w) && W.Packable(w) && w.WithdrawTx?
    requires Knows(s, w) && CanExecute(Intended(s, w), LedgerOf(s)) && ServerChecks(s, w, signer, ethOk)
    ensures Perform(s, SignedRequest(w, signer, ethOk)).Done? && Perform(s, SignedRequest(w, signer, ethOk)).op == Intended(s, w)
    ensures WithinLimits(s, Intended(s, w))
  {
    hide *;
    var op := Intended(s, w);
    CheckedPayer(s, w, signer, ethOk);
    IdsAreSmall(s);
    NumbersAreGood(op, w);
    IntendedKind(s, w);
    PayerCanPay(s, op, w, w.accountId);
    WithdrawIsPerformed(s, w, signer, ethOk);
  }

  lemma {:induction false} IntendedKind(s: Snapshot, w: W.WalletTx)
    requires Consistent(s) && Knows(s, w)
    ensures w.WithdrawTx? ==> Intended(s, w).Withdraw? && Pays(Intended(s, w))
    ensures w.ChangePubKeyTx? ==> Intended(s, w).ChangePubKey?
    ensures w.ForcedExitTx? ==> Intended(s, w).ForcedExit? && Pays(Intended(s, w))
  {
    hide PackedNumber, GetBalance;
  }

  lemma {:induction false} WithdrawIsPerformed(s: Snapshot, w: W.WalletTx, signer: Option<nat>, ethOk: bool)
    requires Consistent(s) && w.WithdrawTx? && Knows(s, w) && ServerChecks(s, w, signer, ethOk) && w.accountId < ACCOUNTS
    requires w.amount + w.fee <= GetBalance(s.accounts[w.accountId], w.token) && s.accounts[w.accountId].nonce < MAX_NONCE
    ensures Perform(s, SignedRequest(w, signer, ethOk)).Done? && Perform(s, SignedRequest(w, signer, ethOk)).op == Intended(s, w)
    ensures WithinLimits(s, Intended(s, w))
  {
    hide PackedNumber, GetBalance, Payer, Insert, AddBalance;
  }

  lemma {:induction false} ChangePubKeyDecides(s: Snapshot, w: W.WalletTx, signer: Option<nat>, ethOk: bool)
    requires Consistent(s) && Good(LedgerOf(s)) && |s.accounts| < ACCOUNTS && W.Fits(w) && W.Packable(w) && w.ChangePubKeyTx?
    requires Knows(s, w) && CanExecute(Intended(s, w), LedgerOf(s)) && ServerChecks(s, w, signer, ethOk)
    ensures Perform(s, SignedRequest(w, signer, ethOk)).Done? && Perform(s, SignedRequest(w, signer, ethOk)).op == Intended(s, w)
    ensures WithinLimits(s, Intended(s, w))
  {
    hide *;
    var op := Intended(s, w);
    CheckedPayer(s, w, signer, ethOk);
    IdsAreSmall(s);
    IntendedKind(s, w);
    SameToken(op, w);
    PayerCanPay(s, op, w, w.accountId);
    ChangePubKeyIsPerformed(s, w, signer, ethOk);
  }

  lemma {:induction false} ChangePubKeyIsPerformed(s: Snapshot, w: W.WalletTx, signer: Option<nat>, ethOk: bool)
    requires Consistent(s) && w.ChangePubKeyTx? && Knows(s, w) && ServerChecks(s, w, signer, ethOk) && w.accountId < ACCOUNTS
    requires w.fee <= GetBalance(s.accounts[w.accountId], w.token) && w.token <= PROCESSABLE_TOKENS
    ensures Perform(s, SignedRequest(w, signer, ethOk)).Done? && Perform(s, SignedRequest(w, signer, ethOk)).op == Intended(s, w)
    ensures WithinLimits(s, Intended(s, w))
  {
    hide PackedNumber, GetBalance, Payer, Insert, AddBalance;
  }

  lemma {:induction false} ForcedExitDecides(s: Snapshot, w: W.WalletTx, signer: Option<nat>, ethOk: bool)
    requires Consistent(s) && Good(LedgerOf(s)) && |s.accounts| < ACCOUNTS && W.Fits(w) && W.Packable(w) && w.ForcedExitTx?
    requires Knows(s, w) && CanExecute(Intended(s, w), LedgerOf(s)) && ServerChecks(s, w, signer, ethOk)
    ensures Perform(s, SignedRequest(w, signer, ethOk)).Done? && Perform(s, SignedRequest(w, signer, ethOk)).op == Intended(s, w)
    ensures WithinLimits(s, Intended(s, w))
  {
    hide *;
    var op := Intended(s, w);
    CheckedPayer(s, w, signer, ethOk);
    IdsAreSmall(s);
    IntendedKind(s, w);
    NumbersAreGood(op, w);
    PayerCanPay(s, op, w, w.accountId);
    NamesMeans(s, op);
    CheckedTarget(s, w, signer, ethOk);
    EntryOf(s, op.target);
    ForcedReceives(op, LedgerOf(s));
    TargetIsLocked(op, s.accounts[op.target], LedgerOf(s)[op.target]);
    ForcedExitIsPerformed(s, w, signer, ethOk);
  }

  lemma {:induction false} CheckedTarget(s: Snapshot, w: W.WalletTx, signer: Option<nat>, ethOk: bool)
    requires Consistent(s) && w.ForcedExitTx? && Knows(s, w) && ServerChecks(s, w, signer, ethOk)
    ensures Intended(s, w).ForcedExit? && Intended(s, w).initiator == w.accountId != Intended(s, w).target == s.ids[w.target]
    ensures Intended(s, w).target in s.accounts
  {
    hide PackedNumber, GetBalance;
  }

  lemma {:induction false} ForcedReceives(op: Tx, ledger: Accounts)
    requires Good(ledger) && CanExecute(op, ledger) && op.ForcedExit? && op.initiator < ACCOUNTS && op.target < ACCOUNTS && op.initiator != op.target
    ensures GoodTx(op) && GoodAccount(ledger[op.target]) && SecondAllowed(op, ledger[op.target])
  {
    hide CanExecute, SecondAllowed, GoodAccount, GoodTx;
    ExecutedReceives(op, ledger);
    FirstHalfNeeded(op, ledger);
    ExecutedIsGood(op, ledger);
  }

  lemma {:induction false} TargetIsLocked(op: Tx, a: ServerAccount, shown: Account)
    requires op.ForcedExit? && shown == Entry(a) && GoodTx(op) && GoodAccount(shown) && SecondAllowed(op, shown)
    ensures a.pubKeyHash == 0 && !EmptyServerAccount(a)
  {
    hide Witness.Unpack;
  }

  lemma {:induction false} ForcedExitIsPerformed(s: Snapshot, w: W.WalletTx, signer: Option<nat>, ethOk: bool)
    requires Consistent(s) && w.ForcedExitTx? && Knows(s, w) && ServerChecks(s, w, signer, ethOk) && w.accountId < ACCOUNTS
    requires w.fee <= GetBalance(s.accounts[w.accountId], w.token) && s.accounts[w.accountId].nonce < MAX_NONCE
    requires s.accounts[s.ids[w.target]].pubKeyHash == 0 && !EmptyServerAccount(s.accounts[s.ids[w.target]])
    ensures Perform(s, SignedRequest(w, signer, ethOk)).Done? && Perform(s, SignedRequest(w, signer, ethOk)).op == Intended(s, w)
    ensures WithinLimits(s, Intended(s, w))
  {
    hide PackedNumber, GetBalance, Payer, Insert, SubBalance;
  }

  lemma {:induction false} PerformedIsChecked(s: Snapshot, w: W.WalletTx, signer: Option<nat>, ethOk: bool)
    requires Consistent(s) && Knows(s, w) && Perform(s, SignedRequest(w, signer, ethOk)).Done?
    requires WithinLimits(s, Perform(s, SignedRequest(w, signer, ethOk)).op)
    ensures Perform(s, SignedRequest(w, signer, ethOk)).op == Intended(s, w) && ServerChecks(s, w, signer, ethOk)
  {
    hide PackedNumber, GetBalance, Payer, Insert, SubBalance, AddBalance, Witness.Unpack;
  }

  lemma {:induction false} SignedFits(w: W.WalletTx, signer: Option<nat>, ethOk: bool)
    requires W.Fits(w) && W.Packable(w)
    ensures RequestFits(SignedRequest(w, signer, ethOk))
  {
    hide W.Fits, W.Packable;
  }

  lemma {:induction false} AgreesMeans(s: Snapshot, done: Outcome)
    requires Good(LedgerOf(s)) && done.Done? && Agrees(s, done)
    ensures CanExecute(done.op, LedgerOf(s))
  {
    hide Good, LedgerOf, CanExecute, Execute;
  }

  lemma {:induction false} CircuitDecides(s: Snapshot, w: W.WalletTx, signer: Option<nat>, ethOk: bool)
    requires Consistent(s) && Good(LedgerOf(s)) && |s.accounts| < ACCOUNTS && W.Fits(w) && W.Packable(w) && Knows(s, w)
    requires CanExecute(Intended(s, w), LedgerOf(s)) && ServerChecks(s, w, signer, ethOk)
    ensures BothExecute(s, SignedRequest(w, signer, ethOk))
  {
    hide *;
    SignedFits(w, signer, ethOk);
    match w {
      case TransferTx(_, _, _, _, _, _, _) => TransferDecides(s, w, signer, ethOk);
      case WithdrawTx(_, _, _, _, _, _, _) => WithdrawDecides(s, w, signer, ethOk);
      case ChangePubKeyTx(_, _, _, _, _, _) => ChangePubKeyDecides(s, w, signer, ethOk);
      case ForcedExitTx(_, _, _, _, _) => ForcedExitDecides(s, w, signer, ethOk);
    }
    CircuitAgreesIff(s, SignedRequest(w, signer, ethOk));
    BothAre(s, SignedRequest(w, signer, ethOk));
  }

  lemma {:induction false} BothAre(s: Snapshot, r: Request)
    requires Consistent(s)
    ensures BothExecute(s, r) <==> Perform(s, r).Done? && Agrees(s, Perform(s, r))
  {
    hide Consistent, Perform, Agrees;
  }

  lemma {:induction false} ServerDecides(s: Snapshot, w: W.WalletTx, signer: Option<nat>, ethOk: bool)
    requires Consistent(s) && Good(LedgerOf(s)) && |s.accounts| < ACCOUNTS && W.Fits(w) && W.Packable(w) && Knows(s, w)
    requires BothExecute(s, SignedRequest(w, signer, ethOk))
    ensures CanExecute(Intended(s, w), LedgerOf(s)) && ServerChecks(s, w, signer, ethOk)
  {
    hide *;
    var r := SignedRequest(w, signer, ethOk);
    SignedFits(w, signer, ethOk);
    BothAre(s, r);
    AgreesMeans(s, Perform(s, r));
    CircuitAgreesIff(s, r);
    PerformedIsChecked(s, w, signer, ethOk);
  }

  /** The circuit against the server. For a transaction of known accounts, the server executes it and the circuit does
      the same if and only if the circuit can execute what the transaction asks for and the server's own checks pass:
      apart from these, the circuit checks everything that the server does. */
  lemma {:induction false} ServerDecidesIff(s: Snapshot, w: W.WalletTx, signer: Option<nat>, ethOk: bool)
    requires Consistent(s) && Good(LedgerOf(s)) && |s.accounts| < ACCOUNTS && W.Fits(w) && W.Packable(w) && Knows(s, w)
    ensures BothExecute(s, SignedRequest(w, signer, ethOk)) <==>
              CanExecute(Intended(s, w), LedgerOf(s)) && ServerChecks(s, w, signer, ethOk)
  {
    hide *;
    if BothExecute(s, SignedRequest(w, signer, ethOk)) {
      ServerDecides(s, w, signer, ethOk);
    }
    if CanExecute(Intended(s, w), LedgerOf(s)) && ServerChecks(s, w, signer, ethOk) {
      CircuitDecides(s, w, signer, ethOk);
    }
  }
}
