/** The server's account state: the operations it makes of wallet transactions and priority requests, and how it
    applies them. Balances are unbounded numbers and nonces 32-bit ones. */
module ServerState {
  import opened Common
  import opened Params
  import opened PrimeField
  import opened Amounts
  import opened Ledger
  import opened Transactions
  import W = WalletMessages

  datatype ServerAccount = ServerAccount(pubKeyHash: nat, address: nat, balances: map<nat, nat>, nonce: nat)

  datatype Snapshot = Snapshot(accounts: map<nat, ServerAccount>, ids: map<nat, nat>)

  /** A transaction of a wallet, with the hash of the key that its signature was made with, if there is a valid one,
      and whether the Ethereum signature of a key change is missing or right; or a request from the contract. */
  datatype Request =
    | SignedRequest(w: W.WalletTx, signer: Option<nat>, ethOk: bool)
    | DepositRequest(token: nat, amount: nat, address: nat)
    | FullExitRequest(accountId: nat, ethAddress: nat, token: nat)

  /** A change of one account, as the database keeps it. */
  datatype Update =
    | Create(address: nat, nonce: nat)
    | Delete(address: nat, nonce: nat)
    | UpdateBalance(token: nat, oldBalance: nat, newBalance: nat, oldNonce: nat, newNonce: nat)
    | ChangePubKeyHash(oldKey: nat, newKey: nat, oldNonce: nat, newNonce: nat)

  type Updates = seq<(nat, Update)>

  /** The result of an operation: the state after it, the operation and the updates that lead there; an error, or a
      panic. */
  datatype Outcome = Done(after: Snapshot, op: Tx, updates: Updates) | Refused | Panicked

  datatype Success = Success(op: Tx, updates: Updates)

  const MAX_ACCOUNT_ID: nat := 0xff_ffff
  const MAX_TOKEN_ID: nat := 127

  function GetBalance(a: ServerAccount, token: nat): nat {
    if token in a.balances then a.balances[token] else 0
  }

  function AddBalance(a: ServerAccount, token: nat, amount: nat): ServerAccount {
    a.(balances := a.balances[token := GetBalance(a, token) + amount])
  }

  function SubBalance(a: ServerAccount, token: nat, amount: nat): ServerAccount
    requires amount <= GetBalance(a, token)
  {
    a.(balances := a.balances[token := GetBalance(a, token) - amount])
  }

  /** The nonce is a 32-bit number. */
  function UseNonce(a: ServerAccount): ServerAccount {
    a.(nonce := (a.nonce + 1) % 0x1_0000_0000)
  }

  function NewAccount(address: nat): ServerAccount {
    ServerAccount(0, address, map[], 0)
  }

  function Insert(s: Snapshot, id: nat, a: ServerAccount): Snapshot {
    Snapshot(s.accounts[id := a], s.ids[a.address := id])
  }

  function FreeId(s: Snapshot): nat {
    |s.accounts|
  }

  /** Every address leads to the account that has it, and ids are given out without gaps. */
  ghost predicate Consistent(s: Snapshot) {
    && (forall id :: id in s.accounts ==> s.accounts[id].address in s.ids && s.ids[s.accounts[id].address] == id)
    && (forall address :: address in s.ids ==> s.ids[address] in s.accounts && s.accounts[s.ids[address]].address == address)
    && (forall id: nat :: id in s.accounts <==> id < |s.accounts|)
  }

  function PackAmount(amount: nat): nat { PackedNumber(amount, AMOUNT_MANTISSA) }

  function PackFee(fee: nat): nat { PackedNumber(fee, FEE_MANTISSA) }

  // ----- the operation that is made of a request

  datatype Created = Op(op: Tx) | NoOp | Panic

  function CreateTransfer(s: Snapshot, w: W.WalletTx, signer: Option<nat>): Created
    requires Consistent(s) && w.TransferTx?
  {
    if w.token > MAX_TOKEN_ID || w.toAddress == 0 || w.fromAddress !in s.ids then NoOp
    else
      var payer := s.ids[w.fromAddress];
      var key := s.accounts[payer].pubKeyHash;
      if key == 0 || signer != Some(key) || payer != w.accountId then NoOp
      else if w.toAddress in s.ids then Op(Transfer(payer, w.token, s.ids[w.toAddress], PackAmount(w.amount), PackFee(w.fee)))
      else Op(TransferToNew(payer, w.token, PackAmount(w.amount), w.toAddress, FreeId(s), PackFee(w.fee)))
  }

  function CreateWithdraw(s: Snapshot, w: W.WalletTx, signer: Option<nat>): Created
    requires Consistent(s) && w.WithdrawTx?
  {
    if w.token > MAX_TOKEN_ID || w.fromAddress !in s.ids then NoOp
    else
      var id := s.ids[w.fromAddress];
      var key := s.accounts[id].pubKeyHash;
      if key == 0 || signer != Some(key) || id != w.accountId then NoOp
      else Op(Withdraw(id, w.token, w.amount, PackFee(w.fee), w.toAddress))
  }

  function CreateChangePubKey(s: Snapshot, w: W.WalletTx, signer: Option<nat>, ethOk: bool): Created
    requires Consistent(s) && w.ChangePubKeyTx?
  {
    if w.account !in s.ids || !ethOk || signer != Some(w.newPkHash) || s.ids[w.account] != w.accountId || w.accountId > MAX_ACCOUNT_ID then NoOp
    else Op(ChangePubKey(w.accountId, w.newPkHash, w.account, w.nonce, w.token, PackFee(w.fee)))
  }

  function CreateForcedExit(s: Snapshot, w: W.WalletTx, signer: Option<nat>): Created
    requires Consistent(s) && w.ForcedExitTx?
  {
    if w.accountId !in s.accounts || signer != Some(s.accounts[w.accountId].pubKeyHash) || w.token > MAX_TOKEN_ID || w.target !in s.ids then NoOp
    else
      var target := s.ids[w.target];
      if s.accounts[target].pubKeyHash != 0 then NoOp
      else Op(ForcedExit(w.accountId, target, w.token, GetBalance(s.accounts[target], w.token), PackFee(w.fee), w.target))
  }

  function CreateOp(s: Snapshot, r: Request): Created
    requires Consistent(s)
  {
    match r
    case SignedRequest(w, signer, ethOk) =>
      if w.TransferTx? then CreateTransfer(s, w, signer)
      else if w.WithdrawTx? then CreateWithdraw(s, w, signer)
      else if w.ChangePubKeyTx? then CreateChangePubKey(s, w, signer, ethOk)
      else CreateForcedExit(s, w, signer)
    case DepositRequest(token, amount, address) =>
      if token > MAX_TOKEN_ID then Panic
      else Op(Deposit(if address in s.ids then s.ids[address] else FreeId(s), token, amount, address))
    case FullExitRequest(id, ethAddress, token) =>
      if token > MAX_TOKEN_ID then Panic
      else Op(FullExit(id, ethAddress, token,
                       if id in s.accounts && s.accounts[id].address == ethAddress then GetBalance(s.accounts[id], token) else 0))
  }

  // ----- what it does to the state

  /** The payer's account after it gave `amount` away and used its nonce. */
  function Payer(a: ServerAccount, token: nat, amount: nat): ServerAccount
    requires amount <= GetBalance(a, token)
  {
    UseNonce(SubBalance(a, token, amount))
  }

  /** The update that records a payment, and the one that records a new balance alone. */
  function Payment(id: nat, a: ServerAccount, token: nat, amount: nat): (nat, Update)
    requires amount <= GetBalance(a, token)
  {
    (id, UpdateBalance(token, GetBalance(a, token), GetBalance(a, token) - amount, a.nonce, UseNonce(a).nonce))
  }

  function NewBalance(id: nat, a: ServerAccount, token: nat, balance: nat): (nat, Update) {
    (id, UpdateBalance(token, GetBalance(a, token), balance, a.nonce, a.nonce))
  }

  predicate MayPay(a: ServerAccount, w: W.WalletTx, amount: nat) {
    w.nonce == a.nonce && GetBalance(a, w.token) >= amount
  }

  function ApplyTransfer(s: Snapshot, op: Tx, w: W.WalletTx): Outcome
    requires op.Transfer? && w.TransferTx? && op.from in s.accounts && op.to in s.accounts
  {
    var payer, spent := s.accounts[op.from], w.amount + w.fee;
    if op.from > MAX_ACCOUNT_ID || op.to > MAX_ACCOUNT_ID || !MayPay(payer, w, spent) then Refused
    else if op.from == op.to then Done(Insert(s, op.from, Payer(payer, w.token, w.fee)), op, [Payment(op.from, payer, w.token, w.fee)])
    else
      var receiver := s.accounts[op.to];
      Done(Insert(Insert(s, op.from, Payer(payer, w.token, spent)), op.to, AddBalance(receiver, w.token, w.amount)), op,
           [Payment(op.from, payer, w.token, spent), NewBalance(op.to, receiver, w.token, GetBalance(receiver, w.token) + w.amount)])
  }

  function ApplyTransferToNew(s: Snapshot, op: Tx, w: W.WalletTx): Outcome
    requires op.TransferToNew? && w.TransferTx? && op.from in s.accounts
  {
    var payer, spent := s.accounts[op.from], w.amount + w.fee;
    if op.from > MAX_ACCOUNT_ID || op.to > MAX_ACCOUNT_ID then Refused
    else if op.to in s.accounts then Panicked
    else if !MayPay(payer, w, spent) then Refused
    else
      var receiver := NewAccount(w.toAddress);
      Done(Insert(Insert(s, op.from, Payer(payer, w.token, spent)), op.to, AddBalance(receiver, w.token, w.amount)), op,
           [(op.to, Update.Create(w.toAddress, 0)), Payment(op.from, payer, w.token, spent), NewBalance(op.to, receiver, w.token, w.amount)])
  }

  function ApplyWithdraw(s: Snapshot, op: Tx, w: W.WalletTx): Outcome
    requires op.Withdraw? && w.WithdrawTx? && op.account in s.accounts
  {
    var payer, spent := s.accounts[op.account], w.amount + w.fee;
    if op.account > MAX_ACCOUNT_ID || !MayPay(payer, w, spent) then Refused
    else Done(Insert(s, op.account, Payer(payer, w.token, spent)), op, [Payment(op.account, payer, w.token, spent)])
  }

  function ApplyChangePubKey(s: Snapshot, op: Tx, w: W.WalletTx): Outcome
    requires op.ChangePubKey? && w.ChangePubKeyTx? && op.account in s.accounts
  {
    var a := s.accounts[op.account];
    if !MayPay(a, w, w.fee) then Refused
    else
      var after := Payer(a, w.token, w.fee).(pubKeyHash := w.newPkHash);
      Done(Insert(s, op.account, after), op,
           [(op.account, ChangePubKeyHash(a.pubKeyHash, w.newPkHash, a.nonce, after.nonce)),
            (op.account, UpdateBalance(w.token, GetBalance(a, w.token), GetBalance(after, w.token), after.nonce, after.nonce))])
  }

  /** Both accounts are read before either is written. */
  function ApplyForcedExit(s: Snapshot, op: Tx, w: W.WalletTx): Outcome
    requires op.ForcedExit? && w.ForcedExitTx? && op.initiator in s.accounts && op.target in s.accounts
  {
    var payer, target := s.accounts[op.initiator], s.accounts[op.target];
    if op.initiator > MAX_ACCOUNT_ID || !MayPay(payer, w, w.fee) || GetBalance(target, w.token) != op.amount then Refused
    else
      Done(Insert(Insert(s, op.initiator, Payer(payer, w.token, w.fee)), op.target, SubBalance(target, w.token, op.amount)), op,
           [Payment(op.initiator, payer, w.token, w.fee), NewBalance(op.target, target, w.token, 0)])
  }

  function ApplyDeposit(s: Snapshot, op: Tx): Outcome
    requires op.Deposit?
  {
    var a := if op.account in s.accounts then s.accounts[op.account] else NewAccount(op.address);
    var created := if op.account in s.accounts then [] else [(op.account, Update.Create(op.address, 0))];
    Done(Insert(s, op.account, AddBalance(a, op.token, op.amount)), op,
         created + [NewBalance(op.account, a, op.token, GetBalance(a, op.token) + op.amount)])
  }

  /** An exit that is not granted changes nothing. */
  function ApplyFullExit(s: Snapshot, op: Tx): Outcome
    requires op.FullExit?
  {
    if op.account !in s.accounts || s.accounts[op.account].address != op.ethAddress then Done(s, op, [])
    else if op.amount != GetBalance(s.accounts[op.account], op.token) then Panicked
    else
      Done(Insert(s, op.account, SubBalance(s.accounts[op.account], op.token, op.amount)), op,
           [NewBalance(op.account, s.accounts[op.account], op.token, 0)])
  }

  // ----- fees

  /** The account after fees in these tokens were added; empty fees are passed over. */
  function WithFees(a: ServerAccount, fees: seq<(nat, nat)>): ServerAccount
    decreases |fees|
  {
    if fees == [] then a
    else WithFees(if fees[0].1 == 0 then a else AddBalance(a, fees[0].0, fees[0].1), fees[1..])
  }

  /** The updates that record them. */
  function FeeUpdates(id: nat, a: ServerAccount, fees: seq<(nat, nat)>): Updates
    decreases |fees|
  {
    if fees == [] then []
    else if fees[0].1 == 0 then FeeUpdates(id, a, fees[1..])
    else
      [NewBalance(id, a, fees[0].0, GetBalance(a, fees[0].0) + fees[0].1)] + FeeUpdates(id, AddBalance(a, fees[0].0, fees[0].1), fees[1..])
  }

  function Perform(s: Snapshot, r: Request): Outcome
    requires Consistent(s)
  {
    var created := CreateOp(s, r);
    if created.Panic? then Panicked
    else if created.NoOp? then Refused
    else
      match created.op
      case Transfer(_, _, _, _, _) => ApplyTransfer(s, created.op, r.w)
      case TransferToNew(_, _, _, _, _, _) => ApplyTransferToNew(s, created.op, r.w)
      case Withdraw(_, _, _, _, _) => ApplyWithdraw(s, created.op, r.w)
      case ChangePubKey(_, _, _, _, _, _) => ApplyChangePubKey(s, created.op, r.w)
      case ForcedExit(_, _, _, _, _, _) => ApplyForcedExit(s, created.op, r.w)
      case Deposit(_, _, _, _) => ApplyDeposit(s, created.op)
      case FullExit(_, _, _, _) => ApplyFullExit(s, created.op)
      case Noop => Refused
  }

  // ----- what is performed

  /** The accounts that an operation of the server names are there. */
  predicate NamesAccounts(s: Snapshot, op: Tx) {
    && (op.Deposit? || op.FullExit? || FirstAccount(op) in s.accounts)
    && (TwoSided(op) && !op.TransferToNew? ==> SecondAccount(op) in s.accounts)
  }

  /** The operation has the token and the numbers of the wallet's transaction. */
  predicate HasNumbers(op: Tx, w: W.WalletTx) {
    match op
    case Transfer(_, token, _, packed, fee) => w.TransferTx? && token == w.token && packed == PackAmount(w.amount) && fee == PackFee(w.fee)
    case TransferToNew(_, token, packed, address, _, fee) =>
      w.TransferTx? && token == w.token && packed == PackAmount(w.amount) && address == w.toAddress && fee == PackFee(w.fee)
    case Withdraw(_, token, amount, fee, _) => w.WithdrawTx? && token == w.token && amount == w.amount && fee == PackFee(w.fee)
    case ChangePubKey(_, key, _, nonce, token, fee) =>
      w.ChangePubKeyTx? && token == w.token && key == w.newPkHash && nonce == w.nonce && fee == PackFee(w.fee)
    case ForcedExit(_, _, token, _, fee, _) => w.ForcedExitTx? && token == w.token && fee == PackFee(w.fee)
    case _ => false
  }

  lemma {:induction false} HasNumbersKind(op: Tx, w: W.WalletTx)
    requires HasNumbers(op, w)
    ensures op.Withdraw? ==> w.WithdrawTx?
    ensures op.ChangePubKey? ==> w.ChangePubKeyTx?
    ensures op.ForcedExit? ==> w.ForcedExitTx?
    ensures op.Transfer? || op.TransferToNew? ==> w.TransferTx?
    ensures !op.Deposit? && !op.FullExit? && !op.Noop?
  {
    hide PackedNumber;
  }

  lemma {:induction false} CreatedTransfer(s: Snapshot, w: W.WalletTx, signer: Option<nat>)
    requires Consistent(s) && w.TransferTx? && CreateTransfer(s, w, signer).Op?
    ensures var op := CreateTransfer(s, w, signer).op;
            && NamesAccounts(s, op) && HasNumbers(op, w) && op.token <= MAX_TOKEN_ID
            && (op.Transfer? ==> s.accounts[op.to].address == w.toAddress != 0)
            && (op.TransferToNew? ==> op.to == FreeId(s) && w.toAddress !in s.ids && w.toAddress != 0)
            && (op.Transfer? || op.TransferToNew?)
  {
    hide PackedNumber;
  }

  lemma {:induction false} CreatedOther(s: Snapshot, r: Request)
    requires Consistent(s) && r.SignedRequest? && !r.w.TransferTx? && CreateOp(s, r).Op?
    ensures var op := CreateOp(s, r).op;
            && NamesAccounts(s, op) && HasNumbers(op, r.w) && (op.Withdraw? || op.ChangePubKey? || op.ForcedExit?)
            && (op.ChangePubKey? ==> op.account < ACCOUNTS && op.address == s.accounts[op.account].address)
            && (!op.ChangePubKey? ==> op.token <= MAX_TOKEN_ID)
            && (op.ForcedExit? ==> s.accounts[op.target].pubKeyHash == 0 && op.ethAddress == s.accounts[op.target].address)
  {
    hide PackedNumber;
  }

  lemma {:induction false} CreatedRequest(s: Snapshot, r: Request)
    requires Consistent(s) && !r.SignedRequest? && CreateOp(s, r).Op?
    ensures var op := CreateOp(s, r).op;
            && (op.Deposit? || op.FullExit?) && op.token <= MAX_TOKEN_ID
            && (op.Deposit? ==> r.DepositRequest? && op.amount == r.amount && op.address == r.address)
            && (op.Deposit? ==> if op.account in s.accounts then s.accounts[op.account].address == op.address
                                else op.account == FreeId(s) && op.address !in s.ids)
            && (op.FullExit? ==> r.FullExitRequest? && op.account == r.accountId && op.ethAddress == r.ethAddress)
            && (op.FullExit? ==> op.amount == if op.account in s.accounts && s.accounts[op.account].address == op.ethAddress
                                              then GetBalance(s.accounts[op.account], op.token) else 0)
  {
  }

  lemma {:induction false} CreatedIsTransfer(s: Snapshot, r: Request)
    requires Consistent(s) && r.SignedRequest? && r.w.TransferTx?
    ensures CreateOp(s, r) == CreateTransfer(s, r.w, r.signer)
  {
    hide Consistent, CreateTransfer;
  }

  /** What the server executed names accounts it has. */
  lemma {:induction false} PerformedNames(s: Snapshot, r: Request)
    requires Consistent(s) && Perform(s, r).Done?
    ensures NamesAccounts(s, Perform(s, r).op) && CreateOp(s, r) == Op(Perform(s, r).op)
  {
    if r.SignedRequest? {
      if r.w.TransferTx? {
        CreatedTransfer(s, r.w, r.signer);
      } else {
        CreatedOther(s, r);
      }
    } else {
      CreatedRequest(s, r);
    }
    hide Consistent, CreateTransfer, PackedNumber, Payer, AddBalance, SubBalance, Insert;
  }

  /** What is applied is what was created. */
  lemma {:induction false} PerformMeans(s: Snapshot, r: Request)
    requires Consistent(s) && Perform(s, r).Done?
    ensures var op := Perform(s, r).op;
            && CreateOp(s, r) == Op(op) && NamesAccounts(s, op)
            && (r.SignedRequest? ==> HasNumbers(op, r.w))
            && (op.Transfer? ==> Perform(s, r) == ApplyTransfer(s, op, r.w))
            && (op.TransferToNew? ==> Perform(s, r) == ApplyTransferToNew(s, op, r.w))
            && (op.Withdraw? ==> Perform(s, r) == ApplyWithdraw(s, op, r.w))
            && (op.ChangePubKey? ==> Perform(s, r) == ApplyChangePubKey(s, op, r.w))
            && (op.ForcedExit? ==> Perform(s, r) == ApplyForcedExit(s, op, r.w))
            && (op.Deposit? ==> Perform(s, r) == ApplyDeposit(s, op))
            && (op.FullExit? ==> Perform(s, r) == ApplyFullExit(s, op))
  {
    PerformedNames(s, r);
    if r.SignedRequest? {
      if r.w.TransferTx? {
        CreatedTransfer(s, r.w, r.signer);
      } else {
        CreatedOther(s, r);
      }
    }
    hide Consistent, CreateOp, HasNumbers, ApplyTransfer, ApplyTransferToNew, ApplyWithdraw, ApplyChangePubKey, ApplyForcedExit, ApplyDeposit,
      ApplyFullExit, NamesAccounts;
  }

  lemma {:induction false} NamesMeans(s: Snapshot, op: Tx)
    requires NamesAccounts(s, op)
    ensures op.Transfer? ==> op.from in s.accounts && op.to in s.accounts
    ensures op.TransferToNew? ==> op.from in s.accounts
    ensures op.Withdraw? || op.ChangePubKey? ==> op.account in s.accounts
    ensures op.ForcedExit? ==> op.initiator in s.accounts && op.target in s.accounts
  {
  }

  // ----- consistency

  lemma {:induction false} InsertIsKept(s: Snapshot, id: nat, a: ServerAccount)
    requires Consistent(s)
    requires if id in s.accounts then s.accounts[id].address == a.address else id == FreeId(s) && a.address !in s.ids
    ensures Consistent(Insert(s, id, a))
  {
  }

  /** Consistent as before, with at most one account more. */
  ghost predicate Continues(s: Snapshot, after: Snapshot) {
    Consistent(after) && |s.accounts| <= |after.accounts| <= |s.accounts| + 1
  }

  lemma {:induction false} TransferIsConsistent(s: Snapshot, op: Tx, w: W.WalletTx)
    requires Consistent(s) && op.Transfer? && w.TransferTx? && op.from in s.accounts && op.to in s.accounts && ApplyTransfer(s, op, w).Done?
    ensures Continues(s, ApplyTransfer(s, op, w).after)
  {
    hide Consistent, Insert, Payer, AddBalance;
    var payer := s.accounts[op.from];
    if op.from == op.to {
      PayerStays(payer, w.token, w.fee);
      Replaced(s, op.from, Payer(payer, w.token, w.fee));
    } else {
      PayerStays(payer, w.token, w.amount + w.fee);
      ReceiverStays(s.accounts[op.to], w.token, w.amount);
      Replaced(s, op.from, Payer(payer, w.token, w.amount + w.fee));
      Replaced(Insert(s, op.from, Payer(payer, w.token, w.amount + w.fee)), op.to, AddBalance(s.accounts[op.to], w.token, w.amount));
    }
  }

  lemma {:induction false} PayerStays(a: ServerAccount, token: nat, amount: nat)
    requires amount <= GetBalance(a, token)
    ensures Payer(a, token, amount).address == a.address && SubBalance(a, token, amount).address == a.address
  {
  }

  lemma {:induction false} ReceiverStays(a: ServerAccount, token: nat, amount: nat)
    ensures AddBalance(a, token, amount).address == a.address
  {
  }

  lemma {:induction false} TransferToNewIsConsistent(s: Snapshot, op: Tx, w: W.WalletTx)
    requires Consistent(s) && op.TransferToNew? && w.TransferTx? && op.from in s.accounts && ApplyTransferToNew(s, op, w).Done?
    requires op.to == FreeId(s) && w.toAddress !in s.ids
    ensures Continues(s, ApplyTransferToNew(s, op, w).after)
  {
    hide Consistent, Insert, Payer, AddBalance;
    var payer := s.accounts[op.from];
    PayerStays(payer, w.token, w.amount + w.fee);
    ReceiverStays(NewAccount(w.toAddress), w.token, w.amount);
    Replaced(s, op.from, Payer(payer, w.token, w.amount + w.fee));
    KeepsAddresses(s, op.from, Payer(payer, w.token, w.amount + w.fee));
    Added(Insert(s, op.from, Payer(payer, w.token, w.amount + w.fee)), op.to, AddBalance(NewAccount(w.toAddress), w.token, w.amount));
  }

  lemma {:induction false} ForcedExitIsConsistent(s: Snapshot, op: Tx, w: W.WalletTx)
    requires Consistent(s) && op.ForcedExit? && w.ForcedExitTx? && op.initiator in s.accounts && op.target in s.accounts
    requires ApplyForcedExit(s, op, w).Done?
    ensures Continues(s, ApplyForcedExit(s, op, w).after)
  {
    hide Consistent, Insert, Payer, SubBalance;
    var payer := s.accounts[op.initiator];
    PayerStays(payer, w.token, w.fee);
    PayerStays(s.accounts[op.target], w.token, op.amount);
    Replaced(s, op.initiator, Payer(payer, w.token, w.fee));
    Replaced(Insert(s, op.initiator, Payer(payer, w.token, w.fee)), op.target, SubBalance(s.accounts[op.target], w.token, op.amount));
  }

  lemma {:induction false} OneSidedIsConsistent(s: Snapshot, r: Request)
    requires Consistent(s) && Perform(s, r).Done? && r.SignedRequest? && (Perform(s, r).op.Withdraw? || Perform(s, r).op.ChangePubKey?)
    ensures Continues(s, Perform(s, r).after)
  {
    hide Consistent, Insert, Payer, Perform, CreateOp, HasNumbers;
    PerformMeans(s, r);
    var op, w := Perform(s, r).op, r.w;
    HasNumbersKind(op, w);
    var a, spent := s.accounts[op.account], if w.WithdrawTx? then w.amount + w.fee else w.fee;
    PayerStays(a, w.token, spent);
    if op.Withdraw? {
      Replaced(s, op.account, Payer(a, w.token, spent));
    } else {
      Replaced(s, op.account, Payer(a, w.token, spent).(pubKeyHash := w.newPkHash));
    }
  }

  lemma {:induction false} ContractRequestIsConsistent(s: Snapshot, r: Request)
    requires Consistent(s) && Perform(s, r).Done? && !r.SignedRequest?
    ensures Continues(s, Perform(s, r).after)
  {
    PerformMeans(s, r);
    CreatedRequest(s, r);
    hide Consistent, Insert, Perform, CreateOp, AddBalance, SubBalance;
    var op := Perform(s, r).op;
    if op.Deposit? {
      var a := if op.account in s.accounts then s.accounts[op.account] else NewAccount(op.address);
      ReceiverStays(a, op.token, op.amount);
      if op.account in s.accounts {
        Replaced(s, op.account, AddBalance(a, op.token, op.amount));
      } else {
        Added(s, op.account, AddBalance(a, op.token, op.amount));
      }
    } else if op.account in s.accounts && s.accounts[op.account].address == op.ethAddress {
      PayerStays(s.accounts[op.account], op.token, op.amount);
      Replaced(s, op.account, SubBalance(s.accounts[op.account], op.token, op.amount));
    }
  }

  /** The server stays consistent, with at most one account more. */
  lemma {:induction false} PerformIsConsistent(s: Snapshot, r: Request)
    requires Consistent(s) && Perform(s, r).Done?
    ensures Continues(s, Perform(s, r).after)
  {
    hide *;
    if r.SignedRequest? {
      PerformMeans(s, r);
      var op := Perform(s, r).op;
      NamesMeans(s, op);
      HasNumbersKind(op, r.w);
      if op.Transfer? {
        TransferIsConsistent(s, op, r.w);
      } else if op.TransferToNew? {
        CreatedIsTransfer(s, r);
        CreatedTransfer(s, r.w, r.signer);
        TransferToNewIsConsistent(s, op, r.w);
      } else if op.ForcedExit? {
        ForcedExitIsConsistent(s, op, r.w);
      } else {
        OneSidedIsConsistent(s, r);
      }
    } else {
      ContractRequestIsConsistent(s, r);
    }
  }

  lemma {:induction false} Replaced(s: Snapshot, id: nat, a: ServerAccount)
    requires Consistent(s) && id in s.accounts && s.accounts[id].address == a.address
    ensures Consistent(Insert(s, id, a)) && |Insert(s, id, a).accounts| == |s.accounts|
    ensures Insert(s, id, a).accounts == s.accounts[id := a]
  {
    InsertIsKept(s, id, a);
  }

  lemma {:induction false} Added(s: Snapshot, id: nat, a: ServerAccount)
    requires Consistent(s) && id == FreeId(s) && a.address !in s.ids
    ensures Consistent(Insert(s, id, a)) && |Insert(s, id, a).accounts| == |s.accounts| + 1
  {
    InsertIsKept(s, id, a);
  }

  lemma {:induction false} KeepsAddresses(s: Snapshot, id: nat, a: ServerAccount)
    requires Consistent(s) && id in s.accounts && s.accounts[id].address == a.address
    ensures Insert(s, id, a).ids == s.ids && FreeId(Insert(s, id, a)) == FreeId(s)
  {
  }

  // ----- what is refused and what panics

  /** Priority requests never fail: whatever the state is, one is executed exactly when its token can be processed, and
      the server panics otherwise. */
  lemma {:induction false} PriorityRequestsAreExecutedIff(s: Snapshot, r: Request)
    requires Consistent(s) && !r.SignedRequest?
    ensures Perform(s, r).Done? <==> r.token <= MAX_TOKEN_ID
    ensures !Perform(s, r).Refused?
  {
    if CreateOp(s, r).Op? {
      CreatedRequest(s, r);
    }
    hide Consistent, Insert, AddBalance, SubBalance, GetBalance;
  }

  lemma {:induction false} FreeIdIsFree(s: Snapshot)
    requires Consistent(s)
    ensures FreeId(s) !in s.accounts
  {
  }

  /** A wallet's transaction never makes the server panic, and one that is executed names ids of the circuit's range, the
      target of a forced exit apart. */
  lemma {:induction false} WalletTransactionsNeverPanic(s: Snapshot, r: Request)
    requires Consistent(s) && r.SignedRequest?
    ensures !Perform(s, r).Panicked?
    ensures Perform(s, r).Done? ==>
              var op := Perform(s, r).op;
              && !op.Noop? && FirstAccount(op) <= MAX_ACCOUNT_ID && (op.Transfer? || op.TransferToNew? ==> op.to <= MAX_ACCOUNT_ID)
  {
    FreeIdIsFree(s);
    if r.w.TransferTx? {
      CreatedIsTransfer(s, r);
      if CreateOp(s, r).Op? {
        CreatedTransfer(s, r.w, r.signer);
      } else {
        CreatedNeverPanics(s, r);
      }
    } else if CreateOp(s, r).Op? {
      CreatedOther(s, r);
    } else {
      CreatedNeverPanics(s, r);
    }
    hide Consistent, CreateOp, CreateTransfer, HasNumbers, Insert, AddBalance, SubBalance, GetBalance, Payer, PackedNumber;
  }

  lemma {:induction false} CreatedNeverPanics(s: Snapshot, r: Request)
    requires Consistent(s) && r.SignedRequest?
    ensures !CreateOp(s, r).Panic?
  {
    hide Consistent, PackedNumber, GetBalance;
  }

  /** The accounts that a wallet's transaction cannot do without. */
  predicate Knows(s: Snapshot, w: W.WalletTx) {
    match w
    case TransferTx(_, sender, _, _, _, _, _) => sender in s.ids
    case WithdrawTx(_, sender, _, _, _, _, _) => sender in s.ids
    case ChangePubKeyTx(_, account, _, _, _, _) => account in s.ids
    case ForcedExitTx(id, target, _, _, _) => id in s.accounts && target in s.ids
  }

  /** Without them it is refused. */
  lemma {:induction false} StrangersAreRefused(s: Snapshot, r: Request)
    requires Consistent(s) && r.SignedRequest? && !Knows(s, r.w)
    ensures Perform(s, r) == Refused
  {
    hide Consistent, PackedNumber, GetBalance;
  }

  // ----- what is executed

  /** What the transaction costs the account that signed it. */
  function Cost(w: W.WalletTx): nat {
    if w.TransferTx? || w.WithdrawTx? then w.amount + w.fee else w.fee
  }

  /** The address that the transaction says its account has; a forced exit says none. */
  function Signs(w: W.WalletTx): Option<nat> {
    match w
    case TransferTx(_, sender, _, _, _, _, _) => Some(sender)
    case WithdrawTx(_, sender, _, _, _, _, _) => Some(sender)
    case ChangePubKeyTx(_, account, _, _, _, _) => Some(account)
    case ForcedExitTx(_, _, _, _, _) => None
  }

  /** The account is there, has the nonce, the funds and the address of the transaction, and its key signed it, or the
      new one did. */
  predicate Authorised(s: Snapshot, w: W.WalletTx, signer: Option<nat>) {
    && w.accountId in s.accounts && w.accountId <= MAX_ACCOUNT_ID
    && var a := s.accounts[w.accountId];
       && a.nonce == w.nonce && Cost(w) <= GetBalance(a, w.token) && (Signs(w) == None || Signs(w) == Some(a.address))
       && signer == Some(if w.ChangePubKeyTx? then w.newPkHash else a.pubKeyHash)
       && (w.TransferTx? || w.WithdrawTx? ==> a.pubKeyHash != 0)
  }

  /** What each kind asks for besides. */
  predicate Acceptable(s: Snapshot, w: W.WalletTx, ethOk: bool) {
    && (w.ChangePubKeyTx? || w.token <= MAX_TOKEN_ID)
    && (w.ChangePubKeyTx? ==> ethOk)
    && (w.TransferTx? ==> w.toAddress != 0 && (if w.toAddress in s.ids then s.ids[w.toAddress] else FreeId(s)) <= MAX_ACCOUNT_ID)
    && (w.ForcedExitTx? ==> w.target in s.ids && s.ids[w.target] in s.accounts && s.accounts[s.ids[w.target]].pubKeyHash == 0)
  }

  /** Whose transfer is made an operation. */
  lemma {:induction false} TransferIsMadeIff(s: Snapshot, w: W.WalletTx, signer: Option<nat>)
    requires Consistent(s) && w.TransferTx?
    ensures CreateTransfer(s, w, signer).Op? <==>
              && w.token <= MAX_TOKEN_ID && w.toAddress != 0 && w.accountId in s.accounts
              && var a := s.accounts[w.accountId]; a.address == w.fromAddress && a.pubKeyHash != 0 && signer == Some(a.pubKeyHash)
    ensures CreateTransfer(s, w, signer).Op? ==>
              var op := CreateTransfer(s, w, signer).op;
              && (op.Transfer? || op.TransferToNew?) && op.from == w.accountId
              && op.to == (if w.toAddress in s.ids then s.ids[w.toAddress] else FreeId(s))
              && (op.Transfer? ==> op.to in s.accounts) && (op.TransferToNew? ==> op.to !in s.accounts)
    ensures !CreateTransfer(s, w, signer).Panic?
  {
    FreeIdIsFree(s);
    hide PackedNumber, GetBalance, FreeId;
  }

  lemma {:induction false} TransferIsExecutedIff(s: Snapshot, w: W.WalletTx, signer: Option<nat>, ethOk: bool)
    requires Consistent(s) && w.TransferTx?
    ensures Perform(s, SignedRequest(w, signer, ethOk)).Done? <==> Authorised(s, w, signer) && Acceptable(s, w, ethOk)
  {
    TransferIsMadeIff(s, w, signer);
    TransferIsApplied(s, SignedRequest(w, signer, ethOk));
    hide PackedNumber, GetBalance, Payer, Insert, AddBalance, Consistent, CreateTransfer, CreateOp, FreeId, Perform;
  }

  lemma {:induction false} TransferIsApplied(s: Snapshot, r: Request)
    requires Consistent(s) && r.SignedRequest? && r.w.TransferTx?
    ensures var c := CreateTransfer(s, r.w, r.signer);
            && (c.NoOp? ==> Perform(s, r) == Refused)
            && (c.Op? && c.op.Transfer? && c.op.from in s.accounts && c.op.to in s.accounts ==> Perform(s, r) == ApplyTransfer(s, c.op, r.w))
            && (c.Op? && c.op.TransferToNew? && c.op.from in s.accounts ==> Perform(s, r) == ApplyTransferToNew(s, c.op, r.w))
  {
    CreatedIsTransfer(s, r);
    hide Consistent, CreateTransfer, CreateOp, ApplyTransfer, ApplyTransferToNew;
  }

  lemma {:induction false} OtherIsExecutedIff(s: Snapshot, w: W.WalletTx, signer: Option<nat>, ethOk: bool)
    requires Consistent(s) && !w.TransferTx?
    ensures Perform(s, SignedRequest(w, signer, ethOk)).Done? <==> Authorised(s, w, signer) && Acceptable(s, w, ethOk)
  {
    hide PackedNumber, GetBalance, Payer, Insert, SubBalance;
  }

  /** The server executes a wallet's transaction if and only if its account authorised and can pay it, and what its kind
      asks for holds; there is no limit on what a receiver may hold, nor on the nonce. */
  lemma {:induction false} WalletTransactionIsExecutedIff(s: Snapshot, r: Request)
    requires Consistent(s) && r.SignedRequest?
    ensures Perform(s, r).Done? <==> Authorised(s, r.w, r.signer) && Acceptable(s, r.w, r.ethOk)
  {
    hide *;
    if r.w.TransferTx? {
      TransferIsExecutedIff(s, r.w, r.signer, r.ethOk);
    } else {
      OtherIsExecutedIff(s, r.w, r.signer, r.ethOk);
    }
  }

  lemma {:induction false} PayerUsesNonce(a: ServerAccount, token: nat, amount: nat)
    requires amount <= GetBalance(a, token)
    ensures Payer(a, token, amount).nonce == (a.nonce + 1) % 0x1_0000_0000
  {
  }

  lemma {:induction false} PutIs(s: Snapshot, id: nat, a: ServerAccount)
    ensures Insert(s, id, a).accounts == s.accounts[id := a]
  {
  }

  /** Whatever was executed used one nonce, of the 32-bit numbers, of its own account, unless that account forced its own
      exit: then the nonce stays. Every other account keeps its nonce. */
  lemma {:induction false} OneNonceIsUsed(s: Snapshot, r: Request, id: nat)
    requires Consistent(s) && Perform(s, r).Done? && id in s.accounts
    ensures var op, after := Perform(s, r).op, Perform(s, r).after;
            && id in after.accounts
            && after.accounts[id].nonce ==
                 if r.SignedRequest? && id == FirstAccount(op) && !(op.ForcedExit? && op.initiator == op.target)
                 then (s.accounts[id].nonce + 1) % 0x1_0000_0000 else s.accounts[id].nonce
  {
    hide Consistent, Perform, CreateOp, HasNumbers, NamesAccounts, Insert, Payer, GetBalance, AddBalance, SubBalance;
    PerformMeans(s, r);
    var op := Perform(s, r).op;
    NamesMeans(s, op);
    if r.SignedRequest? {
      HasNumbersKind(op, r.w);
      FirstNonce(s, op, r.w, id);
    } else {
      CreatedRequest(s, r);
      RequestNonce(s, op, id);
    }
  }

  lemma {:induction false} KeepsNonce(a: ServerAccount, token: nat, amount: nat)
    ensures AddBalance(a, token, amount).nonce == a.nonce
    ensures amount <= GetBalance(a, token) ==> SubBalance(a, token, amount).nonce == a.nonce
  {
  }

  lemma {:induction false} RequestNonce(s: Snapshot, op: Tx, id: nat)
    requires id in s.accounts
    ensures op.Deposit? ==> id in ApplyDeposit(s, op).after.accounts && ApplyDeposit(s, op).after.accounts[id].nonce == s.accounts[id].nonce
    ensures op.FullExit? && ApplyFullExit(s, op).Done? ==>
              id in ApplyFullExit(s, op).after.accounts && ApplyFullExit(s, op).after.accounts[id].nonce == s.accounts[id].nonce
  {
    hide Insert, GetBalance, AddBalance, SubBalance;
    if op.Deposit? || op.FullExit? {
      var a := if op.account in s.accounts then s.accounts[op.account] else NewAccount(if op.Deposit? then op.address else 0);
      KeepsNonce(a, op.token, op.amount);
      PutIs(s, op.account, AddBalance(a, op.token, op.amount));
      if op.amount <= GetBalance(a, op.token) {
        PutIs(s, op.account, SubBalance(a, op.token, op.amount));
      }
    }
  }

  lemma {:induction false} FirstNonce(s: Snapshot, op: Tx, w: W.WalletTx, id: nat)
    requires id in s.accounts
    ensures op.Transfer? && w.TransferTx? && op.from in s.accounts && op.to in s.accounts && ApplyTransfer(s, op, w).Done? ==>
              NonceMoved(s, op.from, id, ApplyTransfer(s, op, w).after)
    ensures op.TransferToNew? && w.TransferTx? && op.from in s.accounts && ApplyTransferToNew(s, op, w).Done? ==>
              NonceMoved(s, op.from, id, ApplyTransferToNew(s, op, w).after)
    ensures op.Withdraw? && w.WithdrawTx? && op.account in s.accounts && ApplyWithdraw(s, op, w).Done? ==>
              NonceMoved(s, op.account, id, ApplyWithdraw(s, op, w).after)
    ensures op.ChangePubKey? && w.ChangePubKeyTx? && op.account in s.accounts && ApplyChangePubKey(s, op, w).Done? ==>
              NonceMoved(s, op.account, id, ApplyChangePubKey(s, op, w).after)
    ensures op.ForcedExit? && w.ForcedExitTx? && op.initiator in s.accounts && op.target in s.accounts && ApplyForcedExit(s, op, w).Done? ==>
              if op.initiator == op.target
              then id in ApplyForcedExit(s, op, w).after.accounts && ApplyForcedExit(s, op, w).after.accounts[id].nonce == s.accounts[id].nonce
              else NonceMoved(s, op.initiator, id, ApplyForcedExit(s, op, w).after)
  {
    hide GetBalance, Payer, AddBalance, SubBalance;
    forall a: ServerAccount, token: nat, amount: nat | amount <= GetBalance(a, token)
      ensures Payer(a, token, amount).nonce == (a.nonce + 1) % 0x1_0000_0000
    {
      PayerUsesNonce(a, token, amount);
    }
    forall a: ServerAccount, token: nat, amount: nat
      ensures AddBalance(a, token, amount).nonce == a.nonce
      ensures amount <= GetBalance(a, token) ==> SubBalance(a, token, amount).nonce == a.nonce
    {
      KeepsNonce(a, token, amount);
    }
  }

  predicate NonceMoved(s: Snapshot, payer: nat, id: nat, after: Snapshot)
    requires id in s.accounts
  {
    id in after.accounts
    && after.accounts[id].nonce == if id == payer then (s.accounts[id].nonce + 1) % 0x1_0000_0000 else s.accounts[id].nonce
  }
}
