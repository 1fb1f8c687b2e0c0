/** Operations of the rollup as transitions of the plain ledger, with no chunks, hashes or field
    arithmetic. Account ids are the published 32-bit numbers; `Slot` is the entry they stand for. */
module Transactions {
  import opened Bits
  import opened Common
  import opened Params
  import opened PrimeField
  import opened Witness
  import opened BlockSpec
  import opened Ledger

  datatype Tx =
    | Noop
    | Deposit(account: nat, token: nat, amount: nat, address: nat)
    | TransferToNew(from: nat, token: nat, amountPacked: nat, toAddress: nat, to: nat, feePacked: nat)
    | Withdraw(account: nat, token: nat, amount: nat, feePacked: nat, ethAddress: nat)
    | Transfer(from: nat, token: nat, to: nat, amountPacked: nat, feePacked: nat)
    | FullExit(account: nat, ethAddress: nat, token: nat, amount: nat)
    | ChangePubKey(account: nat, newPubKeyHash: nat, address: nat, nonce: nat, token: nat, feePacked: nat)
    | ForcedExit(initiator: nat, target: nat, token: nat, amount: nat, feePacked: nat, ethAddress: nat)

  function TokenOf(tx: Tx): nat {
    if tx.Noop? then 0 else tx.token
  }

  /** The fee in full. */
  function FeeOf(tx: Tx): nat {
    match tx
    case TransferToNew(_, _, _, _, _, fee) => Unpack(fee)
    case Withdraw(_, _, _, fee, _) => Unpack(fee)
    case Transfer(_, _, _, _, fee) => Unpack(fee)
    case ChangePubKey(_, _, _, _, _, fee) => Unpack(fee)
    case ForcedExit(_, _, _, _, fee, _) => Unpack(fee)
    case _ => 0
  }

  predicate GoodTx(tx: Tx) {
    && TokenOf(tx) <= PROCESSABLE_TOKENS
    && (tx.Deposit? || tx.Withdraw? || tx.FullExit? || tx.ForcedExit? ==> tx.amount < U128_LIMIT)
    && (tx.Deposit? ==> tx.address < ADDRESS_LIMIT)
    && (tx.TransferToNew? ==> tx.toAddress < ADDRESS_LIMIT && Unpack(tx.amountPacked) < U128_LIMIT)
    && (tx.Transfer? ==> Unpack(tx.amountPacked) < U128_LIMIT)
    && (tx.ChangePubKey? ==> tx.newPubKeyHash < ADDRESS_LIMIT)
    && FeeOf(tx) < U128_LIMIT
  }

  predicate EmptyAccount(a: Account) {
    a.nonce == 0 && a.pubKeyHash == 0 && a.address == 0
  }

  function SetBalance(a: Account, token: nat, balance: nat): Account
    requires token < |a.balances|
  {
    a.(balances := a.balances[token := balance])
  }

  predicate CanPay(a: Account, token: nat, amount: nat)
    requires token < |a.balances|
  {
    amount <= a.balances[token] && a.nonce < MAX_NONCE
  }

  /** The sender's side of a signed operation: the amount leaves and the nonce is used. */
  function Paid(a: Account, token: nat, amount: nat): Account
    requires token < |a.balances| && CanPay(a, token, amount)
  {
    SetBalance(a, token, a.balances[token] - amount).(nonce := a.nonce + 1)
  }

  predicate CanReceive(a: Account, token: nat, amount: nat)
    requires token < |a.balances|
  {
    a.balances[token] + amount < U128_LIMIT
  }

  function Credited(a: Account, token: nat, amount: nat): Account
    requires token < |a.balances|
  {
    SetBalance(a, token, a.balances[token] + amount)
  }

  // ----- the first half of an operation: its first account

  function FirstAccount(tx: Tx): nat {
    match tx
    case Noop => 0
    case Deposit(account, _, _, _) => account
    case TransferToNew(from, _, _, _, _, _) => from
    case Withdraw(account, _, _, _, _) => account
    case Transfer(from, _, _, _, _) => from
    case FullExit(account, _, _, _) => account
    case ChangePubKey(account, _, _, _, _, _) => account
    case ForcedExit(initiator, _, _, _, _, _) => initiator
  }

  /** What the sender of a signed operation gives away, fee included. */
  function Spent(tx: Tx): nat {
    match tx
    case TransferToNew(_, _, amount, _, _, _) => Unpack(amount) + FeeOf(tx)
    case Transfer(_, _, _, amount, _) => Unpack(amount) + FeeOf(tx)
    case Withdraw(_, _, amount, _, _) => amount + FeeOf(tx)
    case _ => FeeOf(tx)
  }

  /** A key change takes effect only for the account's current nonce, and never for the last one. */
  predicate KeyChangeApplies(tx: Tx, a: Account) {
    tx.ChangePubKey? && tx.nonce == a.nonce && a.nonce != MAX_NONCE
  }

  predicate FirstAllowed(tx: Tx, a: Account)
    requires GoodTx(tx) && GoodAccount(a)
  {
    match tx
    case Noop => true
    case Deposit(_, token, amount, address) =>
      (address == a.address) != EmptyAccount(a) && CanReceive(a, token, amount)
    case FullExit(_, ethAddress, token, amount) =>
      a.nonce != MAX_NONCE && amount == (if a.address == ethAddress then a.balances[token] else 0)
    case ChangePubKey(_, _, address, _, token, _) =>
      address == a.address && FeeOf(tx) <= a.balances[token]
    case _ => CanPay(a, tx.token, Spent(tx))
  }

  function FirstEffect(tx: Tx, a: Account): (r: Account)
    requires GoodTx(tx) && GoodAccount(a) && FirstAllowed(tx, a)
    ensures GoodAccount(r)
  {
    match tx
    case Noop => a
    case Deposit(_, token, amount, address) => Credited(a, token, amount).(address := address)
    case FullExit(_, ethAddress, token, amount) => SetBalance(a, token, a.balances[token] - amount)
    case ChangePubKey(_, key, _, _, token, _) =>
      if KeyChangeApplies(tx, a) then Paid(a, token, FeeOf(tx)).(pubKeyHash := key) else a
    case _ => Paid(a, tx.token, Spent(tx))
  }

  // ----- the second half: the receiver or the target

  predicate TwoSided(tx: Tx) {
    tx.TransferToNew? || tx.Transfer? || tx.ForcedExit?
  }

  function SecondAccount(tx: Tx): nat
    requires TwoSided(tx)
  {
    if tx.ForcedExit? then tx.target else tx.to
  }

  predicate SecondAllowed(tx: Tx, b: Account)
    requires GoodTx(tx) && TwoSided(tx) && GoodAccount(b)
  {
    if tx.TransferToNew? then EmptyAccount(b)
    else if tx.Transfer? then !EmptyAccount(b) && CanReceive(b, tx.token, Unpack(tx.amountPacked))
    else !EmptyAccount(b) && b.pubKeyHash == 0 && tx.amount == b.balances[tx.token] && tx.ethAddress == b.address
  }

  function SecondEffect(tx: Tx, b: Account): (r: Account)
    requires GoodTx(tx) && TwoSided(tx) && GoodAccount(b) && SecondAllowed(tx, b)
    ensures GoodAccount(r)
  {
    if tx.TransferToNew? then SetBalance(b, tx.token, Unpack(tx.amountPacked)).(address := tx.toAddress)
    else if tx.Transfer? then Credited(b, tx.token, Unpack(tx.amountPacked))
    else SetBalance(b, tx.token, 0)
  }

  // ----- whole operations

  predicate FirstOk(tx: Tx, ledger: Accounts)
    requires Good(ledger)
  {
    GoodTx(tx) && FirstAllowed(tx, ledger[Slot(FirstAccount(tx))])
  }

  function AfterFirst(tx: Tx, ledger: Accounts): (r: Accounts)
    requires Good(ledger) && FirstOk(tx, ledger)
    ensures Good(r)
  {
    var i := Slot(FirstAccount(tx));
    ledger[i := FirstEffect(tx, ledger[i])]
  }

  predicate CanExecute(tx: Tx, ledger: Accounts)
    requires Good(ledger)
  {
    && FirstOk(tx, ledger)
    && (TwoSided(tx) ==> SecondAllowed(tx, AfterFirst(tx, ledger)[Slot(SecondAccount(tx))]))
  }

  function Execute(tx: Tx, ledger: Accounts): (r: Accounts)
    requires Good(ledger) && CanExecute(tx, ledger)
    ensures Good(r)
  {
    var mid := AfterFirst(tx, ledger);
    if TwoSided(tx) then
      var i := Slot(SecondAccount(tx));
      mid[i := SecondEffect(tx, mid[i])]
    else mid
  }

  predicate CanExecuteAll(txs: seq<Tx>, ledger: Accounts)
    requires Good(ledger)
  {
    txs == [] || (CanExecute(txs[0], ledger) && CanExecuteAll(txs[1..], Execute(txs[0], ledger)))
  }

  function ExecuteAll(txs: seq<Tx>, ledger: Accounts): (r: Accounts)
    requires Good(ledger) && CanExecuteAll(txs, ledger)
    ensures Good(r)
  {
    if txs == [] then ledger else ExecuteAll(txs[1..], Execute(txs[0], ledger))
  }

  /** The fees of a list of operations in one token. */
  function FeesIn(txs: seq<Tx>, token: nat): nat {
    if txs == [] then 0
    else (if TokenOf(txs[0]) == token then FeeOf(txs[0]) else 0) + FeesIn(txs[1..], token)
  }

  /** The validator's entry gets the fees of every processable token. */
  function CreditFees(ledger: Accounts, validator: nat, txs: seq<Tx>): Accounts
    requires Good(ledger)
  {
    var i := Slot(validator);
    var a := ledger[i];
    ledger[i := a.(balances := seq(TOKENS, t requires 0 <= t < TOKENS =>
      if t < PROCESSABLE_TOKENS then a.balances[t] + FeesIn(txs, t) else a.balances[t]))]
  }

  // ----- reading an operation off its first chunk

  function TxOf(op: Operation): Tx {
    var x, from, to, token := op.args, op.lhs.accountId, op.rhs.accountId, op.lhs.token;
    if op.txType == DEPOSIT then Deposit(from, token, x.fullAmount, x.ethAddress)
    else if op.txType == TRANSFER_TO_NEW then TransferToNew(from, token, x.amountPacked, x.ethAddress, to, x.feePacked)
    else if op.txType == WITHDRAW then Withdraw(from, token, x.fullAmount, x.feePacked, x.ethAddress)
    else if op.txType == TRANSFER then Transfer(from, token, to, x.amountPacked, x.feePacked)
    else if op.txType == FULL_EXIT then FullExit(from, x.ethAddress, token, x.fullAmount)
    else if op.txType == CHANGE_PUBKEY then ChangePubKey(from, x.newPubKeyHash, x.ethAddress, x.pubNonce, token, x.feePacked)
    else if op.txType == FORCED_EXIT then ForcedExit(from, to, token, x.fullAmount, x.feePacked, x.ethAddress)
    else Noop
  }

  function TxsOf(ops: seq<Operation>): seq<Tx>
    decreases |ops|
  {
    if ops == [] then []
    else
      var n := Chunks(ops[0].txType);
      if n > |ops| then [TxOf(ops[0])] else [TxOf(ops[0])] + TxsOf(ops[n..])
  }
}
