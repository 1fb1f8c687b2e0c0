/** What each operation gadget checks and changes when it is the one its chunk's transaction type
    selects. `Valid` is its validity flag, `Update` the branch it leaves; the circuit itself runs all
    eight gadgets one after the other (see ZkSyncCircuit). */
module Gadgets {
  import opened Bits
  import opened Common
  import opened Params
  import opened PrimeField
  import opened Witness

  predicate IsGadget(txType: nat) {
    txType < TX_TYPES && txType != CLOSE
  }

  predicate First(op: Operation) {
    op.chunk == 0
  }

  /** A first chunk may publish anything; a later one repeats what the chunk before it published. */
  predicate Copied(gadget: nat, op: Operation, holder: seq<nat>) {
    First(op) || holder == MultiPack(Pubdata(gadget, op))
  }

  predicate ChunkPublished(gadget: nat, op: Operation) {
    PubdataChunk(Pubdata(gadget, op), op.chunk, op.pastEnd) == op.pubdataChunk
  }

  predicate PublishedAs(gadget: nat, op: Operation, holder: seq<nat>) {
    Copied(gadget, op, holder) && ChunkPublished(gadget, op)
  }

  predicate NoNonceOverflow(b: Branch) {
    b.nonce != MAX_NONCE
  }

  /** The difference a - b was decomposed in 128 bits. */
  predicate Geq(x: Args) {
    FSub(x.a, x.b) < U128_LIMIT
  }

  predicate DepositValid(op: Operation, cur: Branch, holder: seq<nat>) {
    && PublishedAs(DEPOSIT, op, holder)
    && op.args.Fee() == 0
    && (op.args.ethAddress == cur.address) != IsEmpty(cur)
    && op.args.fullAmount == op.args.a
  }

  /** The flags of a chunk in which the sender pays `amount` and its nonce is used. */
  predicate SenderPays(op: Operation, cur: Branch, amount: nat) {
    && op.args.a == cur.balance
    && op.args.b == amount
    && Geq(op.args)
    && NoNonceOverflow(cur)
  }

  predicate TransferSender(op: Operation, cur: Branch, holder: seq<nat>) {
    && PublishedAs(TRANSFER, op, holder) && First(op)
    && SenderPays(op, cur, FAdd(op.args.Amount(), op.args.Fee()))
    && MessageSigned(TRANSFER, op) && op.signerKeyHash == op.lhs.pubKeyHash
  }

  predicate TransferReceiver(op: Operation, cur: Branch, holder: seq<nat>) {
    PublishedAs(TRANSFER, op, holder) && op.chunk == 1 && !IsEmpty(cur)
  }

  predicate ToNewSender(op: Operation, cur: Branch, holder: seq<nat>) {
    && PublishedAs(TRANSFER_TO_NEW, op, holder) && First(op)
    && SenderPays(op, cur, FAdd(op.args.Amount(), op.args.Fee()))
    && MessageSigned(TRANSFER_TO_NEW, op) && op.signerKeyHash == op.lhs.pubKeyHash
  }

  predicate ToNewReceiver(op: Operation, cur: Branch, holder: seq<nat>) {
    PublishedAs(TRANSFER_TO_NEW, op, holder) && op.chunk == 1 && IsEmpty(cur)
  }

  predicate WithdrawBase(op: Operation, cur: Branch, holder: seq<nat>) {
    && PublishedAs(WITHDRAW, op, holder)
    && (First(op) ==> MessageSigned(WITHDRAW, op))
    && op.signerKeyHash == cur.pubKeyHash
  }

  predicate WithdrawSender(op: Operation, cur: Branch, holder: seq<nat>) {
    && First(op) && WithdrawBase(op, cur, holder)
    && SenderPays(op, cur, FAdd(op.args.fullAmount, op.args.Fee()))
  }

  predicate FullExitBase(op: Operation, holder: seq<nat>) {
    PublishedAs(FULL_EXIT, op, holder) && op.args.Fee() == 0
  }

  predicate FullExitFirst(op: Operation, cur: Branch, holder: seq<nat>) {
    && First(op) && FullExitBase(op, holder) && NoNonceOverflow(cur)
    && op.args.fullAmount == (if cur.address == op.args.ethAddress then cur.balance else 0)
  }

  /** Neither the published nonce nor the overflow test is part of this flag. */
  predicate ChangePubKeyValid(op: Operation, cur: Branch, holder: seq<nat>) {
    && PublishedAs(CHANGE_PUBKEY, op, holder)
    && op.args.a == op.lhs.balance && op.args.b == op.args.Fee() && Geq(op.args)
    && op.args.ethAddress == cur.address
    && (First(op) ==> MessageSigned(CHANGE_PUBKEY, op) && op.signerKeyHash == op.args.newPubKeyHash)
  }

  predicate ChangePubKeyApplies(op: Operation, cur: Branch, holder: seq<nat>) {
    && ChangePubKeyValid(op, cur, holder) && First(op)
    && cur.nonce == op.args.pubNonce && NoNonceOverflow(cur)
  }

  predicate ForcedExitSender(op: Operation, cur: Branch, holder: seq<nat>) {
    && PublishedAs(FORCED_EXIT, op, holder) && First(op)
    && SenderPays(op, cur, op.args.Fee())
    && MessageSigned(FORCED_EXIT, op) && op.signerKeyHash == op.lhs.pubKeyHash
  }

  predicate ForcedExitTarget(op: Operation, cur: Branch, holder: seq<nat>) {
    && PublishedAs(FORCED_EXIT, op, holder) && op.chunk == 1
    && !IsEmpty(cur) && op.rhs.pubKeyHash == 0
    && op.args.fullAmount == cur.balance && op.rhs.address == op.args.ethAddress
  }

  /** A no-op publishes one chunk of zeros and has no copy check, so it may stand at any chunk
      number as far as this flag goes, and past the first it may publish anything. */
  predicate NoopValid(op: Operation) {
    op.pubdataChunk == (if First(op) then 0 else op.pastEnd) && op.args.Fee() == 0
  }

  predicate Valid(op: Operation, cur: Branch, holder: seq<nat>) {
    if op.txType == DEPOSIT then DepositValid(op, cur, holder)
    else if op.txType == TRANSFER then
      TransferSender(op, cur, holder) != TransferReceiver(op, cur, holder)
    else if op.txType == TRANSFER_TO_NEW then
      || ToNewSender(op, cur, holder) || ToNewReceiver(op, cur, holder)
      || (op.chunk > 1 && PublishedAs(TRANSFER_TO_NEW, op, holder))
    else if op.txType == WITHDRAW then
      || WithdrawSender(op, cur, holder) || (!First(op) && WithdrawBase(op, cur, holder))
    else if op.txType == FULL_EXIT then
      || FullExitFirst(op, cur, holder) || (!First(op) && FullExitBase(op, holder))
    else if op.txType == CHANGE_PUBKEY then ChangePubKeyValid(op, cur, holder)
    else if op.txType == FORCED_EXIT then
      || ForcedExitSender(op, cur, holder) || ForcedExitTarget(op, cur, holder)
      || (op.chunk > 1 && PublishedAs(FORCED_EXIT, op, holder))
    else op.txType == NOOP && NoopValid(op)
  }

  function Pay(cur: Branch, amount: nat): Branch {
    cur.(balance := FSub(cur.balance, amount), nonce := FAdd(cur.nonce, 1))
  }

  function Update(op: Operation, cur: Branch, holder: seq<nat>): (r: Branch)
    ensures r.accountId == cur.accountId && r.accountPath == cur.accountPath
    ensures r.token == cur.token && r.balancePath == cur.balancePath
  {
    var x := op.args;
    if op.txType == DEPOSIT && DepositValid(op, cur, holder) && First(op) then
      cur.(balance := FAdd(cur.balance, x.fullAmount), address := x.ethAddress)
    else if op.txType == TRANSFER && TransferSender(op, cur, holder) then
      Pay(cur, FAdd(x.Amount(), x.Fee()))
    else if op.txType == TRANSFER && TransferReceiver(op, cur, holder) then
      cur.(balance := FAdd(cur.balance, x.Amount()))
    else if op.txType == TRANSFER_TO_NEW && ToNewSender(op, cur, holder) then
      Pay(cur, FAdd(x.Amount(), x.Fee()))
    else if op.txType == TRANSFER_TO_NEW && ToNewReceiver(op, cur, holder) then
      cur.(balance := x.Amount(), address := x.ethAddress)
    else if op.txType == WITHDRAW && WithdrawSender(op, cur, holder) then
      Pay(cur, FAdd(x.fullAmount, x.Fee()))
    else if op.txType == FULL_EXIT && FullExitFirst(op, cur, holder) && cur.address == x.ethAddress then
      cur.(balance := 0)
    else if op.txType == CHANGE_PUBKEY && ChangePubKeyApplies(op, cur, holder) then
      Pay(cur, x.Fee()).(pubKeyHash := x.newPubKeyHash)
    else if op.txType == FORCED_EXIT && ForcedExitSender(op, cur, holder) then
      Pay(cur, x.Fee())
    else if op.txType == FORCED_EXIT && ForcedExitTarget(op, cur, holder) then
      cur.(balance := FSub(cur.balance, x.fullAmount))
    else cur
  }

  /** The updated numbers were decomposed in their fixed lengths. */
  predicate Fits(b: Branch) {
    b.balance < U128_LIMIT && b.nonce <= MAX_NONCE
  }
}
