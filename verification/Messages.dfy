/** What a signed message says about the operation it authorises. */
module Messages {
  import opened Bits
  import opened Params
  import opened PrimeField
  import opened Witness
  import opened Gadgets
  import opened BlockSpec
  import opened Transactions

  /** Operations an account must sign. */
  predicate Signed(txType: nat) {
    txType in {TRANSFER, TRANSFER_TO_NEW, WITHDRAW, FORCED_EXIT, CHANGE_PUBKEY}
  }

  // ----- messages are read back from their parts

  lemma {:induction false} PartsInjective(x: seq<bool>, y: seq<bool>)
    requires |x| < MESSAGE_WIDTH && |y| < MESSAGE_WIDTH && MessageParts(x) == MessageParts(y)
    ensures Resize(x, MESSAGE_WIDTH) == Resize(y, MESSAGE_WIDTH)
  {
    var m, n := Resize(x, MESSAGE_WIDTH), Resize(y, MESSAGE_WIDTH);
    assert MessageParts(x)[0] == MessageParts(y)[0] && MessageParts(x)[1] == MessageParts(y)[1] && MessageParts(x)[2] == MessageParts(y)[2];
    hide FromLE, Resize, Pow2;
    FromLEInjective(m[..CAPACITY], n[..CAPACITY]);
    FromLEInjective(m[CAPACITY..2 * CAPACITY], n[CAPACITY..2 * CAPACITY]);
    FromLEInjective(m[2 * CAPACITY..], n[2 * CAPACITY..]);
    assert m == m[..CAPACITY] + m[CAPACITY..2 * CAPACITY] + m[2 * CAPACITY..];
    assert n == n[..CAPACITY] + n[CAPACITY..2 * CAPACITY] + n[2 * CAPACITY..];
  }

  lemma {:induction false} MessageFits(op: Operation)
    requires Allocated(op)
    ensures Fit(MessageFields(op.txType, op))
  {
    hide Pow2, PartsAllocated, Width;
    Widths();
  }

  /** The code at the front of a message. */
  function CodeSigned(txType: nat): nat {
    if txType == TRANSFER_TO_NEW then TRANSFER else txType
  }

  lemma {:induction false} MessageShape(p: Operation, q: Operation)
    requires Signed(p.txType) && Signed(q.txType)
    ensures MessageFields(p.txType, p) != [] && MessageFields(p.txType, p)[0] == F(CodeSigned(p.txType), TX_TYPE_WIDTH)
    ensures CodeSigned(p.txType) == CodeSigned(q.txType) ==> SameWidths(MessageFields(p.txType, p), MessageFields(q.txType, q))
  {
    hide Width;
  }

  /** Equal first fields, whatever follows. */
  lemma {:induction false} SameCode(fs: seq<Field>, gs: seq<Field>, s: seq<bool>, t: seq<bool>)
    requires fs != [] && gs != [] && fs[0].width == gs[0].width && Fit(fs) && Fit(gs)
    requires Encode(fs) + s == Encode(gs) + t
    ensures fs[0] == gs[0]
  {
    var f, g, all := BitsBE(fs[0].value, fs[0].width), BitsBE(gs[0].value, gs[0].width), Encode(fs) + s;
    hide BitsBE;
    FrontOf(f, Encode(fs[1..]), s, all);
    FrontOf(g, Encode(gs[1..]), t, all);
    FromBEOfBits(fs[0].value, fs[0].width);
    FromBEOfBits(gs[0].value, gs[0].width);
  }

  lemma {:induction false} FrontOf(x: seq<bool>, y: seq<bool>, z: seq<bool>, all: seq<bool>)
    requires all == x + y + z
    ensures |x| <= |all| && all[..|x|] == x
  {
  }

  /** Equal signed parts mean equal messages. */
  lemma {:induction false} MessageReadBack(p: Operation, q: Operation)
    requires Allocated(p) && Allocated(q) && Signed(p.txType) && Signed(q.txType)
    requires MessageSigned(p.txType, p) && MessageSigned(q.txType, q) && p.messageParts == q.messageParts
    ensures MessageFields(p.txType, p) == MessageFields(q.txType, q)
    ensures CodeSigned(p.txType) == CodeSigned(q.txType)
  {
    var fs, gs := MessageFields(p.txType, p), MessageFields(q.txType, q);
    var s, t := seq(MESSAGE_WIDTH - |Encode(fs)|, _ => false), seq(MESSAGE_WIDTH - |Encode(gs)|, _ => false);
    hide MessageFields, Encode, Allocated, MessageParts, Signed;
    MessageFits(p);
    MessageFits(q);
    MessageShape(p, q);
    MessageShape(q, p);
    PartsInjective(Encode(fs), Encode(gs));
    assert Encode(fs) + s == Encode(gs) + t;
    SameCode(fs, gs, s, t);
    EncodeInjective(fs, gs, s, t);
  }

  // ----- what the message determines

  /** The parts of two operations that one message fixes. A message names the payer, the token, the amount and
      the fee; the account that a withdrawal or a new account is for, and the new key; but not which account
      receives a transfer or is forced out, not the slot of a new account, and not the nonce a key change
      publishes. A transfer and a transfer to a new account share their messages. */
  predicate SameSigned(x: Tx, y: Tx) {
    match x
    case Withdraw(_, _, _, _, _) => x == y
    case Transfer(from, token, _, amount, fee) =>
      || (y.Transfer? && from == y.from && token == y.token && amount == y.amountPacked && fee == y.feePacked)
      || (y.TransferToNew? && from == y.from && token == y.token && amount == y.amountPacked && fee == y.feePacked)
    case TransferToNew(from, token, amount, address, _, fee) =>
      || (y.Transfer? && from == y.from && token == y.token && amount == y.amountPacked && fee == y.feePacked)
      || (y.TransferToNew? && from == y.from && token == y.token && amount == y.amountPacked && fee == y.feePacked && address == y.toAddress)
    case ChangePubKey(account, key, address, _, token, fee) =>
      y.ChangePubKey? && account == y.account && key == y.newPubKeyHash && address == y.address && token == y.token && fee == y.feePacked
    case ForcedExit(initiator, _, token, _, fee, _) =>
      y.ForcedExit? && initiator == y.initiator && token == y.token && fee == y.feePacked
    case _ => false
  }

  /** One message authorises only operations that agree on everything it names, for one nonce. */
  lemma {:induction false} MessageDetermines(p: Operation, q: Operation)
    requires Allocated(p) && Allocated(q) && First(p) && First(q) && Signed(p.txType) && Signed(q.txType)
    requires MessageSigned(p.txType, p) && MessageSigned(q.txType, q) && p.messageParts == q.messageParts
    ensures SameSigned(TxOf(p), TxOf(q)) && p.lhs.nonce == q.lhs.nonce
  {
    hide Encode, MessageParts, Allocated, Width;
    MessageReadBack(p, q);
    var fs, gs := MessageFields(p.txType, p), MessageFields(q.txType, q);
    assert forall i :: 0 <= i < |fs| ==> fs[i] == gs[i];
    assert fs[0] == gs[0] && fs[1] == gs[1] && fs[2] == gs[2] && fs[3] == gs[3] && fs[4] == gs[4] && fs[5] == gs[5];
  }

  // ----- what it does not determine

  /** The same chunk with another address on its right side, and the message that goes with it. */
  function Readdressed(op: Operation, address: nat): Operation {
    var q := op.(rhs := op.rhs.(address := address));
    q.(messageParts := MessageParts(Encode(MessageFields(op.txType, q))))
  }

  /** The address that the message of a transfer or a forced exit names is compared with no account: the
      first chunk is accepted with any other address just as well, leaves the same state, and stands for the
      same operation. */
  lemma {:induction false} NamedAddressIsFree(st: State, op: Operation, address: nat)
    requires Accepts(st, op) && First(op) && op.txType in {TRANSFER, FORCED_EXIT} && address < ADDRESS_LIMIT
    ensures Accepts(st, Readdressed(op, address)) && Next(st, Readdressed(op, address)) == Next(st, op)
    ensures TxOf(Readdressed(op, address)) == TxOf(op)
    ensures MessageFields(op.txType, Readdressed(op, address))[if op.txType == TRANSFER then 3 else 2] == F(address, ADDRESS_WIDTH)
  {
    SamePubdata(op, address);
    AddressAccepted(st, op, address);
    AddressNamed(op, address);
    hide Readdressed, Accepts, After, NewHolders, BranchRoot, TxOf, MessageFields, Pubdata, FAdd;
  }

  /** The address changes in the message, and nowhere else. */
  lemma {:induction false} AddressNamed(op: Operation, address: nat)
    requires First(op) && op.txType in {TRANSFER, FORCED_EXIT}
    ensures TxOf(Readdressed(op, address)) == TxOf(op)
    ensures var q := Readdressed(op, address);
            q.txType == op.txType && q.chunk == op.chunk && q.pubdataChunk == op.pubdataChunk && q.args == op.args && q.lhs == op.lhs
    ensures MessageFields(op.txType, Readdressed(op, address))[if op.txType == TRANSFER then 3 else 2] == F(address, ADDRESS_WIDTH)
  {
    hide MessageParts, Encode, Width;
  }

  /** The gadgets see no difference. */
  lemma {:induction false} SameVerdict(op: Operation, address: nat, holder: seq<nat>)
    requires First(op) && op.txType in {TRANSFER, FORCED_EXIT} && MessageSigned(op.txType, Readdressed(op, address))
    requires PublishedAs(op.txType, Readdressed(op, address), holder) == PublishedAs(op.txType, op, holder)
    requires Gadgets.Valid(op, op.lhs, holder)
    ensures Gadgets.Valid(Readdressed(op, address), op.lhs, holder)
    ensures Update(Readdressed(op, address), op.lhs, holder) == Update(op, op.lhs, holder)
  {
    hide PublishedAs, MessageSigned, Encode, MessageFields, MessageParts, FAdd, FSub, Unpack, Geq;
  }

  lemma {:induction false} AddressSigned(op: Operation, address: nat)
    requires op.signatureVerified
    ensures MessageSigned(op.txType, Readdressed(op, address))
  {
    MessageIgnoresParts(op.txType, op.(rhs := op.rhs.(address := address)), Readdressed(op, address).messageParts);
    hide MessageFields, MessageParts, Encode;
  }

  lemma {:induction false} AddressPublished(op: Operation, address: nat, holder: seq<nat>)
    requires forall t: nat :: Pubdata(t, Readdressed(op, address)) == Pubdata(t, op)
    ensures PublishedAs(op.txType, Readdressed(op, address), holder) == PublishedAs(op.txType, op, holder)
  {
    hide Pubdata, MultiPack, MessageParts, Encode, MessageFields;
  }

  lemma {:induction false} WasSigned(op: Operation, cur: Branch, holder: seq<nat>)
    requires Gadgets.Valid(op, cur, holder) && First(op) && op.txType in {TRANSFER, FORCED_EXIT}
    ensures op.signatureVerified
  {
    hide PublishedAs, Encode, MessageFields, MessageParts, FAdd, FSub, Unpack, Geq;
  }

  lemma {:induction false} AddressAccepted(st: State, op: Operation, address: nat)
    requires Accepts(st, op) && First(op) && op.txType in {TRANSFER, FORCED_EXIT} && address < ADDRESS_LIMIT
    requires forall t: nat :: Pubdata(t, Readdressed(op, address)) == Pubdata(t, op)
    ensures Accepts(st, Readdressed(op, address)) && After(st, Readdressed(op, address)) == After(st, op)
  {
    hide BranchRoot, Encode, Geq, Unpack, Width, PartsAllocated, Pubdata, MessageParts, MessageFields, FSub, Update, Fits, PublishedAs,
      Gadgets.Valid, MessageSigned;
    var holder := Holder(st, op.txType);
    WasSigned(op, Select(op), holder);
    AddressSigned(op, address);
    AddressPublished(op, address, holder);
    SameVerdict(op, address, holder);
  }

  lemma {:induction false} MessageIgnoresParts(gadget: nat, op: Operation, parts: seq<nat>)
    ensures MessageFields(gadget, op.(messageParts := parts)) == MessageFields(gadget, op)
  {
    hide Width;
  }

  lemma {:induction false} SamePubdata(op: Operation, address: nat)
    ensures forall t: nat :: Pubdata(t, Readdressed(op, address)) == Pubdata(t, op)
    ensures NewHolders(Readdressed(op, address)) == NewHolders(op)
  {
    hide MultiPack, Encode, MessageFields, MessageParts, Width;
    var q := Readdressed(op, address);
    assert forall t: nat :: PubdataFields(t, q) == PubdataFields(t, op);
    hide PubdataFields;
    assert forall t: nat :: Pubdata(t, q) == Pubdata(t, op);
    hide Pubdata;
  }

  // ----- whole blocks

  /** The first chunk of an operation whose message names an address that nothing compares. */
  predicate NamesAddress(op: Operation) {
    First(op) && op.txType in {TRANSFER, FORCED_EXIT}
  }

  predicate AreAddresses(addresses: seq<nat>) {
    forall i :: 0 <= i < |addresses| ==> addresses[i] < ADDRESS_LIMIT
  }

  function Renamed(op: Operation, address: nat): Operation {
    if NamesAddress(op) then Readdressed(op, address) else op
  }

  /** The same chunks with other addresses named in all these messages. */
  function AllReaddressed(ops: seq<Operation>, addresses: seq<nat>): (r: seq<Operation>)
    requires |ops| == |addresses|
    ensures |r| == |ops|
    ensures forall i :: 0 <= i < |r| ==> r[i] == Renamed(ops[i], addresses[i])
  {
    seq(|ops|, i requires 0 <= i < |ops| => Renamed(ops[i], addresses[i]))
  }

  lemma {:induction false} ReaddressedTail(ops: seq<Operation>, addresses: seq<nat>, n: nat)
    requires |ops| == |addresses| && n <= |ops|
    ensures AllReaddressed(ops, addresses)[n..] == AllReaddressed(ops[n..], addresses[n..])
  {
    hide Renamed;
  }

  lemma {:induction false} ChunkRenamed(st: State, op: Operation, address: nat)
    requires Accepts(st, op) && address < ADDRESS_LIMIT
    ensures Accepts(st, Renamed(op, address)) && Next(st, Renamed(op, address)) == Next(st, op)
  {
    hide Accepts, Next, Readdressed;
    if NamesAddress(op) {
      NamedAddressIsFree(st, op, address);
    }
  }

  lemma {:induction false} RunReaddressed(st: State, ops: seq<Operation>, addresses: seq<nat>)
    requires |ops| == |addresses| && AreAddresses(addresses) && AcceptsAll(st, ops)
    ensures AcceptsAll(st, AllReaddressed(ops, addresses)) && Run(st, AllReaddressed(ops, addresses)) == Run(st, ops)
    decreases |ops|
  {
    hide Accepts, Next, Renamed;
    if ops != [] {
      ChunkRenamed(st, ops[0], addresses[0]);
      ReaddressedTail(ops, addresses, 1);
      RunReaddressed(Next(st, ops[0]), ops[1..], addresses[1..]);
    }
  }

  lemma {:induction false} SameTx(op: Operation, address: nat)
    ensures Renamed(op, address).txType == op.txType && TxOf(Renamed(op, address)) == TxOf(op)
  {
    hide TxOf, Readdressed;
    if NamesAddress(op) {
      AddressNamed(op, address);
    }
  }

  lemma {:induction false} TxsReaddressed(ops: seq<Operation>, addresses: seq<nat>)
    requires |ops| == |addresses|
    ensures TxsOf(AllReaddressed(ops, addresses)) == TxsOf(ops)
    decreases |ops|
  {
    hide TxOf, Renamed;
    if ops != [] {
      SameTx(ops[0], addresses[0]);
      var n := Chunks(ops[0].txType);
      if n <= |ops| {
        ReaddressedTail(ops, addresses, n);
        TxsReaddressed(ops[n..], addresses[n..]);
      }
    }
  }

  /** No accepted block depends on the addresses its transfers and forced exits name: with any others, and the
      messages that go with them, it is accepted with the same commitment and runs the same operations. */
  lemma {:induction false} NamedAddressesAreFree(block: Block, commitment: Commitment, addresses: seq<nat>)
    requires BlockAccepted(block, commitment) && |addresses| == |block.ops| && AreAddresses(addresses)
    ensures BlockAccepted(block.(ops := AllReaddressed(block.ops, addresses)), commitment)
    ensures TxsOf(AllReaddressed(block.ops, addresses)) == TxsOf(block.ops)
  {
    hide AcceptsAll, TxsOf, AllReaddressed, FullRoot, FeesCredited, ValidatorRoot;
    RunReaddressed(Initial(block.initialSubroot), block.ops, addresses);
    TxsReaddressed(block.ops, addresses);
  }
}
