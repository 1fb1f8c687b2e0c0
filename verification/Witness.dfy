/** The witness of one chunk: the two account branches, the operation arguments and the signature
    data a prover supplies, with the length constraints their allocation imposes. */
module Witness {
  import opened Bits
  import opened Common
  import opened Merkle
  import opened Params
  import opened PrimeField
  import opened Decimal

  /** One account leaf with one of its balances, and the audit paths of both. */
  datatype Branch = Branch(
    nonce: nat, pubKeyHash: nat, address: nat,
    accountId: nat, accountPath: seq<Digest>,
    balance: nat, token: nat, balancePath: seq<Digest>)

  datatype Args = Args(
    a: nat, b: nat, amountPacked: nat, fullAmount: nat, feePacked: nat,
    newPubKeyHash: nat, ethAddress: nat, pubNonce: nat)
  {
    function Amount(): nat { Unpack(amountPacked) }
    function Fee(): nat { Unpack(feePacked) }

    /** The arguments that must not change inside one operation. */
    predicate SameAs(other: Args) {
      && a == other.a && b == other.b
      && amountPacked == other.amountPacked && feePacked == other.feePacked
      && ethAddress == other.ethAddress && newPubKeyHash == other.newPubKeyHash
      && fullAmount == other.fullAmount
    }
  }

  const NO_ARGS := Args(0, 0, 0, 0, 0, 0, 0, 0)

  /** `signatureVerified` and `signerKeyHash` stand for the Schnorr check and the hash of the key it
      used; the three message parts are the packed bits that were signed. `pastEnd` is what the selection
      of a published chunk gives past the end of the data: the circuit leaves it to the prover, gadget by
      gadget, and only the gadget of the chunk's own type matters. */
  datatype Operation = Operation(
    txType: nat, chunk: nat, pubdataChunk: nat, pastEnd: nat,
    signatureVerified: bool, signerKeyHash: nat, messageParts: seq<nat>,
    args: Args, lhs: Branch, rhs: Branch)

  /** A packed amount: the low five bits are the decimal exponent, the rest is the mantissa. */
  function Unpack(packed: nat): nat {
    packed / 32 * Pow10(packed % 32)
  }

  predicate BranchAllocated(b: Branch) {
    && b.nonce <= MAX_NONCE && b.pubKeyHash < ADDRESS_LIMIT && b.address < ADDRESS_LIMIT
    && b.accountId < 0x1_0000_0000 && |b.accountPath| == ACCOUNT_TREE_DEPTH
    && b.balance < U128_LIMIT && b.token < 2048 && |b.balancePath| == BALANCE_TREE_DEPTH
  }

  predicate ArgsAllocated(x: Args) {
    && x.a < U128_LIMIT && x.b < U128_LIMIT && x.fullAmount < U128_LIMIT
    && x.amountPacked < 0x100_0000_0000 && x.feePacked < 0x1_0000
    && x.Amount() < U128_LIMIT && x.Fee() < U128_LIMIT
    && x.newPubKeyHash < ADDRESS_LIMIT && x.ethAddress < ADDRESS_LIMIT && x.pubNonce <= MAX_NONCE
  }

  /** The lengths of the three message parts: two full words and the rest of the padded message. */
  predicate PartsAllocated(parts: seq<nat>) {
    && |parts| == 3 && parts[0] < Pow2(CAPACITY) && parts[1] < Pow2(CAPACITY)
    && parts[2] < Pow2(MESSAGE_WIDTH - 2 * CAPACITY)
  }

  predicate Allocated(op: Operation) {
    && op.txType < 256 && op.chunk < P && op.pubdataChunk < 0x100_0000_0000_0000_0000 && op.pastEnd < P
    && op.signerKeyHash < ADDRESS_LIMIT && PartsAllocated(op.messageParts)
    && ArgsAllocated(op.args) && BranchAllocated(op.lhs) && BranchAllocated(op.rhs)
  }

  /** `select_branch`: a deposit always works on the first branch, any other operation only in its
      first chunk. */
  function Select(op: Operation): Branch {
    if op.txType == DEPOSIT || op.chunk == 0 then op.lhs else op.rhs
  }

  /** The nonce, the key hash and the address decide emptiness; balances do not. */
  predicate IsEmpty(b: Branch) {
    b.nonce == 0 && b.pubKeyHash == 0 && b.address == 0
  }

  /** `check_account_data`: the root claimed by a branch, over `depth` account levels. */
  function AccountDigest(nonce: nat, pubKeyHash: nat, address: nat, balanceRoot: Digest): Digest {
    AccountLeaf(nonce, pubKeyHash, address, Node(balanceRoot, Raw(0)))
  }

  function BranchLeaf(b: Branch): Digest
    requires |b.balancePath| == BALANCE_TREE_DEPTH
  {
    AccountDigest(b.nonce, b.pubKeyHash, b.address,
                  PathRoot(BalanceLeaf(b.balance), b.token, b.balancePath, BALANCE_TREE_DEPTH))
  }

  function BranchRoot(b: Branch, depth: nat): Digest
    requires |b.balancePath| == BALANCE_TREE_DEPTH && depth <= |b.accountPath|
  {
    PathRoot(BranchLeaf(b), b.accountId, b.accountPath, depth)
  }

  // ----- published data

  /** The fields a gadget publishes for the chunk `op`. The transaction type is the chunk's own; the
      account and token of the current branch are never changed by any gadget. */
  function PubdataFields(gadget: nat, op: Operation): (fs: seq<Field>)
    ensures Width(fs) <= Chunks(gadget) * CHUNK_WIDTH
  {
    var cur, x := Select(op), op.args;
    var code, id, token := F(op.txType, TX_TYPE_WIDTH), F(cur.accountId, ACCOUNT_ID_WIDTH), F(cur.token, TOKEN_WIDTH);
    var left, right := F(op.lhs.accountId, ACCOUNT_ID_WIDTH), F(op.rhs.accountId, ACCOUNT_ID_WIDTH);
    var full, amount, fee := F(x.fullAmount, BALANCE_WIDTH), F(x.amountPacked, AMOUNT_WIDTH), F(x.feePacked, FEE_WIDTH);
    var eth, key := F(x.ethAddress, ADDRESS_WIDTH), F(x.newPubKeyHash, ADDRESS_WIDTH);
    var fs :=
      if gadget == DEPOSIT then [code, id, token, full, eth]
      else if gadget == TRANSFER_TO_NEW then [code, left, token, amount, eth, right, fee]
      else if gadget == WITHDRAW then [code, id, token, full, fee, eth]
      else if gadget == TRANSFER then [code, left, token, right, amount, fee]
      else if gadget == FULL_EXIT then [code, id, eth, token, full]
      else if gadget == CHANGE_PUBKEY then [code, id, key, eth, F(x.pubNonce, NONCE_WIDTH), token, fee]
      else if gadget == FORCED_EXIT then [code, left, right, token, full, fee, eth]
      else [];
    WidthUnrolled(fs);
    fs
  }

  lemma {:induction false} WidthUnrolled(fs: seq<Field>)
    requires |fs| <= 8
    ensures Width(fs) ==
      (if |fs| > 0 then fs[0].width else 0) + (if |fs| > 1 then fs[1].width else 0)
      + (if |fs| > 2 then fs[2].width else 0) + (if |fs| > 3 then fs[3].width else 0)
      + (if |fs| > 4 then fs[4].width else 0) + (if |fs| > 5 then fs[5].width else 0)
      + (if |fs| > 6 then fs[6].width else 0) + (if |fs| > 7 then fs[7].width else 0)
  {
    if |fs| > 0 {
      var g := fs[1..];
      WidthUnrolled(g);
      assert forall i :: 0 <= i < |g| ==> g[i] == fs[i + 1];
    }
  }

  /** The published bits of a whole operation, padded to its chunks. */
  function Pubdata(gadget: nat, op: Operation): (bits: seq<bool>)
    ensures |bits| == Chunks(gadget) * CHUNK_WIDTH
  {
    Resize(Encode(PubdataFields(gadget, op)), Chunks(gadget) * CHUNK_WIDTH)
  }

  function ChunkOf(bits: seq<bool>, i: nat): (c: seq<bool>)
    requires (i + 1) * CHUNK_WIDTH <= |bits|
    ensures |c| == CHUNK_WIDTH
  {
    bits[i * CHUNK_WIDTH..(i + 1) * CHUNK_WIDTH]
  }

  /** `select_pubdata_chunk`: the packed chunk with the given number, or `pastEnd` when there is none. */
  function PubdataChunk(bits: seq<bool>, chunk: nat, pastEnd: nat): nat
    requires |bits| % CHUNK_WIDTH == 0
  {
    if chunk < |bits| / CHUNK_WIDTH then FromLE(ChunkOf(bits, chunk)) else pastEnd
  }

  // ----- signed messages

  function MessageFields(gadget: nat, op: Operation): (fs: seq<Field>)
    ensures Width(fs) < MESSAGE_WIDTH
  {
    var cur, x := Select(op), op.args;
    var code, id, token := F(op.txType, TX_TYPE_WIDTH), F(cur.accountId, ACCOUNT_ID_WIDTH), F(cur.token, TOKEN_WIDTH);
    var left, leftAddress := F(op.lhs.accountId, ACCOUNT_ID_WIDTH), F(op.lhs.address, ADDRESS_WIDTH);
    var full, amount, fee := F(x.fullAmount, BALANCE_WIDTH), F(x.amountPacked, AMOUNT_WIDTH), F(x.feePacked, FEE_WIDTH);
    var eth, nonce := F(x.ethAddress, ADDRESS_WIDTH), F(cur.nonce, NONCE_WIDTH);
    var fs :=
      if gadget == WITHDRAW then [code, id, F(cur.address, ADDRESS_WIDTH), eth, token, full, fee, nonce]
      else if gadget == TRANSFER then
        [code, left, leftAddress, F(op.rhs.address, ADDRESS_WIDTH), token, amount, fee, nonce]
      else if gadget == TRANSFER_TO_NEW then
        [F(TRANSFER, TX_TYPE_WIDTH), left, leftAddress, eth, token, amount, fee, nonce]
      else if gadget == CHANGE_PUBKEY then [code, id, eth, F(x.newPubKeyHash, ADDRESS_WIDTH), token, fee, nonce]
      else if gadget == FORCED_EXIT then
        [code, left, F(op.rhs.address, ADDRESS_WIDTH), token, fee, F(op.lhs.nonce, NONCE_WIDTH)]
      else [];
    WidthUnrolled(fs);
    fs
  }

  /** `verify_signature_message_construction`: the padded message is packed in three parts. */
  function MessageParts(bits: seq<bool>): (parts: seq<nat>)
    requires |bits| < MESSAGE_WIDTH
    ensures PartsAllocated(parts)
  {
    var m := Resize(bits, MESSAGE_WIDTH);
    [FromLE(m[..CAPACITY]), FromLE(m[CAPACITY..2 * CAPACITY]), FromLE(m[2 * CAPACITY..])]
  }

  /** The signature was verified, by the key with this hash, on exactly this gadget's message. */
  predicate MessageSigned(gadget: nat, op: Operation) {
    && MessageParts(Encode(MessageFields(gadget, op))) == op.messageParts
    && op.signatureVerified
  }
}
