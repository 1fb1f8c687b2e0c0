/** The block circuit as it is synthesized: one object threads the rolling root, the fees, the
    remembered token, the previous arguments and the published-data holders through the chunks, and
    in every chunk all eight gadgets run in turn on one shared current branch.

    Every method is proved against `Gadgets` and `BlockSpec`, where each chunk is dispatched to the
    single gadget of its transaction type. A constraint that does not hold is reported through the
    result (`ok`, `accepted`). */
module ZkSyncCircuit {
  import opened Bits
  import opened Common
  import opened Merkle
  import opened Params
  import opened PrimeField
  import opened Witness
  import opened Gadgets
  import opened BlockSpec
  import opened CircuitUtils

  /** `check_account_data`: the root a branch leads to, `depth` levels up. */
  method CheckAccountData(cur: Branch, depth: nat) returns (root: Digest)
    requires |cur.balancePath| == BALANCE_TREE_DEPTH && |cur.accountPath| == ACCOUNT_TREE_DEPTH
    requires depth <= ACCOUNT_TREE_DEPTH && cur.accountId < 0x1_0000_0000 && cur.token < 2048
    ensures root == BranchRoot(cur, depth)
  {
    Widths();
    Pow2Sum(8, 256, 3, 8);
    FromLEOfBits(cur.token, BALANCE_TREE_DEPTH);
    FromLEOfBits(cur.accountId, ACCOUNT_ID_WIDTH);
    var balanceRoot := AllocateMerkleRoot(BalanceLeaf(cur.balance), BitsLE(cur.token, BALANCE_TREE_DEPTH),
                                          cur.balancePath, BALANCE_TREE_DEPTH);
    var leaf := AccountDigest(cur.nonce, cur.pubKeyHash, cur.address, balanceRoot);
    root := AllocateMerkleRoot(leaf, BitsLE(cur.accountId, ACCOUNT_ID_WIDTH), cur.accountPath, depth);
  }

  /** The one chunk of a no-op is zero. */
  lemma {:induction false} NoopChunk(chunk: nat, pastEnd: nat)
    ensures PubdataChunk(seq(CHUNK_WIDTH, _ => false), chunk, pastEnd) == if chunk == 0 then 0 else pastEnd
  {
    var bits := seq(CHUNK_WIDTH, _ => false);
    FromLEZero(bits);
    if chunk == 0 {
      assert ChunkOf(bits, 0) == bits;
    }
  }

  class Circuit {
    var rollingRoot: Digest
    var nextChunkNumber: nat
    var isChunkLast: bool
    var lastTokenId: nat
    var fees: array<nat>
    var prev: Args
    var pubdataHolder: array<seq<nat>>
    var blockPubdata: seq<bool>
    /** The branch the gadgets of the current chunk share and change. */
    var cur: Branch

    ghost predicate Valid()
      reads this, fees, pubdataHolder
    {
      && fees.Length == PROCESSABLE_TOKENS && pubdataHolder.Length == TX_TYPES
      && forall t :: 0 <= t < TX_TYPES ==> |pubdataHolder[t]| == HolderSize(t)
    }

    ghost function Contents(): State
      reads this, fees, pubdataHolder
    {
      State(rollingRoot, nextChunkNumber, isChunkLast, lastTokenId, fees[..], prev, pubdataHolder[..], blockPubdata)
    }

    constructor (initialSubroot: Digest, branch: Branch)
      ensures Valid() && fresh(fees) && fresh(pubdataHolder)
      ensures Contents() == Initial(initialSubroot)
    {
      rollingRoot, nextChunkNumber, isChunkLast, lastTokenId := initialSubroot, 0, false, 0;
      fees := new nat[PROCESSABLE_TOKENS](_ => 0);
      prev := NO_ARGS;
      pubdataHolder := new seq<nat>[TX_TYPES](t => if t < 0 then [] else Repeat(0, HolderSize(t)));
      blockPubdata := [];
      cur := branch;
      new;
      assert fees[..] == Repeat(0, PROCESSABLE_TOKENS);
      assert pubdataHolder[..] == Initial(initialSubroot).holders;
    }

    /** What a gadget may rely on: the current branch is at the selected place, and it is still the
        selected branch if this gadget is the one the chunk is meant for. */
    ghost predicate Ready(gadget: nat, op: Operation)
      reads this, fees, pubdataHolder
    {
      && Valid() && Allocated(op) && Geq(op.args)
      && cur.accountId == Select(op).accountId && cur.token == Select(op).token
      && (op.txType == gadget ==> cur == Select(op))
    }

    /** The published-data checks every gadget but the no-op makes: the padded fields are packed and
        compared with the kept words, which they replace, and the chunk's part is selected. */
    method CheckPubdata(gadget: nat, op: Operation, fields: seq<Field>) returns (properlyCopied: bool, chunkCorrect: bool)
      requires Valid() && gadget < TX_TYPES && gadget != NOOP && gadget != CLOSE
      requires fields == PubdataFields(gadget, op)
      modifies pubdataHolder
      ensures Valid() && pubdataHolder[..] == old(pubdataHolder[..])[gadget := MultiPack(Pubdata(gadget, op))]
      ensures properlyCopied == Copied(gadget, op, old(pubdataHolder[gadget]))
      ensures chunkCorrect == ChunkPublished(gadget, op)
    {
      hide MultiPack, PubdataFields, PubdataChunk, Encode;
      var pubdataBits := Resize(Encode(fields), Chunks(gadget) * CHUNK_WIDTH);
      MultiPackLength(pubdataBits);
      var isEqualPubdata, packedPubdata := VectorizedCompare(pubdataHolder[gadget], pubdataBits);
      pubdataHolder[gadget] := packedPubdata;
      var pubdataChunk := SelectPubdataChunk(pubdataBits, op.chunk, Chunks(gadget), op.pastEnd);
      properlyCopied := op.chunk == 0 || isEqualPubdata;
      chunkCorrect := pubdataChunk == op.pubdataChunk;
    }

    /** `verify_signature_message_construction` on the serialized fields of a gadget. */
    method IsSerializedTxCorrect(op: Operation, fields: seq<Field>) returns (correct: bool)
      requires Allocated(op) && |fields| <= 8 && Width(fields) < MESSAGE_WIDTH
      ensures correct == (MessageParts(Encode(fields)) == op.messageParts)
    {
      var message := Resize(Encode(fields), MESSAGE_WIDTH);
      var first := PackBitsToElement(message[..CAPACITY]);
      var second := PackBitsToElement(message[CAPACITY..2 * CAPACITY]);
      var third := PackBitsToElement(message[2 * CAPACITY..]);
      correct := MultiAnd([first == op.messageParts[0], second == op.messageParts[1], third == op.messageParts[2]]);
      ghost var flags := [first == op.messageParts[0], second == op.messageParts[1], third == op.messageParts[2]];
      assert correct <==> flags[0] && flags[1] && flags[2];
    }

    method Deposit(op: Operation, isAccountEmpty: bool) returns (valid: bool, ok: bool)
      requires Ready(DEPOSIT, op) && isAccountEmpty == IsEmpty(Select(op))
      modifies this`cur, pubdataHolder
      ensures Valid() && pubdataHolder[..] == old(pubdataHolder[..])[DEPOSIT := MultiPack(Pubdata(DEPOSIT, op))]
      ensures op.txType != DEPOSIT ==> !valid && cur == old(cur)
      ensures op.txType == DEPOSIT ==>
                && valid == Gadgets.Valid(op, old(cur), old(pubdataHolder[DEPOSIT]))
                && cur == Update(op, old(cur), old(pubdataHolder[DEPOSIT]))
      ensures Fits(old(cur)) ==> ok == Fits(cur)
    {
      hide Pubdata, MultiPack, PubdataChunk, MessageParts, Encode;
      var x := op.args;
      var pubdata := [F(op.txType, TX_TYPE_WIDTH), F(cur.accountId, ACCOUNT_ID_WIDTH),
                      F(cur.token, TOKEN_WIDTH), F(x.fullAmount, BALANCE_WIDTH),
                      F(x.ethAddress, ADDRESS_WIDTH)];
      var pubdataProperlyCopied, isPubdataChunkCorrect := CheckPubdata(DEPOSIT, op, pubdata);
      var isFirstChunk := op.chunk == 0;
      var feeIsZero := x.Fee() == 0;
      var isDeposit := op.txType == DEPOSIT;
      var isPubkeyCorrect := (x.ethAddress == cur.address) != isAccountEmpty;
      var isACorrect := x.fullAmount == x.a;
      valid := pubdataProperlyCopied && feeIsZero && isPubdataChunkCorrect && isDeposit && isPubkeyCorrect && isACorrect;
      var isValidFirst := valid && isFirstChunk;
      if isValidFirst {
        cur := cur.(balance := FAdd(cur.balance, x.fullAmount));
        cur := cur.(address := x.ethAddress);
      }
      ok := cur.balance < U128_LIMIT;
    }

    method Transfer(op: Operation, isAGeqB: bool, isAccountEmpty: bool) returns (valid: bool, ok: bool)
      requires Ready(TRANSFER, op) && isAccountEmpty == IsEmpty(Select(op)) && isAGeqB == Geq(op.args)
      modifies this`cur, pubdataHolder
      ensures Valid() && pubdataHolder[..] == old(pubdataHolder[..])[TRANSFER := MultiPack(Pubdata(TRANSFER, op))]
      ensures op.txType != TRANSFER ==> !valid && cur == old(cur)
      ensures op.txType == TRANSFER ==>
                && valid == Gadgets.Valid(op, old(cur), old(pubdataHolder[TRANSFER]))
                && cur == Update(op, old(cur), old(pubdataHolder[TRANSFER]))
      ensures Fits(old(cur)) ==> ok == Fits(cur)
    {
      hide Pubdata, MultiPack, PubdataChunk, MessageParts, Encode;
      var x := op.args;
      var pubdata := [F(op.txType, TX_TYPE_WIDTH), F(op.lhs.accountId, ACCOUNT_ID_WIDTH),
                      F(cur.token, TOKEN_WIDTH), F(op.rhs.accountId, ACCOUNT_ID_WIDTH),
                      F(x.amountPacked, AMOUNT_WIDTH), F(x.feePacked, FEE_WIDTH)];
      var pubdataProperlyCopied, isPubdataChunkCorrect := CheckPubdata(TRANSFER, op, pubdata);
      var message := [F(op.txType, TX_TYPE_WIDTH), F(op.lhs.accountId, ACCOUNT_ID_WIDTH),
                      F(op.lhs.address, ADDRESS_WIDTH), F(op.rhs.address, ADDRESS_WIDTH),
                      F(cur.token, TOKEN_WIDTH), F(x.amountPacked, AMOUNT_WIDTH), F(x.feePacked, FEE_WIDTH),
                      F(cur.nonce, NONCE_WIDTH)];
      WidthUnrolled(message);
      assert op.txType == TRANSFER ==> message == MessageFields(TRANSFER, op);
      var isTransfer := op.txType == TRANSFER;
      var isFirstChunk := op.chunk == 0;
      var isACorrect := x.a == cur.balance;
      var sumAmountFee := FAdd(x.Amount(), x.Fee());
      var isBCorrect := x.b == sumAmountFee;
      var isSerializedTxCorrect := IsSerializedTxCorrect(op, message);
      var isSignerValid := op.signerKeyHash == op.lhs.pubKeyHash;
      var lhsValid := isPubdataChunkCorrect && isTransfer && pubdataProperlyCopied && isFirstChunk && isACorrect
        && isBCorrect && isAGeqB && op.signatureVerified && cur.nonce != MAX_NONCE && isSerializedTxCorrect && isSignerValid;
      if lhsValid {
        cur := cur.(nonce := FAdd(cur.nonce, 1));
        cur := cur.(balance := FSub(cur.balance, sumAmountFee));
      }
      ok := cur.nonce <= MAX_NONCE && cur.balance < U128_LIMIT;
      var isChunkSecond := op.chunk == 1;
      var isRhsValid := pubdataProperlyCopied && isTransfer && isChunkSecond && !isAccountEmpty && isPubdataChunkCorrect;
      if isRhsValid {
        cur := cur.(balance := FAdd(cur.balance, x.Amount()));
      }
      ok := ok && cur.balance < U128_LIMIT;
      valid := lhsValid != isRhsValid;
    }

    method TransferToNew(op: Operation, isAGeqB: bool, isAccountEmpty: bool) returns (valid: bool, ok: bool)
      requires Ready(TRANSFER_TO_NEW, op) && isAccountEmpty == IsEmpty(Select(op)) && isAGeqB == Geq(op.args)
      modifies this`cur, pubdataHolder
      ensures Valid() && pubdataHolder[..] == old(pubdataHolder[..])[TRANSFER_TO_NEW := MultiPack(Pubdata(TRANSFER_TO_NEW, op))]
      ensures op.txType != TRANSFER_TO_NEW ==> !valid && cur == old(cur)
      ensures op.txType == TRANSFER_TO_NEW ==>
                && valid == Gadgets.Valid(op, old(cur), old(pubdataHolder[TRANSFER_TO_NEW]))
                && cur == Update(op, old(cur), old(pubdataHolder[TRANSFER_TO_NEW]))
      ensures Fits(old(cur)) ==> ok == Fits(cur)
    {
      hide Pubdata, MultiPack, PubdataChunk, MessageParts, Encode;
      var x := op.args;
      var pubdata := [F(op.txType, TX_TYPE_WIDTH), F(op.lhs.accountId, ACCOUNT_ID_WIDTH),
                      F(cur.token, TOKEN_WIDTH), F(x.amountPacked, AMOUNT_WIDTH),
                      F(x.ethAddress, ADDRESS_WIDTH), F(op.rhs.accountId, ACCOUNT_ID_WIDTH),
                      F(x.feePacked, FEE_WIDTH)];
      var pubdataProperlyCopied, isPubdataChunkCorrect := CheckPubdata(TRANSFER_TO_NEW, op, pubdata);
      var message := [F(TRANSFER, TX_TYPE_WIDTH), F(op.lhs.accountId, ACCOUNT_ID_WIDTH),
                      F(op.lhs.address, ADDRESS_WIDTH), F(x.ethAddress, ADDRESS_WIDTH),
                      F(cur.token, TOKEN_WIDTH), F(x.amountPacked, AMOUNT_WIDTH), F(x.feePacked, FEE_WIDTH),
                      F(cur.nonce, NONCE_WIDTH)];
      WidthUnrolled(message);
      assert op.txType == TRANSFER_TO_NEW ==> message == MessageFields(TRANSFER_TO_NEW, op);
      var isTransfer := op.txType == TRANSFER_TO_NEW;
      var isFirstChunk := op.chunk == 0;
      var isACorrect := x.a == cur.balance;
      var sumAmountFee := FAdd(x.Amount(), x.Fee());
      var isBCorrect := x.b == sumAmountFee;
      var isSerializedTxCorrect := IsSerializedTxCorrect(op, message);
      var isSigCorrect := (isSerializedTxCorrect && op.signatureVerified) || !isFirstChunk;
      var isSignerValid := op.signerKeyHash == op.lhs.pubKeyHash;
      var lhsValid := isPubdataChunkCorrect && isTransfer && isFirstChunk && pubdataProperlyCopied && isACorrect
        && isBCorrect && isAGeqB && cur.nonce != MAX_NONCE && isSigCorrect && isSignerValid;
      assert isTransfer ==> lhsValid == ToNewSender(op, old(cur), old(pubdataHolder[TRANSFER_TO_NEW]));
      if lhsValid {
        cur := cur.(nonce := FAdd(cur.nonce, 1));
        cur := cur.(balance := FSub(cur.balance, sumAmountFee));
      }
      ok := cur.nonce <= MAX_NONCE && cur.balance < U128_LIMIT;
      var isSecondChunk := op.chunk == 1;
      var rhsValid := isPubdataChunkCorrect && isSecondChunk && isTransfer && isAccountEmpty && pubdataProperlyCopied;
      assert isTransfer ==> rhsValid == ToNewReceiver(op, old(cur), old(pubdataHolder[TRANSFER_TO_NEW]));
      if rhsValid {
        cur := cur.(balance := x.Amount());
        cur := cur.(address := x.ethAddress);
      }
      ok := ok && cur.balance < U128_LIMIT;
      var isOhsValid := isPubdataChunkCorrect && !isFirstChunk && !isSecondChunk && isTransfer && pubdataProperlyCopied;
      valid := isOhsValid || lhsValid || rhsValid;
    }

    method Withdraw(op: Operation, isAGeqB: bool) returns (valid: bool, ok: bool)
      requires Ready(WITHDRAW, op) && isAGeqB == Geq(op.args)
      modifies this`cur, pubdataHolder
      ensures Valid() && pubdataHolder[..] == old(pubdataHolder[..])[WITHDRAW := MultiPack(Pubdata(WITHDRAW, op))]
      ensures op.txType != WITHDRAW ==> !valid && cur == old(cur)
      ensures op.txType == WITHDRAW ==>
                && valid == Gadgets.Valid(op, old(cur), old(pubdataHolder[WITHDRAW]))
                && cur == Update(op, old(cur), old(pubdataHolder[WITHDRAW]))
      ensures Fits(old(cur)) ==> ok == Fits(cur)
    {
      hide Pubdata, MultiPack, PubdataChunk, MessageParts, Encode;
      var x := op.args;
      var pubdata := [F(op.txType, TX_TYPE_WIDTH), F(cur.accountId, ACCOUNT_ID_WIDTH),
                      F(cur.token, TOKEN_WIDTH), F(x.fullAmount, BALANCE_WIDTH),
                      F(x.feePacked, FEE_WIDTH), F(x.ethAddress, ADDRESS_WIDTH)];
      var pubdataProperlyCopied, isPubdataChunkCorrect := CheckPubdata(WITHDRAW, op, pubdata);
      var message := [F(op.txType, TX_TYPE_WIDTH), F(cur.accountId, ACCOUNT_ID_WIDTH), F(cur.address, ADDRESS_WIDTH),
                      F(x.ethAddress, ADDRESS_WIDTH), F(cur.token, TOKEN_WIDTH), F(x.fullAmount, BALANCE_WIDTH),
                      F(x.feePacked, FEE_WIDTH), F(cur.nonce, NONCE_WIDTH)];
      WidthUnrolled(message);
      assert op.txType == WITHDRAW ==> message == MessageFields(WITHDRAW, op);
      var isFirstChunk := op.chunk == 0;
      var isWithdraw := op.txType == WITHDRAW;
      var isSerializedTxCorrect := IsSerializedTxCorrect(op, message);
      var isSigCorrect := (isSerializedTxCorrect && op.signatureVerified) || !isFirstChunk;
      var isSignerValid := op.signerKeyHash == cur.pubKeyHash;
      var isBaseValid := pubdataProperlyCopied && isPubdataChunkCorrect && isWithdraw && isSigCorrect && isSignerValid;
      var isACorrect := x.a == cur.balance;
      var sumAmountFee := FAdd(x.fullAmount, x.Fee());
      var isBCorrect := x.b == sumAmountFee;
      var lhsValid := isFirstChunk && isBaseValid && isACorrect && isBCorrect && isAGeqB && cur.nonce != MAX_NONCE;
      var isOhsValid := isBaseValid && !isFirstChunk;
      valid := lhsValid || isOhsValid;
      var updatedBalance := FSub(cur.balance, sumAmountFee);
      if lhsValid {
        cur := cur.(balance := updatedBalance);
        cur := cur.(nonce := FAdd(cur.nonce, 1));
      }
      ok := cur.balance < U128_LIMIT && cur.nonce <= MAX_NONCE;
    }

    method FullExit(op: Operation) returns (valid: bool, ok: bool)
      requires Ready(FULL_EXIT, op)
      modifies this`cur, pubdataHolder
      ensures Valid() && pubdataHolder[..] == old(pubdataHolder[..])[FULL_EXIT := MultiPack(Pubdata(FULL_EXIT, op))]
      ensures op.txType != FULL_EXIT ==> !valid && cur == old(cur)
      ensures op.txType == FULL_EXIT ==>
                && valid == Gadgets.Valid(op, old(cur), old(pubdataHolder[FULL_EXIT]))
                && cur == Update(op, old(cur), old(pubdataHolder[FULL_EXIT]))
      ensures Fits(old(cur)) ==> ok == Fits(cur)
    {
      hide Pubdata, MultiPack, PubdataChunk, MessageParts, Encode;
      var x := op.args;
      var isFirstChunk := op.chunk == 0;
      var pubdata := [F(op.txType, TX_TYPE_WIDTH), F(cur.accountId, ACCOUNT_ID_WIDTH),
                      F(x.ethAddress, ADDRESS_WIDTH), F(cur.token, TOKEN_WIDTH),
                      F(x.fullAmount, BALANCE_WIDTH)];
      var pubdataProperlyCopied, isPubdataChunkCorrect := CheckPubdata(FULL_EXIT, op, pubdata);
      var feeIsZero := x.Fee() == 0;
      var isFullExit := op.txType == FULL_EXIT;
      var isBaseValid := isPubdataChunkCorrect && isFullExit && pubdataProperlyCopied && feeIsZero;
      var isAddressCorrect := cur.address == x.ethAddress;
      var circuitPubdataAmount := if !isAddressCorrect then 0 else cur.balance;
      var isPubdataAmountValid := circuitPubdataAmount == x.fullAmount;
      var firstChunkValid := isFirstChunk && isBaseValid && cur.nonce != MAX_NONCE && isPubdataAmountValid;
      var successAccountUpdate := firstChunkValid && isAddressCorrect;
      if successAccountUpdate {
        cur := cur.(balance := 0);
      }
      ok := cur.balance < U128_LIMIT;
      var otherChunksValid := isBaseValid && !isFirstChunk;
      valid := firstChunkValid || otherChunksValid;
    }

    method ChangePubkeyOffchain(op: Operation, isAGeqB: bool) returns (valid: bool, ok: bool)
      requires Ready(CHANGE_PUBKEY, op) && isAGeqB == Geq(op.args)
      modifies this`cur, pubdataHolder
      ensures Valid() && pubdataHolder[..] == old(pubdataHolder[..])[CHANGE_PUBKEY := MultiPack(Pubdata(CHANGE_PUBKEY, op))]
      ensures op.txType != CHANGE_PUBKEY ==> !valid && cur == old(cur)
      ensures op.txType == CHANGE_PUBKEY ==>
                && valid == Gadgets.Valid(op, old(cur), old(pubdataHolder[CHANGE_PUBKEY]))
                && cur == Update(op, old(cur), old(pubdataHolder[CHANGE_PUBKEY]))
      ensures Fits(old(cur)) ==> ok == Fits(cur)
    {
      hide Pubdata, MultiPack, PubdataChunk, MessageParts, Encode;
      var x := op.args;
      var pubdata := [F(op.txType, TX_TYPE_WIDTH), F(cur.accountId, ACCOUNT_ID_WIDTH),
                      F(x.newPubKeyHash, ADDRESS_WIDTH), F(x.ethAddress, ADDRESS_WIDTH),
                      F(x.pubNonce, NONCE_WIDTH), F(cur.token, TOKEN_WIDTH), F(x.feePacked, FEE_WIDTH)];
      var pubdataProperlyCopied, isPubdataChunkCorrect := CheckPubdata(CHANGE_PUBKEY, op, pubdata);
      var message := [F(op.txType, TX_TYPE_WIDTH), F(cur.accountId, ACCOUNT_ID_WIDTH), F(x.ethAddress, ADDRESS_WIDTH),
                      F(x.newPubKeyHash, ADDRESS_WIDTH), F(cur.token, TOKEN_WIDTH), F(x.feePacked, FEE_WIDTH),
                      F(cur.nonce, NONCE_WIDTH)];
      WidthUnrolled(message);
      assert op.txType == CHANGE_PUBKEY ==> message == MessageFields(CHANGE_PUBKEY, op);
      var isSerializedTxCorrect := IsSerializedTxCorrect(op, message);
      var isFirstChunk := op.chunk == 0;
      var isACorrect := x.a == op.lhs.balance;
      var isBCorrect := x.b == x.Fee();
      var isChangePubkey := op.txType == CHANGE_PUBKEY;
      var isAddressCorrect := x.ethAddress == cur.address;
      var isSignerValid := op.signerKeyHash == x.newPubKeyHash;
      var isSignedCorrectly := isSerializedTxCorrect && op.signatureVerified && isSignerValid;
      var isSigCorrect := isSignedCorrectly || !isFirstChunk;
      valid := pubdataProperlyCopied && isACorrect && isBCorrect && isAGeqB && isPubdataChunkCorrect
        && isChangePubkey && isAddressCorrect && isSigCorrect;
      var isPubNonceValid := cur.nonce == x.pubNonce;
      var isValidFirst := valid && isFirstChunk && isPubNonceValid && cur.nonce != MAX_NONCE;
      var updatedBalance := FSub(cur.balance, x.Fee());
      if isValidFirst {
        cur := cur.(pubKeyHash := x.newPubKeyHash);
        cur := cur.(nonce := FAdd(cur.nonce, 1));
        cur := cur.(balance := updatedBalance);
      }
      ok := cur.nonce <= MAX_NONCE && cur.balance < U128_LIMIT;
    }

    method Noop(op: Operation) returns (valid: bool)
      requires Ready(NOOP, op)
      ensures op.txType != NOOP ==> !valid
      ensures op.txType == NOOP ==> valid == Gadgets.Valid(op, cur, pubdataHolder[NOOP])
      ensures op.txType == NOOP ==> cur == Update(op, cur, pubdataHolder[NOOP])
    {
      var pubdataBits := seq(CHUNK_WIDTH, _ => false);
      var pubdataChunk := SelectPubdataChunk(pubdataBits, op.chunk, 1, op.pastEnd);
      NoopChunk(op.chunk, op.pastEnd);
      var isPubdataChunkCorrect := pubdataChunk == op.pubdataChunk;
      var feeIsZero := op.args.Fee() == 0;
      var isNoop := op.txType == 0;
      valid := isPubdataChunkCorrect && feeIsZero && isNoop;
    }

    method ForcedExit(op: Operation, isAGeqB: bool, isAccountEmpty: bool) returns (valid: bool, ok: bool)
      requires Ready(FORCED_EXIT, op) && isAccountEmpty == IsEmpty(Select(op)) && isAGeqB == Geq(op.args)
      modifies this`cur, pubdataHolder
      ensures Valid() && pubdataHolder[..] == old(pubdataHolder[..])[FORCED_EXIT := MultiPack(Pubdata(FORCED_EXIT, op))]
      ensures op.txType != FORCED_EXIT ==> !valid && cur == old(cur)
      ensures op.txType == FORCED_EXIT ==>
                && valid == Gadgets.Valid(op, old(cur), old(pubdataHolder[FORCED_EXIT]))
                && cur == Update(op, old(cur), old(pubdataHolder[FORCED_EXIT]))
      ensures Fits(old(cur)) ==> ok == Fits(cur)
    {
      hide Pubdata, MultiPack, PubdataChunk, MessageParts, Encode;
      var x := op.args;
      var pubdata := [F(op.txType, TX_TYPE_WIDTH), F(op.lhs.accountId, ACCOUNT_ID_WIDTH),
                      F(op.rhs.accountId, ACCOUNT_ID_WIDTH), F(cur.token, TOKEN_WIDTH),
                      F(x.fullAmount, BALANCE_WIDTH), F(x.feePacked, FEE_WIDTH), F(x.ethAddress, ADDRESS_WIDTH)];
      var pubdataProperlyCopied, isPubdataChunkCorrect := CheckPubdata(FORCED_EXIT, op, pubdata);
      var message := [F(op.txType, TX_TYPE_WIDTH), F(op.lhs.accountId, ACCOUNT_ID_WIDTH), F(op.rhs.address, ADDRESS_WIDTH),
                      F(cur.token, TOKEN_WIDTH), F(x.feePacked, FEE_WIDTH), F(op.lhs.nonce, NONCE_WIDTH)];
      WidthUnrolled(message);
      assert message == MessageFields(FORCED_EXIT, op);
      var isForcedExit := op.txType == FORCED_EXIT;
      var isFirstChunk := op.chunk == 0;
      var isACorrect := x.a == cur.balance;
      var isBCorrect := x.b == x.Fee();
      var isSerializedTxCorrect := IsSerializedTxCorrect(op, message);
      var isSignerValid := op.signerKeyHash == op.lhs.pubKeyHash;
      var lhsValid := isPubdataChunkCorrect && isForcedExit && pubdataProperlyCopied && isFirstChunk && isACorrect
        && isBCorrect && isAGeqB && op.signatureVerified && cur.nonce != MAX_NONCE && isSerializedTxCorrect && isSignerValid;
      assert isForcedExit ==> lhsValid == ForcedExitSender(op, old(cur), old(pubdataHolder[FORCED_EXIT]));
      if lhsValid {
        cur := cur.(nonce := FAdd(cur.nonce, 1));
        cur := cur.(balance := FSub(cur.balance, x.Fee()));
      }
      ok := cur.nonce <= MAX_NONCE && cur.balance < U128_LIMIT;
      var isSecondChunk := op.chunk == 1;
      var isRhsSigningKeyUnset := op.rhs.pubKeyHash == 0;
      var isRhsBalanceEqAmount := x.fullAmount == cur.balance;
      var isAddressCorrect := op.rhs.address == x.ethAddress;
      var rhsValid := pubdataProperlyCopied && isForcedExit && isSecondChunk && !isAccountEmpty && isPubdataChunkCorrect
        && isRhsSigningKeyUnset && isRhsBalanceEqAmount && isAddressCorrect;
      assert isForcedExit ==> rhsValid == ForcedExitTarget(op, old(cur), old(pubdataHolder[FORCED_EXIT]));
      if rhsValid {
        cur := cur.(balance := FSub(cur.balance, x.fullAmount));
      }
      ok := ok && cur.balance < U128_LIMIT;
      var isOhsValid := isPubdataChunkCorrect && !isFirstChunk && !isSecondChunk && isForcedExit && pubdataProperlyCopied;
      valid := isOhsValid || lhsValid || rhsValid;
    }

    /** `execute_op` up to the gadgets: the constraints on tokens, arguments and their difference. */
    method CheckArguments(op: Operation) returns (ok: bool)
      requires Valid() && Allocated(op)
      modifies this`prev
      ensures prev == op.args
      ensures ok <==>
                && op.lhs.token == op.rhs.token && FSub(PROCESSABLE_TOKENS, op.lhs.token) < 2048
                && (op.args.SameAs(old(prev)) || First(op)) && Geq(op.args)
    {
      var x := op.args;
      var tokensOk := op.lhs.token == op.rhs.token && FSub(PROCESSABLE_TOKENS, op.lhs.token) < 2048;
      var flags := [x.a == prev.a, x.b == prev.b, x.amountPacked == prev.amountPacked, x.feePacked == prev.feePacked,
                    x.ethAddress == prev.ethAddress, x.newPubKeyHash == prev.newPubKeyHash, x.fullAmount == prev.fullAmount];
      var equalToPrevious := MultiAnd(flags);
      assert flags[0] && flags[1] && flags[2] && flags[3] && flags[4] && flags[5] && flags[6] <==> x.SameAs(prev);
      assert equalToPrevious <==> x.SameAs(prev);
      var correct := MultiOr([equalToPrevious, First(op)]);
      assert correct <==> [equalToPrevious, First(op)][0] || [equalToPrevious, First(op)][1];
      prev := op.args;
      ok := tokensOk && correct && FSub(x.a, x.b) < U128_LIMIT;
    }

    /** The first four gadgets. */
    method RunFirstGadgets(op: Operation, isAGeqB: bool, isAccountEmpty: bool) returns (flags: seq<bool>, ok: bool)
      requires Valid() && Allocated(op) && Geq(op.args) && cur == Select(op) && Fits(cur)
      requires isAccountEmpty == IsEmpty(Select(op)) && isAGeqB == Geq(op.args)
      modifies this`cur, pubdataHolder
      ensures Valid() && pubdataHolder[..] == old(pubdataHolder[..])[DEPOSIT := MultiPack(Pubdata(DEPOSIT, op))]
                [TRANSFER := MultiPack(Pubdata(TRANSFER, op))][TRANSFER_TO_NEW := MultiPack(Pubdata(TRANSFER_TO_NEW, op))]
                [WITHDRAW := MultiPack(Pubdata(WITHDRAW, op))]
      ensures |flags| == 4
      ensures var valid := flags[0] || flags[1] || flags[2] || flags[3];
              if op.txType in {DEPOSIT, TRANSFER, TRANSFER_TO_NEW, WITHDRAW} then
                && valid == Gadgets.Valid(op, Select(op), old(pubdataHolder[op.txType]))
                && cur == Update(op, Select(op), old(pubdataHolder[op.txType]))
              else !valid && cur == Select(op)
      ensures ok == Fits(cur)
    {
      hide Pubdata, MultiPack, Select, IsEmpty, Geq, Gadgets.Valid, Update, Allocated, PubdataFields;
      ghost var hs, branch := pubdataHolder[..], cur;
      var v1, o1 := Deposit(op, isAccountEmpty);
      assert pubdataHolder[TRANSFER] == hs[TRANSFER] && (op.txType != DEPOSIT ==> cur == branch);
      var v2, o2 := Transfer(op, isAGeqB, isAccountEmpty);
      assert pubdataHolder[TRANSFER_TO_NEW] == hs[TRANSFER_TO_NEW];
      assert op.txType != DEPOSIT && op.txType != TRANSFER ==> cur == branch;
      var v3, o3 := TransferToNew(op, isAGeqB, isAccountEmpty);
      assert pubdataHolder[WITHDRAW] == hs[WITHDRAW];
      var v4, o4 := Withdraw(op, isAGeqB);
      flags := [v1, v2, v3, v4];
      ok := o1 && o2 && o3 && o4;
    }

    /** The last four gadgets. */
    method RunLastGadgets(op: Operation, isAGeqB: bool, isAccountEmpty: bool) returns (flags: seq<bool>, ok: bool)
      requires Valid() && Allocated(op) && Geq(op.args) && cur.accountId == Select(op).accountId && cur.token == Select(op).token
      requires op.txType in {FULL_EXIT, CHANGE_PUBKEY, NOOP, FORCED_EXIT} ==> cur == Select(op)
      requires isAccountEmpty == IsEmpty(Select(op)) && isAGeqB == Geq(op.args)
      modifies this`cur, pubdataHolder
      ensures Valid() && pubdataHolder[..] == old(pubdataHolder[..])[FULL_EXIT := MultiPack(Pubdata(FULL_EXIT, op))]
                [CHANGE_PUBKEY := MultiPack(Pubdata(CHANGE_PUBKEY, op))][FORCED_EXIT := MultiPack(Pubdata(FORCED_EXIT, op))]
      ensures |flags| == 4
      ensures var valid := flags[0] || flags[1] || flags[2] || flags[3];
              if op.txType in {FULL_EXIT, CHANGE_PUBKEY, NOOP, FORCED_EXIT} then
                && valid == Gadgets.Valid(op, Select(op), old(pubdataHolder[op.txType]))
                && cur == Update(op, Select(op), old(pubdataHolder[op.txType]))
              else !valid && cur == old(cur)
      ensures Fits(old(cur)) ==> ok == Fits(cur)
    {
      hide Pubdata, MultiPack, Select, IsEmpty, Geq, Gadgets.Valid, Update, Allocated, PubdataFields;
      ghost var hs, branch := pubdataHolder[..], cur;
      var v5, o5 := FullExit(op);
      assert pubdataHolder[CHANGE_PUBKEY] == hs[CHANGE_PUBKEY] && (op.txType != FULL_EXIT ==> cur == branch);
      var v6, o6 := ChangePubkeyOffchain(op, isAGeqB);
      assert pubdataHolder[NOOP] == hs[NOOP] && pubdataHolder[FORCED_EXIT] == hs[FORCED_EXIT];
      assert op.txType != FULL_EXIT && op.txType != CHANGE_PUBKEY ==> cur == branch;
      var v7 := Noop(op);
      var v8, o8 := ForcedExit(op, isAGeqB, isAccountEmpty);
      flags := [v5, v6, v7, v8];
      ok := o5 && o6 && o8;
    }

    /** All eight gadgets, in the order of `execute_op`, on the one shared branch. The result is
        that of the selected gadget alone: its validity, its update of the selected branch, and the
        published data of every gadget in its holder. */
    method RunGadgets(op: Operation, isAGeqB: bool, isAccountEmpty: bool) returns (valid: bool, ok: bool)
      requires Valid() && Allocated(op) && Geq(op.args) && cur == Select(op) && Fits(cur)
      requires isAccountEmpty == IsEmpty(Select(op)) && isAGeqB == Geq(op.args)
      modifies this`cur, pubdataHolder
      ensures pubdataHolder[..] == NewHolders(op) && Valid()
      ensures valid <==> IsGadget(op.txType) && Gadgets.Valid(op, Select(op), old(Holder(Contents(), op.txType)))
      ensures valid ==> cur == Update(op, Select(op), old(Holder(Contents(), op.txType)))
      ensures valid ==> ok == Fits(cur)
    {
      hide Pubdata, MultiPack, Select, IsEmpty, Geq, Gadgets.Valid, Update, Allocated, PubdataFields;
      ghost var hs := pubdataHolder[..];
      var first, o1 := RunFirstGadgets(op, isAGeqB, isAccountEmpty);
      assert forall t :: t in {FULL_EXIT, CHANGE_PUBKEY, NOOP, FORCED_EXIT} ==> pubdataHolder[t] == hs[t];
      var last, o2 := RunLastGadgets(op, isAGeqB, isAccountEmpty);
      var flags := first + last;
      valid := MultiOr(flags);
      ok := o1 && o2;
      assert valid <==> flags[0] || flags[1] || flags[2] || flags[3] || flags[4] || flags[5] || flags[6] || flags[7];
      HoldersReplaced(hs, op);
    }

    lemma {:induction false} HoldersReplaced(hs: seq<seq<nat>>, op: Operation)
      requires |hs| == TX_TYPES && hs[NOOP] == [] && hs[CLOSE] == []
      ensures hs[DEPOSIT := MultiPack(Pubdata(DEPOSIT, op))][TRANSFER := MultiPack(Pubdata(TRANSFER, op))]
                [TRANSFER_TO_NEW := MultiPack(Pubdata(TRANSFER_TO_NEW, op))][WITHDRAW := MultiPack(Pubdata(WITHDRAW, op))]
                [FULL_EXIT := MultiPack(Pubdata(FULL_EXIT, op))][CHANGE_PUBKEY := MultiPack(Pubdata(CHANGE_PUBKEY, op))]
                [FORCED_EXIT := MultiPack(Pubdata(FORCED_EXIT, op))] == NewHolders(op)
    {
      hide Pubdata, MultiPack, PubdataFields;
    }

    /** The fee loop: the fee goes to the remembered token, in the last chunk only. */
    method CollectFees(op: Operation, token: nat, fee: nat, isLast: bool)
      requires Valid()
      modifies fees
      ensures Valid()
      ensures fees[..] == if isLast then CollectFee(old(fees[..]), token, fee) else old(fees[..])
    {
      for i := 0 to fees.Length
        invariant forall k :: 0 <= k < i ==>
                    fees[k] == if k == token && isLast then FAdd(old(fees[k]), fee) else old(fees[k])
        invariant forall k :: i <= k < fees.Length ==> fees[k] == old(fees[k])
      {
        var sum := FAdd(fees[i], fee);
        var shouldUpdate := token == i && isLast;
        fees[i] := if shouldUpdate then sum else fees[i];
      }
    }

    /** The constraints of one chunk that come before the gadgets. */
    method OpenChunk(op: Operation) returns (ok: bool, isAccountEmpty: bool)
      requires Valid()
      modifies this`cur, this`prev
      ensures ok <==> Opens(old(Contents()), op)
      ensures ok ==> cur == Select(op) && BranchAllocated(cur) && prev == op.args && isAccountEmpty == IsEmpty(cur)
    {
      hide IsEmpty, BranchRoot, FSub;
      ok, isAccountEmpty := false, false;
      if Allocated(op) && op.chunk == nextChunkNumber {
        cur := Select(op);
        var root := CheckAccountData(cur, USED_SUBTREE_DEPTH);
        isAccountEmpty := IsAccountEmpty(cur);
        ok := CheckArguments(op);
        ok := ok && root == rollingRoot;
      }
    }

    /** What a chunk changes after the gadgets: the remembered token, the fees, the chunk counter, the
        published bits and the root. */
    method CloseChunk(op: Operation)
      requires Valid() && cur.accountId == Select(op).accountId && cur.token == Select(op).token
      requires |cur.balancePath| == BALANCE_TREE_DEPTH && |cur.accountPath| == ACCOUNT_TREE_DEPTH
      requires cur.accountId < 0x1_0000_0000 && cur.token < 2048
      modifies this`lastTokenId, this`isChunkLast, this`nextChunkNumber, this`blockPubdata, this`rollingRoot, fees
      ensures Valid() && Contents() == old(Closed(Contents(), op, cur))
    {
      hide BranchRoot, BitsLE;
      var isFirst := op.chunk == 0;
      var isLast := op.chunk == Chunks(op.txType) - 1;
      lastTokenId := if isFirst then cur.token else lastTokenId;
      CollectFees(op, lastTokenId, op.args.Fee(), isLast);
      isChunkLast := isLast;
      nextChunkNumber := if isLast then 0 else FAdd(op.chunk, 1);
      blockPubdata := blockPubdata + BitsLE(op.pubdataChunk, CHUNK_WIDTH);
      rollingRoot := CheckAccountData(cur, USED_SUBTREE_DEPTH);
    }

    /** One round of the main cycle. */
    method ProcessChunk(op: Operation) returns (accepted: bool)
      requires Valid()
      modifies this, fees, pubdataHolder
      ensures fees == old(fees) && pubdataHolder == old(pubdataHolder)
      ensures accepted <==> old(Accepts(Contents(), op))
      ensures accepted ==> Valid() && Contents() == old(Next(Contents(), op))
    {
      hide Pubdata, MultiPack, IsEmpty, Gadgets.Valid, Update, BranchRoot, FSub, NewHolders, BitsLE, Allocated;
      ghost var st := Contents();
      var isOpen, isAccountEmpty := OpenChunk(op);
      accepted := false;
      if isOpen {
        var valid, ok := RunGadgets(op, true, isAccountEmpty);
        if valid && ok {
          CloseChunk(op);
          accepted := true;
        }
      }
    }
  }

  /** `calculate_balances_root_from_left_tree_values`: every balance is range-checked and hashed, the
      hashes are combined pairwise, and the rest of the tree is empty. */
  method BalancesRoot(balances: seq<nat>) returns (ok: bool, root: Digest)
    requires |balances| == PROCESSABLE_TOKENS
    ensures ok == Short(balances)
    ensures root == ProcessableRoot(balances)
  {
    ok := true;
    var leaves := [];
    for i := 0 to |balances|
      invariant ok <==> forall k :: 0 <= k < i ==> balances[k] < U128_LIMIT
      invariant |leaves| == i && forall k :: 0 <= k < i ==> leaves[k] == BalanceLeaf(balances[k])
    {
      ok := ok && balances[i] < U128_LIMIT;
      leaves := leaves + [BalanceLeaf(balances[i])];
    }
    assert leaves == BalanceLeaves(balances);
    Pow2Sum(4, 16, 3, 8);
    Pow2Sum(7, 128, 4, 16);
    root := LeftTreeRoot(leaves, BalanceLeaf(0), PROCESSABLE_DEPTH, BALANCE_TREE_DEPTH);
  }

  method RootFromOperator(v: Validator, balances: seq<nat>) returns (ok: bool, root: Digest)
    requires ValidatorAllocated(v) && |balances| == PROCESSABLE_TOKENS
    ensures ok == Short(balances) && root == ValidatorRoot(v, balances)
  {
    var balanceRoot;
    ok, balanceRoot := BalancesRoot(balances);
    Widths();
    FromLEOfBits(v.id, ACCOUNT_ID_WIDTH);
    root := AllocateMerkleRoot(AccountDigest(v.nonce, v.pubKeyHash, v.address, balanceRoot),
                               BitsLE(v.id, ACCOUNT_ID_WIDTH), v.path, USED_SUBTREE_DEPTH);
  }

  /** `synthesize`: the constraints of the whole block hold exactly when `BlockAccepted` says so. */
  method Synthesize(block: Block, commitment: Commitment) returns (accepted: bool)
    ensures accepted <==> BlockAccepted(block, commitment)
  {
    accepted := false;
    var oldRootFromSubroot := ContinueLeftmostSubroot(block.initialSubroot, EMPTY_ACCOUNT, USED_SUBTREE_DEPTH, ACCOUNT_TREE_DEPTH);
    if block.number >= 0x1_0000_0000 || oldRootFromSubroot != block.oldRoot || block.ops == [] {
      return;
    }
    var circuit := new Circuit(block.initialSubroot, block.ops[0].lhs);
    ghost var start := circuit.Contents();
    for i := 0 to |block.ops|
      invariant circuit.Valid() && fresh(circuit) && fresh(circuit.fees) && fresh(circuit.pubdataHolder)
      invariant AcceptsAll(start, block.ops) == AcceptsAll(circuit.Contents(), block.ops[i..])
      invariant AcceptsAll(start, block.ops) ==> Run(start, block.ops) == Run(circuit.Contents(), block.ops[i..])
    {
      assert block.ops[i..][0] == block.ops[i] && block.ops[i..][1..] == block.ops[i + 1..];
      var chunkAccepted := circuit.ProcessChunk(block.ops[i]);
      if !chunkAccepted { return; }
    }
    assert AcceptsAll(start, block.ops) && circuit.Contents() == Final(block);
    if !circuit.isChunkLast || !ValidatorAllocated(block.validator) { return; }
    accepted := CloseBlock(block, commitment, circuit);
  }

  method CloseBlock(block: Block, commitment: Commitment, circuit: Circuit) returns (accepted: bool)
    requires circuit.Valid() && ValidatorAllocated(block.validator)
    requires AcceptsAll(Initial(block.initialSubroot), block.ops) && circuit.Contents() == Final(block)
    ensures accepted <==>
              && FeesCredited(Final(block).root, block.validator, Final(block).fees)
              && commitment == Commitment(block.number, block.validator.id, block.oldRoot, NewRoot(block), Final(block).published)
  {
    var v := block.validator;
    var shortBefore, rootBefore := RootFromOperator(v, v.balances);
    var balances := v.balances;
    for i := 0 to PROCESSABLE_TOKENS
      invariant |balances| == PROCESSABLE_TOKENS
      invariant forall k :: 0 <= k < i ==> balances[k] == FAdd(v.balances[k], circuit.fees[k])
      invariant forall k :: i <= k < PROCESSABLE_TOKENS ==> balances[k] == v.balances[k]
    {
      balances := balances[i := FAdd(balances[i], circuit.fees[i])];
    }
    assert balances == AddFees(v.balances, circuit.fees[..]);
    var shortAfter, rootAfter := RootFromOperator(v, balances);
    var finalRoot := ContinueLeftmostSubroot(rootAfter, EMPTY_ACCOUNT, USED_SUBTREE_DEPTH, ACCOUNT_TREE_DEPTH);
    accepted := shortBefore && rootBefore == circuit.rollingRoot && shortAfter
      && commitment == Commitment(block.number, v.id, block.oldRoot, finalRoot, circuit.blockPubdata);
  }
}
