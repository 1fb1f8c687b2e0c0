/** The bytes a wallet signs: `get_bytes` of the signed transactions, the parts the prover makes of them, and
    what an operation that carries them must be. */
module WalletMessages {
  import opened Bits
  import opened Common
  import opened Decimal
  import opened FloatConversions
  import opened FloatRoundTrip
  import opened Amounts
  import opened Params
  import opened PrimeField
  import opened Witness
  import opened Gadgets
  import opened BlockSpec
  import opened Grammar
  import opened Ledger
  import opened Transactions
  import opened Execution
  import opened Messages
  import opened Acceptance
  import opened Soundness
  import opened Nonces
  import opened Merkle
  import opened Blocks
  import Prover

  /** A transaction as its author signs it, amounts in full. */
  datatype WalletTx =
    | TransferTx(accountId: nat, fromAddress: nat, toAddress: nat, token: nat, amount: nat, fee: nat, nonce: nat)
    | WithdrawTx(accountId: nat, fromAddress: nat, toAddress: nat, token: nat, amount: nat, fee: nat, nonce: nat)
    | ChangePubKeyTx(accountId: nat, account: nat, newPkHash: nat, token: nat, fee: nat, nonce: nat)
    | ForcedExitTx(accountId: nat, target: nat, token: nat, fee: nat, nonce: nat)

  /** The widths of its fields, and numbers that `pack` does not panic on. */
  predicate Fits(w: WalletTx) {
    && w.accountId < 0x1_0000_0000 && w.token < 0x1_0000 && w.nonce <= MAX_NONCE
    && w.fee < U128_LIMIT && w.fee <= MaxFloat(5, FEE_MANTISSA)
    && (w.TransferTx? || w.WithdrawTx? ==> w.fromAddress < ADDRESS_LIMIT && w.toAddress < ADDRESS_LIMIT && w.amount < U128_LIMIT)
    && (w.ChangePubKeyTx? ==> w.account < ADDRESS_LIMIT && w.newPkHash < ADDRESS_LIMIT)
    && (w.ForcedExitTx? ==> w.target < ADDRESS_LIMIT)
  }

  /** The amounts that are packed can be written without loss. */
  ghost predicate Packable(w: WalletTx) {
    Representable(w.fee, 5, FEE_MANTISSA) && (w.TransferTx? ==> Representable(w.amount, 5, AMOUNT_MANTISSA))
  }

  /** The big-endian bytes of a number. */
  function BytesBE(n: nat, count: nat): (bytes: seq<byte>)
    ensures |bytes| == count
    decreases count
  {
    if count == 0 then [] else BytesBE(n / 256, count - 1) + [n % 256]
  }

  function PackAmount(amount: nat): seq<byte> { Packed(amount, 5, AMOUNT_MANTISSA) }

  function PackFee(fee: nat): seq<byte> { Packed(fee, 5, FEE_MANTISSA) }

  function Concat(pieces: seq<seq<byte>>): seq<byte> {
    if pieces == [] then [] else pieces[0] + Concat(pieces[1..])
  }

  function GetBytes(w: WalletTx): seq<byte> {
    match w
    case TransferTx(id, sender, receiver, token, amount, fee, nonce) =>
      Concat([[5], BytesBE(id, 4), BytesBE(sender, 20), BytesBE(receiver, 20), BytesBE(token, 2), PackAmount(amount), PackFee(fee),
              BytesBE(nonce, 4)])
    case WithdrawTx(id, sender, receiver, token, amount, fee, nonce) =>
      Concat([[3], BytesBE(id, 4), BytesBE(sender, 20), BytesBE(receiver, 20), BytesBE(token, 2), BytesBE(amount, 16), PackFee(fee),
              BytesBE(nonce, 4)])
    case ChangePubKeyTx(id, account, newPkHash, token, fee, nonce) =>
      Concat([[7], BytesBE(id, 4), BytesBE(account, 20), BytesBE(newPkHash, 20), BytesBE(token, 2), PackFee(fee), BytesBE(nonce, 4)])
    case ForcedExitTx(id, target, token, fee, nonce) =>
      Concat([[8], BytesBE(id, 4), BytesBE(target, 20), BytesBE(token, 2), PackFee(fee), BytesBE(nonce, 4)])
  }

  // ----- bytes and fields

  lemma {:induction false} BitsOfConcat(x: seq<byte>, y: seq<byte>)
    ensures BitsOfBytes(x + y) == BitsOfBytes(x) + BitsOfBytes(y)
  {
    hide BitsBE;
    if x == [] {
      assert x + y == y;
    } else {
      assert (x + y)[0] == x[0] && (x + y)[1..] == x[1..] + y;
      BitsOfConcat(x[1..], y);
      Regroup(BitsBE(x[0], 8), BitsOfBytes(x[1..]), BitsOfBytes(y));
    }
  }

  /** The bits of big-endian bytes are the big-endian bits. */
  lemma {:induction false} BitsOfBytesBE(n: nat, count: nat)
    ensures BitsOfBytes(BytesBE(n, count)) == BitsBE(n, 8 * count)
    decreases count
  {
    if count > 0 {
      var high, low := BytesBE(n / 256, count - 1), n % 256;
      BitsOfBytesBE(n / 256, count - 1);
      BitsOfConcat(high, [low]);
      BitsOfByte(low);
      assert Pow2(8) == 256;
      SplitBits(n, 8 * (count - 1), 8);
    }
  }

  lemma {:induction false} BitsOfByte(b: byte)
    ensures BitsOfBytes([b]) == BitsBE(b, 8)
  {
    hide BitsBE;
    assert [b][1..] == [];
    assert BitsOfBytes([]) == [];
  }

  predicate PieceOf(piece: seq<byte>, f: Field) {
    BitsOfBytes(piece) == BitsBE(f.value, f.width)
  }

  lemma {:induction false} PiecesAreFields(pieces: seq<seq<byte>>, fs: seq<Field>)
    requires |pieces| == |fs| && forall i :: 0 <= i < |fs| ==> PieceOf(pieces[i], fs[i])
    ensures BitsOfBytes(Concat(pieces)) == Encode(fs)
  {
    hide BitsBE;
    if pieces != [] {
      assert PieceOf(pieces[0], fs[0]);
      forall i | 0 <= i < |fs[1..]|
        ensures PieceOf(pieces[1..][i], fs[1..][i])
      {
        assert PieceOf(pieces[i + 1], fs[i + 1]);
      }
      PiecesAreFields(pieces[1..], fs[1..]);
      BitsOfConcat(pieces[0], Concat(pieces[1..]));
    }
  }

  /** The fields of the signed bytes. */
  function WalletFields(w: WalletTx): (fs: seq<Field>)
    ensures Width(fs) < MESSAGE_WIDTH
  {
    var id, token, nonce := F(w.accountId, ACCOUNT_ID_WIDTH), F(w.token, TOKEN_WIDTH), F(w.nonce, NONCE_WIDTH);
    var fee := F(PackedNumber(w.fee, FEE_MANTISSA), FEE_WIDTH);
    var fs := match w
      case TransferTx(_, sender, receiver, _, amount, _, _) =>
        [F(5, TX_TYPE_WIDTH), id, F(sender, ADDRESS_WIDTH), F(receiver, ADDRESS_WIDTH), token,
         F(PackedNumber(amount, AMOUNT_MANTISSA), AMOUNT_WIDTH), fee, nonce]
      case WithdrawTx(_, sender, receiver, _, amount, _, _) =>
        [F(3, TX_TYPE_WIDTH), id, F(sender, ADDRESS_WIDTH), F(receiver, ADDRESS_WIDTH), token, F(amount, BALANCE_WIDTH), fee, nonce]
      case ChangePubKeyTx(_, account, newPkHash, _, _, _) =>
        [F(7, TX_TYPE_WIDTH), id, F(account, ADDRESS_WIDTH), F(newPkHash, ADDRESS_WIDTH), token, fee, nonce]
      case ForcedExitTx(_, target, _, _, _) => [F(8, TX_TYPE_WIDTH), id, F(target, ADDRESS_WIDTH), token, fee, nonce];
    WidthUnrolled(fs);
    fs
  }

  lemma {:induction false} WalletPieces(w: WalletTx)
    ensures PieceOf(BytesBE(w.accountId, 4), F(w.accountId, ACCOUNT_ID_WIDTH))
    ensures PieceOf(BytesBE(w.token, 2), F(w.token, TOKEN_WIDTH)) && PieceOf(BytesBE(w.nonce, 4), F(w.nonce, NONCE_WIDTH))
    ensures PieceOf(PackFee(w.fee), F(PackedNumber(w.fee, FEE_MANTISSA), FEE_WIDTH))
    ensures forall a: nat :: PieceOf(BytesBE(a, 20), F(a, ADDRESS_WIDTH))
    ensures forall b: byte :: PieceOf([b], F(b, TX_TYPE_WIDTH))
    ensures forall x: nat :: PieceOf(BytesBE(x, 16), F(x, BALANCE_WIDTH))
    ensures forall x: nat :: PieceOf(PackAmount(x), F(PackedNumber(x, AMOUNT_MANTISSA), AMOUNT_WIDTH))
  {
    hide BitsBE, BytesBE, BitsOfBytes, Packed, PackedNumber;
    BitsOfBytesBE(w.accountId, 4);
    BitsOfBytesBE(w.token, 2);
    BitsOfBytesBE(w.nonce, 4);
    PackedBits(w.fee, FEE_MANTISSA);
    forall a: nat
      ensures PieceOf(BytesBE(a, 20), F(a, ADDRESS_WIDTH)) && PieceOf(BytesBE(a, 16), F(a, BALANCE_WIDTH))
      ensures PieceOf(PackAmount(a), F(PackedNumber(a, AMOUNT_MANTISSA), AMOUNT_WIDTH))
    {
      BitsOfBytesBE(a, 20);
      BitsOfBytesBE(a, 16);
      PackedBits(a, AMOUNT_MANTISSA);
    }
    forall b: byte
      ensures PieceOf([b], F(b, TX_TYPE_WIDTH))
    {
      BitsOfByte(b);
    }
  }

  /** The bits of the signed bytes are those of their fields. */
  lemma {:induction false} BytesAreFields(w: WalletTx)
    ensures BitsOfBytes(GetBytes(w)) == Encode(WalletFields(w)) && |BitsOfBytes(GetBytes(w))| < MESSAGE_WIDTH
  {
    WalletPieces(w);
    hide BitsBE, BytesBE, BitsOfBytes, PackedNumber, PieceOf, PackFee, PackAmount, Width, Encode, Concat;
    var id, token, nonce, fee := BytesBE(w.accountId, 4), BytesBE(w.token, 2), BytesBE(w.nonce, 4), PackFee(w.fee);
    match w
    case TransferTx(_, sender, receiver, _, amount, _, _) =>
      PiecesAreFields([[5], id, BytesBE(sender, 20), BytesBE(receiver, 20), token, PackAmount(amount), fee, nonce], WalletFields(w));
    case WithdrawTx(_, sender, receiver, _, amount, _, _) =>
      PiecesAreFields([[3], id, BytesBE(sender, 20), BytesBE(receiver, 20), token, BytesBE(amount, 16), fee, nonce], WalletFields(w));
    case ChangePubKeyTx(_, account, newPkHash, _, _, _) =>
      PiecesAreFields([[7], id, BytesBE(account, 20), BytesBE(newPkHash, 20), token, fee, nonce], WalletFields(w));
    case ForcedExitTx(_, target, _, _, _) =>
      PiecesAreFields([[8], id, BytesBE(target, 20), token, fee, nonce], WalletFields(w));
  }

  lemma {:induction false} PackedFits(x: nat, mantissaLength: nat, width: nat)
    requires mantissaLength > 0 && x <= MaxFloat(5, mantissaLength) && width == mantissaLength + 5
    ensures PackedNumber(x, mantissaLength) < Pow2(width)
  {
    PackedParts(x, mantissaLength);
  }

  lemma {:induction false} WidthsFit(w: WalletTx)
    requires Fits(w)
    ensures w.accountId < Pow2(ACCOUNT_ID_WIDTH) && w.token < Pow2(TOKEN_WIDTH) && w.nonce < Pow2(NONCE_WIDTH)
    ensures 5 < Pow2(TX_TYPE_WIDTH) && 3 < Pow2(TX_TYPE_WIDTH) && 7 < Pow2(TX_TYPE_WIDTH) && 8 < Pow2(TX_TYPE_WIDTH)
    ensures PackedNumber(w.fee, FEE_MANTISSA) < Pow2(FEE_WIDTH)
    ensures w.TransferTx? ==> PackedNumber(w.amount, AMOUNT_MANTISSA) < Pow2(AMOUNT_WIDTH)
    ensures w.WithdrawTx? ==> w.amount < Pow2(BALANCE_WIDTH)
    ensures w.TransferTx? || w.WithdrawTx? ==> w.fromAddress < Pow2(ADDRESS_WIDTH) && w.toAddress < Pow2(ADDRESS_WIDTH)
    ensures w.ChangePubKeyTx? ==> w.account < Pow2(ADDRESS_WIDTH) && w.newPkHash < Pow2(ADDRESS_WIDTH)
    ensures w.ForcedExitTx? ==> w.target < Pow2(ADDRESS_WIDTH)
  {
    Widths();
    PackedFits(w.fee, FEE_MANTISSA, FEE_WIDTH);
    if w.TransferTx? {
      AmountsPack();
      PackedFits(w.amount, AMOUNT_MANTISSA, AMOUNT_WIDTH);
    }
    hide Pow2, PackedNumber, MaxFloat;
  }

  lemma {:induction false} EightFit(fs: seq<Field>)
    requires |fs| <= 8
    requires |fs| > 0 ==> fs[0].value < Pow2(fs[0].width)
    requires |fs| > 1 ==> fs[1].value < Pow2(fs[1].width)
    requires |fs| > 2 ==> fs[2].value < Pow2(fs[2].width)
    requires |fs| > 3 ==> fs[3].value < Pow2(fs[3].width)
    requires |fs| > 4 ==> fs[4].value < Pow2(fs[4].width)
    requires |fs| > 5 ==> fs[5].value < Pow2(fs[5].width)
    requires |fs| > 6 ==> fs[6].value < Pow2(fs[6].width)
    requires |fs| > 7 ==> fs[7].value < Pow2(fs[7].width)
    ensures Fit(fs)
  {
    hide Pow2;
  }

  lemma {:induction false} TransferFieldsFit(w: WalletTx)
    requires Fits(w) && w.TransferTx?
    ensures Fit(WalletFields(w))
  {
    hide Pow2, PackedNumber, MaxFloat, Width, Fits, Fit;
    WidthsFit(w);
    EightFit(WalletFields(w));
  }

  lemma {:induction false} WithdrawFieldsFit(w: WalletTx)
    requires Fits(w) && w.WithdrawTx?
    ensures Fit(WalletFields(w))
  {
    hide Pow2, PackedNumber, MaxFloat, Width, Fits, Fit;
    WidthsFit(w);
    EightFit(WalletFields(w));
  }

  lemma {:induction false} ChangePubKeyFieldsFit(w: WalletTx)
    requires Fits(w) && w.ChangePubKeyTx?
    ensures Fit(WalletFields(w))
  {
    hide Pow2, PackedNumber, MaxFloat, Width, Fits, Fit;
    WidthsFit(w);
    EightFit(WalletFields(w));
  }

  lemma {:induction false} ForcedExitFieldsFit(w: WalletTx)
    requires Fits(w) && w.ForcedExitTx?
    ensures Fit(WalletFields(w))
  {
    hide Pow2, PackedNumber, MaxFloat, Width, Fits, Fit;
    WidthsFit(w);
    EightFit(WalletFields(w));
  }

  lemma {:induction false} WalletFieldsFit(w: WalletTx)
    requires Fits(w)
    ensures Fit(WalletFields(w))
  {
    hide Fits, Fit, WalletFields;
    match w
    case TransferTx(_, _, _, _, _, _, _) => TransferFieldsFit(w);
    case WithdrawTx(_, _, _, _, _, _, _) => WithdrawFieldsFit(w);
    case ChangePubKeyTx(_, _, _, _, _, _) => ChangePubKeyFieldsFit(w);
    case ForcedExitTx(_, _, _, _, _) => ForcedExitFieldsFit(w);
  }

  // ----- the parts of the message

  /** `generate_sig_witness`: two full words and the rest. */
  method GenerateSigWitness(bits: seq<bool>) returns (first: nat, second: nat, third: nat)
    requires |bits| < MESSAGE_WIDTH
    ensures [first, second, third] == MessageParts(bits)
    ensures BitsLE(first, CAPACITY) + BitsLE(second, CAPACITY) + BitsLE(third, MESSAGE_WIDTH - 2 * CAPACITY) == Resize(bits, MESSAGE_WIDTH)
  {
    var sigBits := Resize(bits, MESSAGE_WIDTH);
    var firstBits, remaining := sigBits[..CAPACITY], sigBits[CAPACITY..];
    var secondBits, thirdBits := remaining[..CAPACITY], remaining[CAPACITY..];
    first, second, third := FromLE(firstBits), FromLE(secondBits), FromLE(thirdBits);
    BitsOfFromLE(firstBits);
    BitsOfFromLE(secondBits);
    BitsOfFromLE(thirdBits);
    assert remaining[..CAPACITY] == sigBits[CAPACITY..2 * CAPACITY] && remaining[CAPACITY..] == sigBits[2 * CAPACITY..];
    assert sigBits == firstBits + secondBits + thirdBits;
  }

  /** What the prover hands to the circuit for a signed transaction. */
  function WalletParts(w: WalletTx): (parts: seq<nat>)
    ensures PartsAllocated(parts)
  {
    BytesAreFields(w);
    MessageParts(BitsOfBytes(GetBytes(w)))
  }

  /** `SigDataInput`: the bits of the bytes, in three parts. */
  method SigDataInput(w: WalletTx) returns (parts: seq<nat>)
    ensures parts == WalletParts(w)
  {
    BytesAreFields(w);
    var first, second, third := GenerateSigWitness(BitsOfBytes(GetBytes(w)));
    parts := [first, second, third];
  }

  // ----- what carries a message

  /** The chunk shows everything the author signed. */
  predicate Carries(op: Operation, w: WalletTx)
    requires Signed(op.txType)
  {
    var b, x := op.lhs, op.args;
    && w.accountId == b.accountId && w.token == b.token && w.nonce == b.nonce && PackedNumber(w.fee, FEE_MANTISSA) == x.feePacked
    && if op.txType == TRANSFER then
         && w.TransferTx? && w.fromAddress == b.address && w.toAddress == op.rhs.address
         && PackedNumber(w.amount, AMOUNT_MANTISSA) == x.amountPacked
       else if op.txType == TRANSFER_TO_NEW then
         && w.TransferTx? && w.fromAddress == b.address && w.toAddress == x.ethAddress
         && PackedNumber(w.amount, AMOUNT_MANTISSA) == x.amountPacked
       else if op.txType == WITHDRAW then
         w.WithdrawTx? && w.fromAddress == b.address && w.toAddress == x.ethAddress && w.amount == x.fullAmount
       else if op.txType == CHANGE_PUBKEY then
         w.ChangePubKeyTx? && w.account == x.ethAddress && w.newPkHash == x.newPubKeyHash
       else
         w.ForcedExitTx? && w.target == op.rhs.address
  }

  lemma {:induction false} CarriesIsFields(op: Operation, w: WalletTx)
    requires Signed(op.txType) && First(op)
    ensures MessageFields(op.txType, op) == WalletFields(w) <==> Carries(op, w)
  {
    hide Width, PackedNumber;
    var fs, gs := MessageFields(op.txType, op), WalletFields(w);
    assert |fs| == |gs| && (forall i :: 0 <= i < |fs| ==> fs[i] == gs[i]) ==> fs == gs;
    if fs == gs {
      assert fs[0] == gs[0] && fs[1] == gs[1] && fs[2] == gs[2] && fs[3] == gs[3] && fs[4] == gs[4] && fs[5] == gs[5];
      assert |fs| > 6 ==> fs[6] == gs[6];
      assert |fs| > 7 ==> fs[7] == gs[7];
    }
  }

  lemma {:induction false} WalletShape(op: Operation, w: WalletTx)
    requires Signed(op.txType)
    ensures MessageFields(op.txType, op) != [] && WalletFields(w) != []
    ensures MessageFields(op.txType, op)[0].width == WalletFields(w)[0].width
    ensures MessageFields(op.txType, op)[0] == WalletFields(w)[0] ==> SameWidths(MessageFields(op.txType, op), WalletFields(w))
  {
    hide Width, PackedNumber;
  }

  /** Equal parts mean equal fields. */
  lemma {:induction false} PartsAreFields(op: Operation, w: WalletTx)
    requires Allocated(op) && Signed(op.txType) && Fits(w)
    ensures MessageParts(Encode(MessageFields(op.txType, op))) == WalletParts(w) <==> MessageFields(op.txType, op) == WalletFields(w)
  {
    BytesAreFields(w);
    MessageFits(op);
    WalletFieldsFit(w);
    WalletShape(op, w);
    hide MessageFields, WalletFields, Encode, Allocated, MessageParts, Signed, GetBytes, BitsOfBytes, Fits;
    var fs, gs := MessageFields(op.txType, op), WalletFields(w);
    if MessageParts(Encode(fs)) == MessageParts(Encode(gs)) {
      var s, t := seq(MESSAGE_WIDTH - |Encode(fs)|, _ => false), seq(MESSAGE_WIDTH - |Encode(gs)|, _ => false);
      PartsInjective(Encode(fs), Encode(gs));
      assert Encode(fs) + s == Encode(gs) + t;
      SameCode(fs, gs, s, t);
      EncodeInjective(fs, gs, s, t);
    }
  }

  /** The message theorem. The message that a first chunk has to carry is the one the wallet signed if and only if
      the chunk shows everything that was signed. */
  lemma {:induction false} WalletMessageIff(op: Operation, w: WalletTx)
    requires Allocated(op) && First(op) && Signed(op.txType) && MessageSigned(op.txType, op) && Fits(w)
    ensures op.messageParts == WalletParts(w) <==> Carries(op, w)
  {
    PartsAreFields(op, w);
    CarriesIsFields(op, w);
    hide MessageFields, WalletFields, Encode, Allocated, MessageParts, Signed, Fits, Carries;
  }

  // ----- what is executed

  /** The operation does what the author signed, to the author's account. */
  predicate Asks(w: WalletTx, tx: Tx, account: Account) {
    && w.nonce == account.nonce && FirstAccount(tx) == w.accountId && TokenOf(tx) == w.token && FeeOf(tx) == w.fee
    && match tx
       case Transfer(_, _, _, amountPacked, _) =>
         w.TransferTx? && w.fromAddress == account.address && Witness.Unpack(amountPacked) == w.amount
       case TransferToNew(_, _, amountPacked, address, _, _) =>
         w.TransferTx? && w.fromAddress == account.address && Witness.Unpack(amountPacked) == w.amount && address == w.toAddress
       case Withdraw(_, _, amount, _, ethAddress) =>
         w.WithdrawTx? && w.fromAddress == account.address && amount == w.amount && ethAddress == w.toAddress
       case ChangePubKey(_, key, address, _, _, _) =>
         w.ChangePubKeyTx? && key == w.newPkHash && address == w.account == account.address
       case ForcedExit(_, _, _, _, _, _) => w.ForcedExitTx?
       case _ => false
  }

  /** Packing loses nothing of what can be packed. */
  lemma {:induction false} PackedKeeps(x: nat, mantissaLength: nat)
    requires mantissaLength > 0 && Representable(x, 5, mantissaLength)
    ensures Witness.Unpack(PackedNumber(x, mantissaLength)) == x
  {
    RepresentableIsKept(x, 5, mantissaLength);
    PackedParts(x, mantissaLength);
  }

  lemma {:induction false} CarriedIsAsked(op: Operation, ledger: Accounts, w: WalletTx)
    requires Good(ledger) && FirstPresents(op, ledger) && Signed(op.txType) && Packable(w) && Carries(op, w)
    ensures Asks(w, TxOf(op), ledger[Slot(op.lhs.accountId)])
  {
    hide BranchRoot, LedgerRoot, Allocated, Packable, FirstPresents, Carries, Asks, ShowsAccount, Signed, TxOf, Select;
    CarriedAmounts(op, w);
    FirstSelects(op, ledger);
    NewKeyAddress(op, ledger);
    RootShows(op, ledger);
    ShownIsAsked(op, w, ledger[Slot(op.lhs.accountId)]);
  }

  lemma {:induction false} ShownIsAsked(op: Operation, w: WalletTx, account: Account)
    requires Signed(op.txType) && Carries(op, w) && ShowsAccount(op.lhs, account)
    requires Witness.Unpack(op.args.feePacked) == w.fee && (w.TransferTx? ==> Witness.Unpack(op.args.amountPacked) == w.amount)
    requires op.txType == CHANGE_PUBKEY ==> op.args.ethAddress == account.address
    ensures Asks(w, TxOf(op), account)
  {
    hide Witness.Unpack, PackedNumber;
  }

  lemma {:induction false} CarriedAmounts(op: Operation, w: WalletTx)
    requires Signed(op.txType) && Packable(w) && Carries(op, w)
    ensures Witness.Unpack(op.args.feePacked) == w.fee && (w.TransferTx? ==> Witness.Unpack(op.args.amountPacked) == w.amount)
  {
    PackedKeeps(w.fee, FEE_MANTISSA);
    if w.TransferTx? {
      PackedKeeps(w.amount, AMOUNT_MANTISSA);
    }
    hide Witness.Unpack, PackedNumber, Representable;
  }

  /** A key change names the address of its account. */
  lemma {:induction false} NewKeyAddress(op: Operation, ledger: Accounts)
    requires Good(ledger) && FirstPresents(op, ledger)
    ensures op.txType == CHANGE_PUBKEY ==> op.args.ethAddress == ledger[Slot(op.lhs.accountId)].address
  {
    hide BranchRoot, LedgerRoot, Allocated, Witness.Unpack, SignedRight, PublishedRight, ArgumentsRight, GoodAccount;
  }

  lemma {:induction false} FirstSelects(op: Operation, ledger: Accounts)
    requires Good(ledger) && FirstPresents(op, ledger)
    ensures Allocated(op) && First(op) && Select(op) == op.lhs && BranchRoot(Select(op), USED_SUBTREE_DEPTH) == LedgerRoot(ledger)
    ensures Signed(op.txType) ==> MessageSigned(op.txType, op)
  {
    hide BranchRoot, LedgerRoot, Allocated, MessageSigned, PublishedRight, ArgumentsRight, FirstOk, GoodAccount;
  }

  /** What is signed is what is done. Whenever an operation of an accepted block carries the message of a wallet's
      transaction, it executes that transaction, amounts in full, for the account that the author named with its
      address and its nonce of that moment. */
  lemma {:induction false} SignedIsDone(block: Block, commitment: Commitment, ledger: Accounts, k: nat, w: WalletTx)
    requires BlockAccepted(block, commitment) && |block.ops| < 0x1_0000_0000_0000_0000
    requires Good(ledger) && block.oldRoot == FullRoot(LedgerRoot(ledger)) && k < |Firsts(block.ops)|
    requires Signed(Firsts(block.ops)[k].txType) && Fits(w) && Packable(w) && Firsts(block.ops)[k].messageParts == WalletParts(w)
    ensures CanExecuteAll(TxsOf(block.ops), ledger)
    ensures var before := LedgerBefore(TxsOf(block.ops), ledger, k);
            Asks(w, TxsOf(block.ops)[k], before[Slot(w.accountId)])
  {
    hide BlockAccepted, LedgerRoot, FullRoot, TxsOf, CanExecuteAll, GoodAccount, Firsts, PresentsAll, ValidatorPresents, Asks, Allocated,
      WalletParts, Carries, FirstPresents, Fits, Packable, Signed, LedgerBefore, MessageSigned, Commits;
    AcceptedBlockPresents(block, commitment, ledger);
    FirstsPresent(block.ops, ledger, k);
    var op, before := Firsts(block.ops)[k], LedgerBefore(TxsOf(block.ops), ledger, k);
    FirstSelects(op, before);
    WalletMessageIff(op, w);
    CarriedIsAsked(op, before, w);
    CarriesAccount(op, w);
  }

  lemma {:induction false} CarriesAccount(op: Operation, w: WalletTx)
    requires Signed(op.txType) && Carries(op, w)
    ensures w.accountId == op.lhs.accountId
  {
    hide PackedNumber;
  }

  // ----- the prover's messages

  /** The wallet's transaction that an operation is made from, for the account `payer` and the receiver or target
      `other`. */
  predicate MadeFrom(tx: Tx, w: WalletTx, payer: Account, other: Account) {
    && w.nonce == payer.nonce && FirstAccount(tx) == w.accountId && TokenOf(tx) == w.token
    && match tx
       case Transfer(_, _, _, amountPacked, feePacked) =>
         && w.TransferTx? && w.fromAddress == payer.address && w.toAddress == other.address
         && amountPacked == PackedNumber(w.amount, AMOUNT_MANTISSA) && feePacked == PackedNumber(w.fee, FEE_MANTISSA)
       case TransferToNew(_, _, amountPacked, address, _, feePacked) =>
         && w.TransferTx? && w.fromAddress == payer.address && w.toAddress == address
         && amountPacked == PackedNumber(w.amount, AMOUNT_MANTISSA) && feePacked == PackedNumber(w.fee, FEE_MANTISSA)
       case Withdraw(_, _, amount, feePacked, ethAddress) =>
         && w.WithdrawTx? && w.fromAddress == payer.address && w.toAddress == ethAddress
         && amount == w.amount && feePacked == PackedNumber(w.fee, FEE_MANTISSA)
       case ChangePubKey(_, key, address, _, _, feePacked) =>
         w.ChangePubKeyTx? && key == w.newPkHash && address == w.account && feePacked == PackedNumber(w.fee, FEE_MANTISSA)
       case ForcedExit(_, _, _, _, feePacked, _) =>
         w.ForcedExitTx? && w.target == other.address && feePacked == PackedNumber(w.fee, FEE_MANTISSA)
       case _ => false
  }

  /** The account a message names second. */
  function Other(tx: Tx, ledger: Accounts): Account
    requires Good(ledger) && CanExecute(tx, ledger)
  {
    var mid := AfterFirst(tx, ledger);
    if TwoSided(tx) then mid[Slot(SecondAccount(tx))] else mid[Slot(FirstAccount(tx))]
  }

  lemma {:induction false} DraftCarries(tx: Tx, ledger: Accounts, feeAccount: nat, w: WalletTx)
    requires Good(ledger) && CanExecute(tx, ledger) && TokenOf(tx) < TOKENS && Signed(Prover.Code(tx))
    ensures Signed(Prover.ChunkFor(tx, Prover.TreesOf(tx, ledger), feeAccount, 0).txType)
    ensures Carries(Prover.ChunkFor(tx, Prover.TreesOf(tx, ledger), feeAccount, 0), w)
       <==> MadeFrom(tx, w, ledger[Slot(FirstAccount(tx))], Other(tx, ledger))
  {
    hide *;
    Prover.ChunkShape(tx, Prover.TreesOf(tx, ledger), feeAccount, 0);
    Prover.PlacesStay(tx, Prover.TreesOf(tx, ledger), feeAccount, 0);
    FirstBranches(tx, ledger, feeAccount);
    MadeIff(tx, w, Prover.ChunkFor(tx, Prover.TreesOf(tx, ledger), feeAccount, 0), ledger[Slot(FirstAccount(tx))], Other(tx, ledger));
  }

  lemma {:induction false} FirstBranches(tx: Tx, ledger: Accounts, feeAccount: nat)
    requires Good(ledger) && CanExecute(tx, ledger) && TokenOf(tx) < TOKENS && Signed(Prover.Code(tx))
    ensures var t := Prover.TreesOf(tx, ledger);
            && t.before == ledger && Slot(FirstAccount(tx)) < |ledger| && GoodAccount(ledger[Slot(FirstAccount(tx))]) && !tx.Noop?
            && Prover.Left(tx, t, feeAccount, 0).address == ledger[Slot(FirstAccount(tx))].address
            && Prover.Left(tx, t, feeAccount, 0).nonce == ledger[Slot(FirstAccount(tx))].nonce
            && (TwoSided(tx) ==> Prover.Right(tx, t, feeAccount, 0).address == Other(tx, ledger).address)
  {
    hide AuditPath, GoodAccount, CanExecute, AfterFirst, Execute;
  }

  /** Carrying the message, in terms of the transaction that the chunk is made for. */
  lemma {:induction false} MadeIff(tx: Tx, w: WalletTx, op: Operation, payer: Account, other: Account)
    requires TokenOf(tx) < TOKENS && GoodAccount(payer) && Signed(op.txType) && op.txType == Prover.Code(tx)
    requires op.args == Prover.ArgsFor(tx, payer)
    requires op.lhs.accountId == FirstAccount(tx) && op.lhs.token == TokenOf(tx) && op.lhs.nonce == payer.nonce && op.lhs.address == payer.address
    requires TwoSided(tx) ==> op.rhs.address == other.address
    ensures Carries(op, w) <==> MadeFrom(tx, w, payer, other)
  {
    hide PackedNumber, Witness.Unpack;
  }

  /** The prover takes the message from the bytes the wallet signed, and the circuit composes it from the chunk:
      they agree, so that the prover's first chunk is accepted, if and only if the operation was made from the
      wallet's transaction. */
  lemma {:induction false} ProverMessageIff(tx: Tx, ledger: Accounts, feeAccount: nat, w: WalletTx)
    requires Good(ledger) && CanExecute(tx, ledger) && Prover.TxFits(tx) && feeAccount < 0x1_0000_0000
    requires Signed(Prover.Code(tx)) && Fits(w)
    ensures Prover.OpsFor(tx, ledger, feeAccount)[0].messageParts == WalletParts(w)
       <==> MadeFrom(tx, w, ledger[Slot(FirstAccount(tx))], Other(tx, ledger))
  {
    hide *;
    Prover.OpsPresent(tx, ledger, feeAccount);
    FirstOfOps(tx, ledger, feeAccount);
    var op := Prover.OpsFor(tx, ledger, feeAccount)[0];
    PresentsMeans(Prover.OpsFor(tx, ledger, feeAccount), ledger, 0);
    FirstSelects(op, ledger);
    DraftCarries(tx, ledger, feeAccount, w);
    WalletMessageIff(op, w);
  }

  lemma {:induction false} FirstOfOps(tx: Tx, ledger: Accounts, feeAccount: nat)
    requires Good(ledger) && CanExecute(tx, ledger)
    ensures TokenOf(tx) < TOKENS && Prover.OpsFor(tx, ledger, feeAccount) != []
    ensures Prover.OpsFor(tx, ledger, feeAccount)[0] == Prover.ChunkFor(tx, Prover.TreesOf(tx, ledger), feeAccount, 0)
  {
    Prover.ExecutableFirst(tx, ledger);
    hide Prover.ChunkFor, CanExecute, GoodAccount, AfterFirst, Execute;
  }

  // ----- which messages wallets can sign

  /** The packed fields are the ones the encoders write. */
  predicate WrittenByEncoder(op: Operation) {
    && op.args.feePacked == PackedNumber(op.args.Fee(), FEE_MANTISSA)
    && (op.txType in {TRANSFER, TRANSFER_TO_NEW} ==> op.args.amountPacked == PackedNumber(op.args.Amount(), AMOUNT_MANTISSA))
  }

  /** The transaction a chunk shows. */
  function Shown(op: Operation): WalletTx
    requires Signed(op.txType)
  {
    var b, x := op.lhs, op.args;
    if op.txType == TRANSFER then TransferTx(b.accountId, b.address, op.rhs.address, b.token, x.Amount(), x.Fee(), b.nonce)
    else if op.txType == TRANSFER_TO_NEW then TransferTx(b.accountId, b.address, x.ethAddress, b.token, x.Amount(), x.Fee(), b.nonce)
    else if op.txType == WITHDRAW then WithdrawTx(b.accountId, b.address, x.ethAddress, b.token, x.fullAmount, x.Fee(), b.nonce)
    else if op.txType == CHANGE_PUBKEY then ChangePubKeyTx(b.accountId, x.ethAddress, x.newPubKeyHash, b.token, x.Fee(), b.nonce)
    else ForcedExitTx(b.accountId, op.rhs.address, b.token, x.Fee(), b.nonce)
  }

  ghost predicate Signable(op: Operation) {
    exists w: WalletTx :: Fits(w) && Packable(w) && op.messageParts == WalletParts(w)
  }

  lemma {:induction false} UnpackedIsRepresentable(packed: nat, mantissaLength: nat)
    requires mantissaLength > 0 && packed < Pow2(mantissaLength + 5)
    ensures Representable(Witness.Unpack(packed), 5, mantissaLength) && Witness.Unpack(packed) <= MaxFloat(5, mantissaLength)
  {
    var m, e := packed / 32, packed % 32;
    assert Pow2(5) == 32;
    Pow2Add(mantissaLength, 5);
    assert m <= MaxMantissa(mantissaLength);
    assert Witness.Unpack(packed) == Scaled(m, e);
    assert Representable(Witness.Unpack(packed), 5, mantissaLength);
    RepresentableIsKept(Witness.Unpack(packed), 5, mantissaLength);
  }

  lemma {:induction false} ShownFits(op: Operation)
    requires Allocated(op) && Signed(op.txType) && op.lhs.token <= PROCESSABLE_TOKENS
    ensures Fits(Shown(op)) && Packable(Shown(op))
  {
    hide Witness.Unpack, MaxFloat, Representable, Pow2, PartsAllocated;
    PackedWidths(op.args);
  }

  lemma {:induction false} PackedWidths(x: Args)
    requires ArgsAllocated(x)
    ensures Representable(x.Fee(), 5, FEE_MANTISSA) && x.Fee() <= MaxFloat(5, FEE_MANTISSA)
    ensures Representable(x.Amount(), 5, AMOUNT_MANTISSA)
  {
    hide Witness.Unpack, MaxFloat, Representable, Pow2;
    Widths();
    UnpackedIsRepresentable(x.feePacked, FEE_MANTISSA);
    UnpackedIsRepresentable(x.amountPacked, AMOUNT_MANTISSA);
  }

  /** A signed operation carries a message that a wallet can sign if and only if its packed fields are the ones the
      encoders write for these numbers. */
  lemma {:induction false} SignableIff(op: Operation)
    requires Allocated(op) && First(op) && Signed(op.txType) && MessageSigned(op.txType, op) && op.lhs.token <= PROCESSABLE_TOKENS
    ensures Signable(op) <==> WrittenByEncoder(op)
  {
    hide Allocated, MessageSigned, Fits, Packable, WalletParts, Witness.Unpack, PackedNumber;
    if Signable(op) {
      var w: WalletTx :| Fits(w) && Packable(w) && op.messageParts == WalletParts(w);
      WalletMessageIff(op, w);
      CarriedIsWritten(op, w);
    }
    if WrittenByEncoder(op) {
      ShownFits(op);
      WalletMessageIff(op, Shown(op));
    }
  }

  lemma {:induction false} CarriedIsWritten(op: Operation, w: WalletTx)
    requires Signed(op.txType) && Packable(w) && Carries(op, w)
    ensures WrittenByEncoder(op)
  {
    PackedKeeps(w.fee, FEE_MANTISSA);
    if w.TransferTx? {
      PackedKeeps(w.amount, AMOUNT_MANTISSA);
    }
    hide Witness.Unpack, PackedNumber, Representable;
  }
}
