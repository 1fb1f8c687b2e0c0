/** The state restoration's parser of published data, and its agreement with the circuit: it cuts the
    bytes of an accepted block where the circuit glued them. */
module RollupOps {
  import opened Bits
  import opened Common
  import opened Params
  import opened PrimeField
  import opened Decimal
  import opened Witness
  import opened Gadgets
  import opened BlockSpec
  import opened Grammar
  import opened Ledger
  import opened Soundness
  import opened Execution
  import opened FloatConversions
  import opened FloatRoundTrip
  import T = Transactions

  /** What can be read of an operation from its published data, amounts in full. */
  datatype ZkSyncOp =
    | NoopOp
    | DepositOp(accountId: nat, token: nat, amount: nat, to: nat)
    | TransferToNewOp(from: nat, token: nat, amount: nat, toAddress: nat, to: nat, fee: nat)
    | WithdrawOp(accountId: nat, token: nat, amount: nat, fee: nat, to: nat)
    | CloseOp(accountId: nat)
    | TransferOp(from: nat, token: nat, to: nat, amount: nat, fee: nat)
    | FullExitOp(accountId: nat, ethAddress: nat, token: nat, amount: nat)
    | ChangePubKeyOp(accountId: nat, newPkHash: nat, account: nat, nonce: nat, feeToken: nat, fee: nat)
    | ForcedExitOp(initiator: nat, target: nat, token: nat, amount: nat, fee: nat, to: nat)

  /** `OutOfRange` is the panic of a slice past the end of the data. */
  datatype Outcome = Parsed(ops: seq<ZkSyncOp>) | WrongData | OutOfRange

  function PublicDataLength(opType: nat): Option<nat> {
    if opType < TX_TYPES then Some(Chunks(opType) * CHUNK_BYTES) else None
  }

  /** A big-endian number. */
  function Number(bytes: seq<byte>): nat {
    FromBE(BitsOfBytes(bytes))
  }

  function Sum(sizes: seq<nat>): nat {
    if sizes == [] then 0 else sizes[0] + Sum(sizes[1..])
  }

  /** Consecutive slices of the given sizes. */
  function Cut(bytes: seq<byte>, sizes: seq<nat>): (parts: seq<seq<byte>>)
    requires Sum(sizes) <= |bytes|
    ensures |parts| == |sizes|
    ensures forall i :: 0 <= i < |sizes| ==> |parts[i]| == sizes[i]
    decreases |sizes|
  {
    if sizes == [] then [] else [bytes[..sizes[0]]] + Cut(bytes[sizes[0]..], sizes[1..])
  }

  function UnpackAmount(data: seq<byte>): Option<nat> { Unpacked(data, 5, 35) }

  function UnpackFee(data: seq<byte>): Option<nat> { Unpacked(data, 5, 11) }

  const DEPOSIT_SIZES: seq<nat> := [1, 4, 2, 16, 20]
  const TRANSFER_TO_NEW_SIZES: seq<nat> := [1, 4, 2, 5, 20, 4, 2]
  const WITHDRAW_SIZES: seq<nat> := [1, 4, 2, 16, 2, 20]
  const CLOSE_SIZES: seq<nat> := [1, 4]
  const TRANSFER_SIZES: seq<nat> := [1, 4, 2, 4, 5, 2]
  const FULL_EXIT_SIZES: seq<nat> := [1, 4, 20, 2, 16]
  const CHANGE_PUBKEY_SIZES: seq<nat> := [1, 4, 20, 20, 4, 2, 2]
  const FORCED_EXIT_SIZES: seq<nat> := [1, 4, 4, 2, 16, 2, 20]

  /** The bytes each field of an operation takes, the code first. */
  function Sizes(opType: nat): seq<nat> {
    if opType == DEPOSIT then DEPOSIT_SIZES
    else if opType == TRANSFER_TO_NEW then TRANSFER_TO_NEW_SIZES
    else if opType == WITHDRAW then WITHDRAW_SIZES
    else if opType == CLOSE then CLOSE_SIZES
    else if opType == TRANSFER then TRANSFER_SIZES
    else if opType == FULL_EXIT then FULL_EXIT_SIZES
    else if opType == CHANGE_PUBKEY then CHANGE_PUBKEY_SIZES
    else if opType == FORCED_EXIT then FORCED_EXIT_SIZES
    else []
  }

  /** Where an operation has its packed amount and its packed fee; zero if it has none. */
  function AmountIndex(opType: nat): (i: nat)
    ensures i == 0 || i < |Sizes(opType)|
  {
    if opType == TRANSFER_TO_NEW then 3 else if opType == TRANSFER then 4 else 0
  }

  function FeeIndex(opType: nat): (i: nat)
    ensures i == 0 || i < |Sizes(opType)|
  {
    if opType == TRANSFER_TO_NEW || opType == CHANGE_PUBKEY then 6
    else if opType == TRANSFER || opType == FORCED_EXIT then 5
    else if opType == WITHDRAW then 4
    else 0
  }

  function AmountOf(opType: nat, p: seq<seq<byte>>): Option<nat>
    requires |p| == |Sizes(opType)|
  {
    if AmountIndex(opType) == 0 then Some(0) else UnpackAmount(p[AmountIndex(opType)])
  }

  function FeeOf(opType: nat, p: seq<seq<byte>>): Option<nat>
    requires |p| == |Sizes(opType)|
  {
    if FeeIndex(opType) == 0 then Some(0) else UnpackFee(p[FeeIndex(opType)])
  }

  /** An amount or fee that does not unpack is an error. */
  function ReadFields(opType: nat, p: seq<seq<byte>>): Option<ZkSyncOp>
    requires |p| == |Sizes(opType)| && opType != NOOP && opType < TX_TYPES
  {
    if AmountOf(opType, p).None? || FeeOf(opType, p).None? then None
    else
      var amount, fee := AmountOf(opType, p).value, FeeOf(opType, p).value;
      if opType == DEPOSIT then Some(DepositOp(Number(p[1]), Number(p[2]), Number(p[3]), Number(p[4])))
      else if opType == TRANSFER_TO_NEW then
        Some(TransferToNewOp(Number(p[1]), Number(p[2]), amount, Number(p[4]), Number(p[5]), fee))
      else if opType == WITHDRAW then Some(WithdrawOp(Number(p[1]), Number(p[2]), Number(p[3]), fee, Number(p[5])))
      else if opType == CLOSE then Some(CloseOp(Number(p[1])))
      else if opType == TRANSFER then Some(TransferOp(Number(p[1]), Number(p[2]), Number(p[3]), amount, fee))
      else if opType == FULL_EXIT then Some(FullExitOp(Number(p[1]), Number(p[2]), Number(p[3]), Number(p[4])))
      else if opType == CHANGE_PUBKEY then
        Some(ChangePubKeyOp(Number(p[1]), Number(p[2]), Number(p[3]), Number(p[4]), Number(p[5]), fee))
      else Some(ForcedExitOp(Number(p[1]), Number(p[2]), Number(p[3]), Number(p[4]), fee, Number(p[6])))
  }

  /** `from_public_data` of each operation. Only the key change accepts data of another length, if it
      is long enough. */
  function FromPublicData(bytes: seq<byte>): Option<ZkSyncOp> {
    if bytes == [] || bytes[0] >= TX_TYPES then None
    else
      var opType := bytes[0];
      if opType == NOOP then
        if bytes == seq(CHUNK_BYTES, _ => 0) then Some(NoopOp) else None
      else if opType != CHANGE_PUBKEY && |bytes| != Chunks(opType) * CHUNK_BYTES then None
      else if |bytes| < Sum(Sizes(opType)) then None
      else ReadFields(opType, Cut(bytes, Sizes(opType)))
  }

  function Prepend(ops: seq<ZkSyncOp>, rest: Outcome): Outcome {
    if rest.Parsed? then Parsed(ops + rest.ops) else rest
  }

  /** The whole stream, operation by operation. */
  function Parse(data: seq<byte>): Outcome
    decreases |data|
  {
    if data == [] then Parsed([])
    else
      var size := PublicDataLength(data[0]);
      if size.None? then WrongData
      else if size.value > |data| then OutOfRange
      else
        var op := FromPublicData(data[..size.value]);
        if op.None? then WrongData else Prepend([op.value], Parse(data[size.value..]))
  }

  /** `get_rollup_ops_from_data` */
  method GetRollupOpsFromData(data: seq<byte>) returns (r: Outcome)
    ensures r == Parse(data)
  {
    hide FromPublicData;
    var currentPointer, ops := 0, [];
    assert data[0..] == data;
    while currentPointer < |data|
      invariant currentPointer <= |data|
      invariant Prepend(ops, Parse(data[currentPointer..])) == Parse(data)
    {
      ghost var rest := data[currentPointer..];
      var pubDataSize := PublicDataLength(data[currentPointer]);
      if pubDataSize.None? {
        return WrongData;
      }
      var pre, post := currentPointer, currentPointer + pubDataSize.value;
      if post > |data| {
        return OutOfRange;
      }
      assert data[pre..post] == rest[..pubDataSize.value] && data[post..] == rest[pubDataSize.value..];
      var op := FromPublicData(data[pre..post]);
      if op.None? {
        return WrongData;
      }
      PrependTwice(ops, op.value, Parse(data[post..]));
      ops := ops + [op.value];
      currentPointer := post;
    }
    r := Parsed(ops);
  }

  lemma {:induction false} PrependTwice(ops: seq<ZkSyncOp>, op: ZkSyncOp, rest: Outcome)
    ensures Prepend(ops, Prepend([op], rest)) == Prepend(ops + [op], rest)
  {
    if rest.Parsed? {
      assert ops + ([op] + rest.ops) == ops + [op] + rest.ops;
    }
  }

  // ----- reading back one field

  lemma {:induction false} BytesConcat(a: seq<bool>, b: seq<bool>)
    requires |a| % 8 == 0 && |b| % 8 == 0
    ensures Bytes(a + b) == Bytes(a) + Bytes(b)
    decreases |a|
  {
    hide OneByte;
    if a == [] {
      assert a + b == b;
    } else {
      BytesConcat(a[8..], b);
      assert (a + b)[..8] == a[..8] && (a + b)[8..] == a[8..] + b;
      var first, rest := [OneByte(a[..8])], Bytes(a[8..]);
      assert Bytes(a) == first + rest && Bytes(a + b) == first + Bytes(a[8..] + b);
      hide Bytes;
      assert first + (rest + Bytes(b)) == first + rest + Bytes(b);
    }
  }

  lemma {:induction false} NumberOfBytes(n: nat, width: nat)
    requires width % 8 == 0 && n < Pow2(width)
    ensures Number(Bytes(BitsBE(n, width))) == n
  {
    BytesKeepBits(BitsBE(n, width));
    FromBEOfBits(n, width);
  }

  /** The server unpacks a published amount to what the circuit used. */
  lemma {:induction false} AmountRoundTrip(packed: nat, mantissaLength: nat)
    requires (5 + mantissaLength) % 8 == 0 && packed < Pow2(mantissaLength + 5) && Witness.Unpack(packed) < U128_LIMIT
    ensures Unpacked(Bytes(BitsBE(packed, mantissaLength + 5)), 5, mantissaLength) == Some(Witness.Unpack(packed))
  {
    var m, e := packed / 32, packed % 32;
    assert Pow2(5) == 32;
    Pow2Add(mantissaLength, 5);
    SplitBits(packed, mantissaLength, 5);
    QuotientAtMost(packed, 32, MaxMantissa(mantissaLength));
    assert Quotient(packed, 32) == m;
    ReversedFloat(e, m, 5, mantissaLength);
    DecodeEncode(e, m, 5, mantissaLength);
    SmallPower(e);
  }

  lemma {:induction false} SmallPower(e: nat)
    requires e < 32
    ensures Pow10(e) < U128_LIMIT
  {
    PowersAround128();
    Pow10Monotonic(e, 38);
  }

  // ----- reading back one operation

  /** The slices hold the published fields. */
  predicate Holds(p: seq<seq<byte>>, fs: seq<Field>) {
    |p| == |fs| && forall i :: 0 <= i < |fs| ==> fs[i].width % 8 == 0 && p[i] == Bytes(BitsBE(fs[i].value, fs[i].width))
  }

  predicate SizesFit(fs: seq<Field>, sizes: seq<nat>) {
    |sizes| == |fs| && forall i :: 0 <= i < |fs| ==> fs[i].width == 8 * sizes[i]
  }

  /** Every field of a list is a slice of its bytes. */
  lemma {:induction false} CutFields(fs: seq<Field>, bits: seq<bool>, z: seq<bool>, sizes: seq<nat>)
    requires SizesFit(fs, sizes) && bits == Encode(fs) + z && |bits| % 8 == 0 && |z| % 8 == 0
    ensures Sum(sizes) <= |bits| / 8 && Holds(Cut(Bytes(bits), sizes), fs)
    decreases |fs|
  {
    hide BitsBE, Bytes, Holds;
    if fs == [] {
      NothingHolds();
    } else {
      var w, first, tail := fs[0].width, BitsBE(fs[0].value, fs[0].width), Encode(fs[1..]) + z;
      assert bits == first + tail;
      SumIsEven(fs[1..], sizes[1..]);
      CutFields(fs[1..], tail, z, sizes[1..]);
      BytesConcat(first, tail);
      HoldsOneMore(fs, Bytes(first), Cut(Bytes(tail), sizes[1..]));
      CutOneMore(Bytes(first), Bytes(tail), sizes);
    }
  }

  lemma {:induction false} NothingHolds()
    ensures Holds([], [])
  {
  }

  lemma {:induction false} HoldsOneMore(fs: seq<Field>, first: seq<byte>, rest: seq<seq<byte>>)
    requires fs != [] && fs[0].width % 8 == 0 && first == Bytes(BitsBE(fs[0].value, fs[0].width)) && Holds(rest, fs[1..])
    ensures Holds([first] + rest, fs)
  {
    hide Bytes, BitsBE;
    var p := [first] + rest;
    forall i | 0 <= i < |fs|
      ensures fs[i].width % 8 == 0 && p[i] == Bytes(BitsBE(fs[i].value, fs[i].width))
    {
      if i > 0 {
        assert fs[i] == fs[1..][i - 1] && p[i] == rest[i - 1];
      }
    }
  }

  lemma {:induction false} CutOneMore(first: seq<byte>, tail: seq<byte>, sizes: seq<nat>)
    requires sizes != [] && |first| == sizes[0] && Sum(sizes[1..]) <= |tail|
    ensures Sum(sizes) <= |first + tail| && Cut(first + tail, sizes) == [first] + Cut(tail, sizes[1..])
  {
    assert (first + tail)[..sizes[0]] == first && (first + tail)[sizes[0]..] == tail;
  }

  lemma {:induction false} FieldSizes(op: Operation)
    requires IsGadget(op.txType) && op.txType != NOOP
    ensures SizesFit(PubdataFields(op.txType, op), Sizes(op.txType))
    ensures PubdataFields(op.txType, op)[0] == F(op.txType, TX_TYPE_WIDTH) && Sizes(op.txType)[0] == 1
  {
    hide Width;
  }

  /** What an operation says, amounts in full. */
  function Meaning(tx: T.Tx): ZkSyncOp {
    match tx
    case Noop => NoopOp
    case Deposit(account, token, amount, address) => DepositOp(account, token, amount, address)
    case TransferToNew(from, token, amount, toAddress, to, fee) =>
      TransferToNewOp(from, token, Witness.Unpack(amount), toAddress, to, Witness.Unpack(fee))
    case Withdraw(account, token, amount, fee, ethAddress) =>
      WithdrawOp(account, token, amount, Witness.Unpack(fee), ethAddress)
    case Transfer(from, token, to, amount, fee) => TransferOp(from, token, to, Witness.Unpack(amount), Witness.Unpack(fee))
    case FullExit(account, ethAddress, token, amount) => FullExitOp(account, ethAddress, token, amount)
    case ChangePubKey(account, key, address, nonce, token, fee) =>
      ChangePubKeyOp(account, key, address, nonce, token, Witness.Unpack(fee))
    case ForcedExit(initiator, target, token, amount, fee, ethAddress) =>
      ForcedExitOp(initiator, target, token, amount, Witness.Unpack(fee), ethAddress)
  }

  function Meanings(txs: seq<T.Tx>): seq<ZkSyncOp> {
    if txs == [] then [] else [Meaning(txs[0])] + Meanings(txs[1..])
  }

  lemma {:induction false} FieldNumbers(op: Operation, p: seq<seq<byte>>)
    requires Allocated(op) && IsGadget(op.txType) && op.txType != NOOP
    requires Holds(p, PubdataFields(op.txType, op))
    ensures |p| == |Sizes(op.txType)|
    ensures forall i :: 0 <= i < |p| ==> Number(p[i]) == PubdataFields(op.txType, op)[i].value
  {
    var fs := PubdataFields(op.txType, op);
    FieldsFit(op.txType, op);
    FieldSizes(op);
    hide PubdataFields, Number;
    forall i | 0 <= i < |fs|
      ensures Number(p[i]) == fs[i].value
    {
      NumberOfBytes(fs[i].value, fs[i].width);
    }
  }

  lemma {:induction false} FieldPlaces(op: Operation)
    requires IsGadget(op.txType) && op.txType != NOOP
    ensures |PubdataFields(op.txType, op)| == |Sizes(op.txType)|
    ensures var fs, i := PubdataFields(op.txType, op), AmountIndex(op.txType);
            i != 0 ==> fs[i] == F(op.args.amountPacked, AMOUNT_WIDTH)
    ensures var fs, i := PubdataFields(op.txType, op), FeeIndex(op.txType);
            i != 0 ==> fs[i] == F(op.args.feePacked, FEE_WIDTH)
  {
    hide Width;
  }

  lemma {:induction false} FieldUnpacks(p: seq<seq<byte>>, fs: seq<Field>, i: nat, packed: nat, mantissaLength: nat)
    requires Holds(p, fs) && i < |fs| && fs[i] == F(packed, mantissaLength + 5)
    requires packed < Pow2(mantissaLength + 5) && Witness.Unpack(packed) < U128_LIMIT
    ensures Unpacked(p[i], 5, mantissaLength) == Some(Witness.Unpack(packed))
  {
    AmountRoundTrip(packed, mantissaLength);
    hide Unpacked, Bytes, BitsBE, Witness.Unpack, Pow2;
  }

  lemma {:induction false} FieldAmounts(op: Operation, p: seq<seq<byte>>)
    requires Allocated(op) && IsGadget(op.txType) && op.txType != NOOP
    requires Holds(p, PubdataFields(op.txType, op)) && |p| == |Sizes(op.txType)|
    ensures AmountOf(op.txType, p) == Some(if AmountIndex(op.txType) == 0 then 0 else op.args.Amount())
    ensures FeeOf(op.txType, p) == Some(if FeeIndex(op.txType) == 0 then 0 else op.args.Fee())
  {
    hide PartsAllocated, Pow2, Unpacked, Witness.Unpack;
    FieldPlaces(op);
    Widths();
    assert ArgsAllocated(op.args);
    hide Allocated, PubdataFields, AmountIndex, FeeIndex, Sizes, Holds;
    var fs := PubdataFields(op.txType, op);
    if AmountIndex(op.txType) != 0 {
      FieldUnpacks(p, fs, AmountIndex(op.txType), op.args.amountPacked, 35);
    }
    if FeeIndex(op.txType) != 0 {
      FieldUnpacks(p, fs, FeeIndex(op.txType), op.args.feePacked, 11);
    }
  }

  /** Reading the fields of a first chunk gives its transaction. */
  lemma {:induction false} FieldsMean(op: Operation, p: seq<seq<byte>>)
    requires Allocated(op) && First(op) && IsGadget(op.txType) && op.txType != NOOP
    requires Holds(p, PubdataFields(op.txType, op)) && |p| == |Sizes(op.txType)|
    ensures ReadFields(op.txType, p) == Some(Meaning(T.TxOf(op)))
  {
    FieldNumbers(op, p);
    FieldAmounts(op, p);
    hide *;
    ValuesMean(op, p);
  }

  lemma {:induction false} ValuesMean(op: Operation, p: seq<seq<byte>>)
    requires First(op) && IsGadget(op.txType) && op.txType != NOOP && |p| == |Sizes(op.txType)|
    requires |p| == |PubdataFields(op.txType, op)|
    requires forall i :: 0 <= i < |p| ==> Number(p[i]) == PubdataFields(op.txType, op)[i].value
    requires AmountOf(op.txType, p) == Some(if AmountIndex(op.txType) == 0 then 0 else op.args.Amount())
    requires FeeOf(op.txType, p) == Some(if FeeIndex(op.txType) == 0 then 0 else op.args.Fee())
    ensures ReadFields(op.txType, p) == Some(Meaning(T.TxOf(op)))
  {
    hide Number, Witness.Unpack, AmountOf, FeeOf, Width;
    var fs, t := PubdataFields(op.txType, op), op.txType;
    if t == DEPOSIT {
      assert Number(p[4]) == fs[4].value;
    } else if t == TRANSFER_TO_NEW {
      assert Number(p[5]) == fs[5].value;
    } else if t == WITHDRAW {
      assert Number(p[5]) == fs[5].value;
    } else if t == TRANSFER {
      assert Number(p[3]) == fs[3].value;
    } else if t == FULL_EXIT {
      assert Number(p[4]) == fs[4].value;
    } else if t == CHANGE_PUBKEY {
      assert Number(p[5]) == fs[5].value;
    } else {
      assert Number(p[6]) == fs[6].value;
    }
  }

  lemma {:induction false} ZeroBytes(n: nat)
    ensures Bytes(seq(8 * n, _ => false)) == seq(n, _ => 0)
  {
    var bits := seq(8 * n, _ => false);
    if n > 0 {
      ZeroBytes(n - 1);
      assert bits[8..] == seq(8 * (n - 1), _ => false);
      ZeroBits(8);
      assert bits[..8] == BitsLE(0, 8);
      NoBits(8);
      assert bits[..8] == seq(8, _ => false);
    }
  }

  lemma {:induction false} NoBits(n: nat)
    ensures FromBE(seq(n, _ => false)) == 0
  {
    if n > 0 {
      NoBits(n - 1);
      assert seq(n, _ => false)[..n - 1] == seq(n - 1, _ => false);
    }
  }

  /** The published bytes of an operation. */
  function DataOf(op: Operation): (data: seq<byte>)
    ensures |data| == Chunks(op.txType) * CHUNK_BYTES
  {
    Bytes(Pubdata(op.txType, op))
  }

  predicate ReadBack(op: Operation) {
    && DataOf(op)[0] == op.txType
    && FromPublicData(DataOf(op)) == Some(Meaning(T.TxOf(op)))
  }

  /** The data of one operation is read back as that operation. */
  lemma {:induction false} OperationRoundTrip(op: Operation)
    requires Allocated(op) && First(op) && IsGadget(op.txType)
    ensures ReadBack(op)
  {
    if op.txType == NOOP {
      NoopData(op);
      ZeroBytes(9);
      NoopMeans(op);
    } else {
      FieldSizes(op);
      CutData(op);
      hide *;
      CutMeans(op, DataOf(op), Sizes(op.txType));
    }
  }

  lemma {:induction false} CutData(op: Operation)
    requires IsGadget(op.txType) && op.txType != NOOP
    ensures Sum(Sizes(op.txType)) <= |DataOf(op)|
    ensures Holds(Cut(DataOf(op), Sizes(op.txType)), PubdataFields(op.txType, op))
  {
    hide Bytes, BitsBE;
    FieldSizes(op);
    var fs, sizes := PubdataFields(op.txType, op), Sizes(op.txType);
    var z := seq(Chunks(op.txType) * CHUNK_WIDTH - |Encode(fs)|, _ => false);
    assert Pubdata(op.txType, op) == Encode(fs) + z;
    hide PubdataFields, Sizes, Pubdata, Encode, Width, Chunks, Holds, SizesFit;
    SumIsEven(fs, sizes);
    CutFields(fs, Encode(fs) + z, z, sizes);
  }

  lemma {:induction false} CutMeans(op: Operation, data: seq<byte>, sizes: seq<nat>)
    requires Allocated(op) && First(op) && IsGadget(op.txType) && op.txType != NOOP
    requires sizes == Sizes(op.txType) && |data| == Chunks(op.txType) * CHUNK_BYTES && Sum(sizes) <= |data|
    requires Holds(Cut(data, sizes), PubdataFields(op.txType, op))
    ensures data != [] && data[0] == op.txType && FromPublicData(data) == Some(Meaning(T.TxOf(op)))
  {
    FieldSizes(op);
    FieldsMean(op, Cut(data, sizes));
    hide PubdataFields, Allocated, ReadFields, T.TxOf, Meaning, BitsBE, Number, Bytes, Sizes;
    FirstByte(op, data, sizes);
  }

  lemma {:induction false} NoopMeans(op: Operation)
    requires op.txType == NOOP
    ensures Meaning(T.TxOf(op)) == NoopOp
  {
  }

  lemma {:induction false} SumIsEven(fs: seq<Field>, sizes: seq<nat>)
    requires SizesFit(fs, sizes)
    ensures Width(fs) % 8 == 0
  {
    if fs != [] {
      SumIsEven(fs[1..], sizes[1..]);
    }
  }

  lemma {:induction false} FirstByte(op: Operation, data: seq<byte>, sizes: seq<nat>)
    requires op.txType < 256 && sizes != [] && sizes[0] == 1 && Sum(sizes) <= |data|
    requires Cut(data, sizes)[0] == Bytes(BitsBE(op.txType, 8))
    ensures data != [] && data[0] == op.txType
  {
    assert Cut(data, sizes)[0] == data[..1];
    hide *;
    ByteRoundTrip(op.txType);
  }

  lemma {:induction false} ByteRoundTrip(b: nat)
    requires b < 256
    ensures Bytes(BitsBE(b, 8)) == [b]
  {
    var bits := BitsBE(b, 8);
    assert Pow2(8) == 256;
    FromBEOfBits(b, 8);
    hide BitsBE, FromBE;
    assert bits[..8] == bits && bits[8..] == [];
    assert Bytes(bits) == [OneByte(bits)] + Bytes([]);
  }

  // ----- reading back a block

  lemma {:induction false} PublishedDataParses(ops: seq<Operation>)
    requires IsBlock(ops) && forall i :: 0 <= i < |ops| ==> Allocated(ops[i])
    ensures |PublishedBy(ops)| % 8 == 0
    ensures Parse(Bytes(PublishedBy(ops))) == Parsed(Meanings(T.TxsOf(ops)))
    decreases |ops|
  {
    if ops != [] {
      hide Pubdata, Bytes, FromPublicData, Allocated, T.TxOf, Meaning, IsOperation;
      var t, n := ops[0].txType, Chunks(ops[0].txType);
      BlockHead(ops);
      PublishedDataParses(ops[n..]);
      FirstOfOperation(ops[..n]);
      OperationRoundTrip(ops[0]);
      var head, rest := Pubdata(t, ops[0]), PublishedBy(ops[n..]);
      assert Bytes(head) == DataOf(ops[0]) && ReadBack(ops[0]);
      assert |head| == 9 * n * 8;
      BytesConcat(head, rest);
      var data := Bytes(head + rest);
      assert data[..|Bytes(head)|] == Bytes(head) && data[|Bytes(head)|..] == Bytes(rest);
      assert PublishedBy(ops) == head + rest;
      ParseHead(data, |Bytes(head)|, Meaning(T.TxOf(ops[0])), Meanings(T.TxsOf(ops[n..])));
      MeaningsHead(ops);
    }
  }

  lemma {:induction false} FirstOfOperation(ops: seq<Operation>)
    requires IsOperation(ops)
    ensures First(ops[0]) && IsGadget(ops[0].txType)
  {
  }

  lemma {:induction false} ParseHead(data: seq<byte>, n: nat, op: ZkSyncOp, rest: seq<ZkSyncOp>)
    requires data != [] && PublicDataLength(data[0]) == Some(n) && n <= |data|
    requires FromPublicData(data[..n]) == Some(op) && Parse(data[n..]) == Parsed(rest)
    ensures Parse(data) == Parsed([op] + rest)
  {
    hide FromPublicData;
  }

  lemma {:induction false} MeaningsHead(ops: seq<Operation>)
    requires ops != [] && Chunks(ops[0].txType) <= |ops|
    ensures Meanings(T.TxsOf(ops)) == [Meaning(T.TxOf(ops[0]))] + Meanings(T.TxsOf(ops[Chunks(ops[0].txType)..]))
  {
    hide T.TxOf, Meaning;
    var txs := T.TxsOf(ops);
    assert txs[0] == T.TxOf(ops[0]) && txs[1..] == T.TxsOf(ops[Chunks(ops[0].txType)..]);
  }

  /** Publication round trip. The published bits of an accepted block are whole bytes; the parser reads
      them to the end without an error or a slice out of range, and finds exactly the block's
      transactions, in order, with their amounts in full. */
  lemma {:induction false} PublicationRoundTrip(block: Block, commitment: Commitment, ledger: Accounts)
    requires BlockAccepted(block, commitment) && |block.ops| < 0x1_0000_0000_0000_0000
    requires Good(ledger) && block.oldRoot == FullRoot(LedgerRoot(ledger))
    ensures |commitment.pubdata| % 8 == 0
    ensures Parse(Bytes(commitment.pubdata)) == Parsed(Meanings(T.TxsOf(block.ops)))
  {
    hide Accepts, Next, LedgerRoot, Good, FullRoot, FeesCredited, Allocated, NewRoot, PublishedBy, Bytes, Parse, IsBlock, LedgerAfter, T.CanExecuteAll, T.TxsOf;
    AcceptedBlockIsWellFormed(block, commitment);
    RunAllocated(Initial(block.initialSubroot), block.ops);
    LedgerSoundness(block, commitment, ledger);
    PublishedDataParses(block.ops);
  }
}
