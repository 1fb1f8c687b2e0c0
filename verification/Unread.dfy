/** Arguments that nobody reads: an accepted block stays accepted, with the same commitment, whatever the
    arguments hold that the gadget of an operation does not look at. */
module Unread {
  import opened Bits
  import opened Common
  import opened Params
  import opened PrimeField
  import opened Witness
  import opened Gadgets
  import opened BlockSpec
  import opened Grammar
  import opened Ledger
  import opened Transactions
  import opened Execution
  import opened Soundness
  import opened Messages
  import opened Acceptance
  import opened Blocks

  /** The same values in all the arguments that an operation of this type reads. */
  predicate ReadAlike(t: nat, x: Args, y: Args) {
    && x.Fee() == y.Fee()
    && (t in {TRANSFER, TRANSFER_TO_NEW, WITHDRAW, CHANGE_PUBKEY, FORCED_EXIT} ==> x.a == y.a && x.b == y.b && x.feePacked == y.feePacked)
    && (t == DEPOSIT ==> x.a == y.a)
    && (t in {TRANSFER, TRANSFER_TO_NEW} ==> x.amountPacked == y.amountPacked)
    && (t in {DEPOSIT, WITHDRAW, FULL_EXIT, FORCED_EXIT} ==> x.fullAmount == y.fullAmount)
    && (t in {DEPOSIT, TRANSFER_TO_NEW, WITHDRAW, FULL_EXIT, CHANGE_PUBKEY, FORCED_EXIT} ==> x.ethAddress == y.ethAddress)
    && (t == CHANGE_PUBKEY ==> x.newPubKeyHash == y.newPubKeyHash && x.pubNonce == y.pubNonce)
  }

  /** The constraints on all arguments hold, and what is read is the same. */
  predicate Instead(t: nat, x: Args, y: Args) {
    ArgsAllocated(y) && y.b <= y.a && ReadAlike(t, x, y)
  }

  // ----- one chunk

  /** Nothing that is published, signed or told depends on the rest. */
  lemma {:induction false} FieldsAlike(op: Operation, y: Args)
    requires ReadAlike(op.txType, op.args, y) && IsGadget(op.txType)
    ensures PubdataFields(op.txType, op.(args := y)) == PubdataFields(op.txType, op)
    ensures MessageFields(op.txType, op.(args := y)) == MessageFields(op.txType, op)
    ensures TxOf(op.(args := y)) == TxOf(op)
  {
    hide Width, Unpack;
  }

  lemma {:induction false} SamePubdata(op: Operation, y: Args)
    requires PubdataFields(op.txType, op.(args := y)) == PubdataFields(op.txType, op)
    ensures Pubdata(op.txType, op.(args := y)) == Pubdata(op.txType, op)
  {
    hide PubdataFields, Encode, Resize;
  }

  lemma {:induction false} SameMessage(op: Operation, y: Args)
    requires MessageFields(op.txType, op.(args := y)) == MessageFields(op.txType, op)
    ensures MessageSigned(op.txType, op.(args := y)) == MessageSigned(op.txType, op)
  {
    hide MessageFields, Encode, MessageParts;
  }

  lemma {:induction false} SameChunk(op: Operation, y: Args, holder: seq<nat>)
    requires Pubdata(op.txType, op.(args := y)) == Pubdata(op.txType, op)
    ensures PublishedAs(op.txType, op.(args := y), holder) == PublishedAs(op.txType, op, holder)
    ensures ChunkPublished(op.txType, op.(args := y)) == ChunkPublished(op.txType, op)
  {
    hide Pubdata, PubdataChunk, MultiPack;
  }

  lemma {:induction false} PublishedAlike(op: Operation, y: Args, holder: seq<nat>)
    requires ReadAlike(op.txType, op.args, y) && IsGadget(op.txType)
    ensures Pubdata(op.txType, op.(args := y)) == Pubdata(op.txType, op)
    ensures PublishedAs(op.txType, op.(args := y), holder) == PublishedAs(op.txType, op, holder)
    ensures ChunkPublished(op.txType, op.(args := y)) == ChunkPublished(op.txType, op)
    ensures MessageSigned(op.txType, op.(args := y)) == MessageSigned(op.txType, op)
  {
    hide *;
    FieldsAlike(op, y);
    SamePubdata(op, y);
    SameMessage(op, y);
    SameChunk(op, y, holder);
  }

  /** The gadget gives the same verdict and leaves the same branch. */
  predicate SameVerdict(op: Operation, y: Args, cur: Branch, holder: seq<nat>) {
    && Gadgets.Valid(op.(args := y), cur, holder) == Gadgets.Valid(op, cur, holder)
    && Update(op.(args := y), cur, holder) == Update(op, cur, holder)
  }

  lemma {:induction false} TransferAlike(op: Operation, y: Args, cur: Branch, holder: seq<nat>)
    requires Instead(op.txType, op.args, y) && op.txType == TRANSFER
    ensures SameVerdict(op, y, cur, holder)
  {
    hide PublishedAs, MessageSigned, Unpack, ChunkPublished, Pubdata, PubdataChunk, Encode, FSub, FAdd;
    PublishedAlike(op, y, holder);
  }

  lemma {:induction false} TransferToNewAlike(op: Operation, y: Args, cur: Branch, holder: seq<nat>)
    requires Instead(op.txType, op.args, y) && op.txType == TRANSFER_TO_NEW
    ensures SameVerdict(op, y, cur, holder)
  {
    hide PublishedAs, MessageSigned, Unpack, ChunkPublished, Pubdata, PubdataChunk, Encode, FSub, FAdd;
    PublishedAlike(op, y, holder);
  }

  lemma {:induction false} WithdrawAlike(op: Operation, y: Args, cur: Branch, holder: seq<nat>)
    requires Instead(op.txType, op.args, y) && op.txType == WITHDRAW
    ensures SameVerdict(op, y, cur, holder)
  {
    hide PublishedAs, MessageSigned, Unpack, ChunkPublished, Pubdata, PubdataChunk, Encode, FSub, FAdd;
    PublishedAlike(op, y, holder);
  }

  lemma {:induction false} FullExitAlike(op: Operation, y: Args, cur: Branch, holder: seq<nat>)
    requires Instead(op.txType, op.args, y) && op.txType == FULL_EXIT
    ensures SameVerdict(op, y, cur, holder)
  {
    hide PublishedAs, MessageSigned, Unpack, ChunkPublished, Pubdata, PubdataChunk, Encode, FSub, FAdd;
    PublishedAlike(op, y, holder);
  }

  lemma {:induction false} ForcedExitAlike(op: Operation, y: Args, cur: Branch, holder: seq<nat>)
    requires Instead(op.txType, op.args, y) && op.txType == FORCED_EXIT
    ensures SameVerdict(op, y, cur, holder)
  {
    hide PublishedAs, MessageSigned, Unpack, ChunkPublished, Pubdata, PubdataChunk, Encode, FSub, FAdd;
    PublishedAlike(op, y, holder);
  }

  lemma {:induction false} DepositAlike(op: Operation, y: Args, cur: Branch, holder: seq<nat>)
    requires Instead(op.txType, op.args, y) && op.txType == DEPOSIT
    ensures SameVerdict(op, y, cur, holder)
  {
    hide PublishedAs, MessageSigned, Unpack, ChunkPublished, Pubdata, PubdataChunk, Encode, FSub, FAdd;
    PublishedAlike(op, y, holder);
  }

  lemma {:induction false} ChangePubKeyAlike(op: Operation, y: Args, cur: Branch, holder: seq<nat>)
    requires Instead(op.txType, op.args, y) && op.txType == CHANGE_PUBKEY
    ensures SameVerdict(op, y, cur, holder)
  {
    hide PublishedAs, MessageSigned, Unpack, ChunkPublished, Pubdata, PubdataChunk, Encode, FSub, FAdd;
    PublishedAlike(op, y, holder);
  }

  lemma {:induction false} NoopAlike(op: Operation, y: Args, cur: Branch, holder: seq<nat>)
    requires Instead(op.txType, op.args, y) && op.txType == NOOP
    ensures SameVerdict(op, y, cur, holder)
  {
    hide PublishedAs, MessageSigned, Unpack, ChunkPublished, Pubdata, PubdataChunk, Encode, FSub, FAdd;
    PublishedAlike(op, y, holder);
  }

  lemma {:induction false} VerdictAlike(op: Operation, y: Args, cur: Branch, holder: seq<nat>)
    requires Instead(op.txType, op.args, y) && IsGadget(op.txType)
    ensures SameVerdict(op, y, cur, holder)
  {
    hide Instead, SameVerdict;
    if op.txType == TRANSFER {
      TransferAlike(op, y, cur, holder);
    } else if op.txType == TRANSFER_TO_NEW {
      TransferToNewAlike(op, y, cur, holder);
    } else if op.txType == WITHDRAW {
      WithdrawAlike(op, y, cur, holder);
    } else if op.txType == FULL_EXIT {
      FullExitAlike(op, y, cur, holder);
    } else if op.txType == FORCED_EXIT {
      ForcedExitAlike(op, y, cur, holder);
    } else if op.txType == DEPOSIT {
      DepositAlike(op, y, cur, holder);
    } else if op.txType == CHANGE_PUBKEY {
      ChangePubKeyAlike(op, y, cur, holder);
    } else {
      NoopAlike(op, y, cur, holder);
    }
  }

  lemma {:induction false} SelectsAlike(op: Operation, y: Args)
    ensures Select(op.(args := y)) == Select(op)
  {
  }

  lemma {:induction false} OpensAlike(st: State, op: Operation, y: Args)
    requires Opens(st, op) && Instead(op.txType, op.args, y) && (First(op) || y.SameAs(st.prev))
    ensures Opens(st, op.(args := y))
  {
    hide BranchRoot, Unpack, PartsAllocated, FSub, ReadAlike, Geq;
    ArgumentsInOrder(y);
    SelectsAlike(op, y);
  }

  /** Every gadget: a chunk is accepted whatever its unread arguments are, as long as they stay the same inside
      the operation. */
  lemma {:induction false} UnreadIsFree(st: State, op: Operation, y: Args)
    requires Accepts(st, op) && Instead(op.txType, op.args, y) && (First(op) || y.SameAs(st.prev))
    ensures Accepts(st, op.(args := y)) && After(st, op.(args := y)) == After(st, op)
    ensures TxOf(op.(args := y)) == TxOf(op) && Pubdata(op.txType, op.(args := y)) == Pubdata(op.txType, op)
  {
    assert IsGadget(op.txType) && Opens(st, op);
    OpensAlike(st, op, y);
    SelectsAlike(op, y);
    VerdictAlike(op, y, Select(op), Holder(st, op.txType));
    FieldsAlike(op, y);
    PublishedAlike(op, y, []);
    hide Gadgets.Valid, Update, Opens, Instead, Holder, TxOf, Pubdata, Select;
  }

  /** The full amount of a transfer, whatever its packed amount is. */
  lemma {:induction false} TransferIgnoresFullAmount(st: State, op: Operation, amount: nat)
    requires Accepts(st, op) && First(op) && op.txType in {TRANSFER, TRANSFER_TO_NEW} && amount < U128_LIMIT
    ensures Accepts(st, op.(args := op.args.(fullAmount := amount)))
  {
    var y := op.args.(fullAmount := amount);
    assert Allocated(op) && Opens(st, op);
    hide Accepts, Unpack, FSub, PartsAllocated, BranchAllocated, BranchRoot;
    ArgumentsInOrder(op.args);
    assert Instead(op.txType, op.args, y);
    UnreadIsFree(st, op, y);
  }

  // ----- operations

  function WithArgs(ops: seq<Operation>, y: Args): (r: seq<Operation>)
    ensures |r| == |ops| && forall i :: 0 <= i < |r| ==> r[i] == ops[i].(args := y)
  {
    seq(|ops|, i requires 0 <= i < |ops| => ops[i].(args := y))
  }

  lemma {:induction false} FirstPresentsMeans(op: Operation, ledger: Accounts)
    requires Good(ledger) && FirstPresents(op, ledger)
    ensures IsGadget(op.txType) && FirstOk(TxOf(op), ledger)
    ensures Slot(op.lhs.accountId) < |ledger| && GoodAccount(ledger[Slot(op.lhs.accountId)])
    ensures ArgumentsRight(op.args, TxOf(op), ledger[Slot(op.lhs.accountId)]) && SignedRight(op, ledger[Slot(op.lhs.accountId)])
  {
    hide BranchRoot, Allocated, FirstOk, ArgumentsRight, SignedRight, PublishedRight, TxOf, GoodAccount, LedgerRoot;
  }

  lemma {:induction false} StillAllocated(op: Operation, y: Args)
    requires Allocated(op) && ArgsAllocated(y)
    ensures Allocated(op.(args := y))
  {
    hide ArgsAllocated, BranchAllocated, PartsAllocated;
  }

  /** What a first chunk shows besides does not depend on its arguments. */
  lemma {:induction false} RestPresents(op: Operation, y: Args, ledger: Accounts)
    requires Good(ledger) && FirstPresents(op, ledger) && ArgsAllocated(y) && TxOf(op.(args := y)) == TxOf(op)
    requires PublishedRight(op.(args := y)) == PublishedRight(op)
    requires ArgumentsRight(y, TxOf(op), ledger[Slot(op.lhs.accountId)]) && SignedRight(op.(args := y), ledger[Slot(op.lhs.accountId)])
    ensures FirstPresents(op.(args := y), ledger)
  {
    hide BranchRoot, Allocated, FirstOk, ArgumentsRight, SignedRight, PublishedRight, TxOf, GoodAccount, LedgerRoot, ArgsAllocated;
    StillAllocated(op, y);
  }

  lemma {:induction false} SamePublishedRight(op: Operation, y: Args)
    requires ChunkPublished(op.txType, op.(args := y)) == ChunkPublished(op.txType, op)
    ensures PublishedRight(op.(args := y)) == PublishedRight(op)
  {
    hide ChunkPublished;
  }

  lemma {:induction false} InsteadIs(t: nat, x: Args, y: Args)
    requires Instead(t, x, y)
    ensures ArgsAllocated(y) && ReadAlike(t, x, y)
  {
    hide ArgsAllocated, ReadAlike;
  }

  lemma {:induction false} FirstPresentsAlike(op: Operation, y: Args, ledger: Accounts)
    requires Good(ledger) && FirstPresents(op, ledger) && Instead(op.txType, op.args, y)
    ensures FirstPresents(op.(args := y), ledger)
  {
    hide *;
    FirstPresentsMeans(op, ledger);
    InsteadIs(op.txType, op.args, y);
    FieldsAlike(op, y);
    PublishedAlike(op, y, []);
    SamePublishedRight(op, y);
    FirstOkIff(op, ledger);
    SignedAlike(op, y, ledger[Slot(op.lhs.accountId)]);
    ArgumentsAlike(op, y, ledger[Slot(op.lhs.accountId)]);
    RestPresents(op, y, ledger);
  }

  lemma {:induction false} SignedAlike(op: Operation, y: Args, account: Account)
    requires SignedRight(op, account) && ReadAlike(op.txType, op.args, y) && IsGadget(op.txType)
    ensures SignedRight(op.(args := y), account)
  {
    PublishedAlike(op, y, []);
    hide MessageSigned, Unpack;
  }

  lemma {:induction false} ArgumentsAlike(op: Operation, y: Args, account: Account)
    requires GoodAccount(account) && GoodTx(TxOf(op)) && IsGadget(op.txType)
    requires ArgumentsRight(op.args, TxOf(op), account) && Instead(op.txType, op.args, y)
    ensures ArgumentsRight(y, TxOf(op), account)
  {
    hide Unpack;
  }

  lemma {:induction false} LaterPresentsAlike(op: Operation, first: Operation, y: Args, now: Accounts)
    requires Good(now) && LaterPresents(op, first, now) && IsGadget(first.txType)
    requires Instead(first.txType, first.args, y)
    ensures LaterPresents(op.(args := y), first.(args := y), now)
  {
    hide BranchRoot, Unpack, PartsAllocated, BranchAllocated, PubdataFields, ChunkPublished, GoodAccount, LedgerRoot, TxOf, Select;
    var q, f := op.(args := y), first.(args := y);
    LaterReadAlike(op, first, y, now);
    FieldsAlike(op, y);
    FieldsAlike(first, y);
    PublishedAlike(op, y, []);
    SelectsAlike(op, y);
  }

  /** The arguments of a later chunk are those of the first, except for the nonce that only a key change reads
      and publishes. */
  lemma {:induction false} LaterReadAlike(op: Operation, first: Operation, y: Args, now: Accounts)
    requires Good(now) && LaterPresents(op, first, now) && IsGadget(first.txType) && Instead(first.txType, first.args, y)
    ensures ReadAlike(op.txType, op.args, y) && op.txType == first.txType
  {
    if op.txType == CHANGE_PUBKEY {
      assert PubdataFields(op.txType, op)[4] == PubdataFields(op.txType, first)[4];
    }
    hide BranchRoot, Unpack, BranchAllocated, ArgsAllocated, PartsAllocated, ChunkPublished, LedgerRoot, Width;
  }

  lemma {:induction false} OperationAlike(ops: seq<Operation>, y: Args, ledger: Accounts)
    requires Good(ledger) && ops != [] && Presents(ops, ledger) && Instead(ops[0].txType, ops[0].args, y)
    ensures Presents(WithArgs(ops, y), ledger)
    ensures TxOf(WithArgs(ops, y)[0]) == TxOf(ops[0]) && Pubdata(ops[0].txType, WithArgs(ops, y)[0]) == Pubdata(ops[0].txType, ops[0])
  {
    hide *;
    PresentsMeans(ops, ledger, 0);
    FirstIsAllocated(ops[0], ledger);
    InsteadReads(ops[0].txType, ops[0].args, y);
    FieldsAlike(ops[0], y);
    PublishedAlike(ops[0], y, []);
    FirstPresentsAlike(ops[0], y, ledger);
    var qs := WithArgs(ops, y);
    forall k | 0 < k < |qs|
      ensures LaterAt(qs, ledger, k)
    {
      PresentsMeans(ops, ledger, k);
      LaterPresentsAlike(ops[k], ops[0], y, Reached(TxOf(ops[0]), ledger, k));
      LaterAtIs(qs, ledger, k);
    }
    PresentsIs(qs, ledger);
  }

  lemma {:induction false} InsteadReads(t: nat, x: Args, y: Args)
    requires Instead(t, x, y)
    ensures ReadAlike(t, x, y)
  {
  }

  // ----- whole blocks

  /** Other arguments for every operation. */
  predicate AllInstead(ops: seq<Operation>, ys: seq<Args>)
    decreases |ops|
  {
    if ops == [] then ys == []
    else
      var n := Chunks(ops[0].txType);
      n <= |ops| && ys != [] && Instead(ops[0].txType, ops[0].args, ys[0]) && AllInstead(ops[n..], ys[1..])
  }

  function Rewritten(ops: seq<Operation>, ys: seq<Args>): (r: seq<Operation>)
    requires AllInstead(ops, ys)
    ensures |r| == |ops|
    decreases |ops|
  {
    if ops == [] then []
    else
      var n := Chunks(ops[0].txType);
      WithArgs(ops[..n], ys[0]) + Rewritten(ops[n..], ys[1..])
  }

  lemma {:induction false} AllPresentAlike(ops: seq<Operation>, ys: seq<Args>, ledger: Accounts)
    requires Good(ledger) && PresentsAll(ops, ledger) && AllInstead(ops, ys)
    ensures var qs := Rewritten(ops, ys);
            PresentsAll(qs, ledger) && TxsOf(qs) == TxsOf(ops) && PublishedBy(qs) == PublishedBy(ops)
    decreases |ops|
  {
    if ops != [] {
      hide *;
      var n := Chunks(ops[0].txType);
      HeadOfPresented(ops, ledger);
      HeadOfRewritten(ops, ys);
      OperationAlike(ops[..n], ys[0], ledger);
      AllPresentAlike(ops[n..], ys[1..], Execute(TxOf(ops[0]), ledger));
      PutTogether(ops, WithArgs(ops[..n], ys[0]), Rewritten(ops[n..], ys[1..]), ledger);
    } else {
      hide GoodAccount;
    }
  }

  lemma {:induction false} HeadOfRewritten(ops: seq<Operation>, ys: seq<Args>)
    requires AllInstead(ops, ys) && ops != []
    ensures var n := Chunks(ops[0].txType);
            && n <= |ops| && ys != [] && Instead(ops[0].txType, ops[0].args, ys[0]) && AllInstead(ops[n..], ys[1..])
            && Rewritten(ops, ys) == WithArgs(ops[..n], ys[0]) + Rewritten(ops[n..], ys[1..])
            && |ops[n..]| < |ops|
  {
    hide Instead;
  }

  lemma {:induction false} PutTogether(ops: seq<Operation>, head: seq<Operation>, rest: seq<Operation>, ledger: Accounts)
    requires Good(ledger) && ops != [] && CanExecute(TxOf(ops[0]), ledger)
    requires var n := Chunks(ops[0].txType);
             && n <= |ops| && head != [] && |head| == n && head[0].txType == ops[0].txType && Presents(head, ledger)
             && TxOf(head[0]) == TxOf(ops[0]) && Pubdata(ops[0].txType, head[0]) == Pubdata(ops[0].txType, ops[0])
             && PresentsAll(rest, Execute(TxOf(ops[0]), ledger)) && TxsOf(rest) == TxsOf(ops[n..]) && PublishedBy(rest) == PublishedBy(ops[n..])
    ensures PresentsAll(head + rest, ledger) && TxsOf(head + rest) == TxsOf(ops) && PublishedBy(head + rest) == PublishedBy(ops)
  {
    hide Presents, TxOf, CanExecute, Execute, GoodAccount, Pubdata;
    var all, n := head + rest, |head|;
    assert all[..n] == head && all[n..] == rest && all[0] == head[0];
  }

  /** No accepted block depends on the arguments that its gadgets do not read: with any others it is accepted with
      the same commitment and runs the same operations. */
  lemma {:induction false} UnreadArgumentsAreFree(block: Block, commitment: Commitment, ledger: Accounts, ys: seq<Args>)
    requires BlockAccepted(block, commitment) && |block.ops| < 0x1_0000_0000_0000_0000
    requires Good(ledger) && block.oldRoot == FullRoot(LedgerRoot(ledger)) && AllInstead(block.ops, ys)
    ensures BlockAccepted(block.(ops := Rewritten(block.ops, ys)), commitment)
    ensures TxsOf(Rewritten(block.ops, ys)) == TxsOf(block.ops)
  {
    hide BlockAccepted, LedgerRoot, FullRoot, TxsOf, CanExecuteAll, GoodAccount, PublishedBy, ExecuteAll, CreditFees, ValidatorPresents,
      PresentsAll, AllInstead, Rewritten;
    BlockAcceptedIff(block, commitment, ledger);
    AllPresentAlike(block.ops, ys, ledger);
    BlockAcceptedIff(block.(ops := Rewritten(block.ops, ys)), commitment, ledger);
  }
}
