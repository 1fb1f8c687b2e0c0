/** The witness the prover builds for an operation: its arguments, and the branches it reads from its own
    account tree before, between and after the two halves of the operation. */
module Prover {
  import opened Bits
  import opened Common
  import opened Merkle
  import opened Params
  import opened PrimeField
  import opened Witness
  import opened Gadgets
  import opened BlockSpec
  import opened Ledger
  import opened Transactions
  import opened Execution
  import opened Messages
  import opened Acceptance
  import opened Amounts
  import FloatConversions

  /** The account ids and packed numbers fit their published widths. */
  predicate TxFits(tx: Tx) {
    && FirstAccount(tx) < 0x1_0000_0000
    && (TwoSided(tx) ==> SecondAccount(tx) < 0x1_0000_0000)
    && (tx.TransferToNew? || tx.Transfer? ==> tx.amountPacked < 0x100_0000_0000)
    && (tx.TransferToNew? || tx.Transfer? || tx.Withdraw? || tx.ChangePubKey? || tx.ForcedExit? ==> tx.feePacked < 0x1_0000)
    && (tx.Withdraw? || tx.FullExit? || tx.ForcedExit? ==> tx.ethAddress < ADDRESS_LIMIT)
    && (tx.ChangePubKey? ==> tx.nonce <= MAX_NONCE)
  }

  function Code(tx: Tx): (t: nat)
    ensures IsGadget(t)
  {
    match tx
    case Noop => NOOP
    case Deposit(_, _, _, _) => DEPOSIT
    case TransferToNew(_, _, _, _, _, _) => TRANSFER_TO_NEW
    case Withdraw(_, _, _, _, _) => WITHDRAW
    case Transfer(_, _, _, _, _) => TRANSFER
    case FullExit(_, _, _, _) => FULL_EXIT
    case ChangePubKey(_, _, _, _, _, _) => CHANGE_PUBKEY
    case ForcedExit(_, _, _, _, _, _) => FORCED_EXIT
  }

  // ----- branches

  /** The contents of an entry in one tree with the audit paths of the same entry in another. The levels
      above the used part are never looked at. */
  function ShownOf(contents: Accounts, tree: Accounts, id: nat, token: nat): (b: Branch)
    requires Good(contents) && Good(tree) && token < TOKENS
    ensures |b.accountPath| == ACCOUNT_TREE_DEPTH && |b.balancePath| == BALANCE_TREE_DEPTH
    ensures b.accountId == id && b.token == token && Shows(b, contents)
  {
    Sizes();
    var a := contents[Slot(id)];
    Branch(a.nonce, a.pubKeyHash, a.address, id,
           AuditPath(Leaves(tree), id, USED_SUBTREE_DEPTH) + Repeat(Raw(0), ACCOUNT_TREE_DEPTH - USED_SUBTREE_DEPTH),
           a.balances[token], token, AuditPath(BalanceLeaves(tree[Slot(id)].balances), token, BALANCE_TREE_DEPTH))
  }

  function Shown(ledger: Accounts, id: nat, token: nat): (b: Branch)
    requires Good(ledger) && token < TOKENS
    ensures |b.accountPath| == ACCOUNT_TREE_DEPTH && |b.balancePath| == BALANCE_TREE_DEPTH
    ensures b.accountId == id && b.token == token && Shows(b, ledger)
  {
    ShownOf(ledger, ledger, id, token)
  }

  lemma {:induction false} ShownLeaf(ledger: Accounts, id: nat, token: nat)
    requires Good(ledger) && token < TOKENS
    ensures BranchLeaf(Shown(ledger, id, token)) == Leaf(ledger[Slot(id)])
  {
    BalanceShown(ledger[Slot(id)].balances, token);
    hide Root, PathRoot, Pow2, AuditPath;
  }

  lemma {:induction false} ShownRoot(ledger: Accounts, id: nat, token: nat)
    requires Good(ledger) && token < TOKENS
    ensures BranchRoot(Shown(ledger, id, token), USED_SUBTREE_DEPTH) == LedgerRoot(ledger)
  {
    ShownLeaf(ledger, id, token);
    Sizes();
    var b, leaves := Shown(ledger, id, token), Leaves(ledger);
    var path := AuditPath(leaves, id, USED_SUBTREE_DEPTH);
    assert b.accountPath[..USED_SUBTREE_DEPTH] == path == path[..USED_SUBTREE_DEPTH];
    hide Root, PathRoot, Pow2, AuditPath, BranchLeaf, Leaf, Shown;
    AuditPathLeadsToRoot(leaves, id, USED_SUBTREE_DEPTH);
    PathRootPrefix(BranchLeaf(b), id, b.accountPath, path, USED_SUBTREE_DEPTH);
  }

  lemma {:induction false} ShownAllocated(contents: Accounts, tree: Accounts, id: nat, token: nat)
    requires Good(contents) && Good(tree) && token < TOKENS && id < 0x1_0000_0000
    ensures BranchAllocated(ShownOf(contents, tree, id, token))
  {
    hide AuditPath, ShownOf;
    assert GoodAccount(contents[Slot(id)]);
  }

  // ----- the witness

  /** The prover's tree before the operation, after its first half and after the whole of it. */
  datatype Trees = Trees(before: Accounts, mid: Accounts, after: Accounts)

  predicate GoodTrees(t: Trees) {
    Good(t.before) && Good(t.mid) && Good(t.after)
  }

  /** The arguments of an operation; `a` is its first account before the operation. */
  function ArgsFor(tx: Tx, a: Account): Args
    requires GoodAccount(a) && TokenOf(tx) < TOKENS
  {
    var balance := a.balances[TokenOf(tx)];
    match tx
    case Noop => NO_ARGS
    case Deposit(_, _, amount, address) => Args(amount, 0, 0, amount, 0, 0, address, 0)
    case TransferToNew(_, _, packed, toAddress, _, fee) => Args(balance, Spent(tx), packed, Unpack(packed), fee, 0, toAddress, 0)
    case Withdraw(_, _, amount, fee, ethAddress) =>
      Args(balance, Spent(tx), PackedNumber(amount, AMOUNT_MANTISSA), amount, fee, 0, ethAddress, 0)
    case Transfer(_, _, _, packed, fee) => Args(balance, Spent(tx), packed, Unpack(packed), fee, 0, 0, 0)
    case FullExit(_, ethAddress, _, amount) => Args(balance, 0, 0, amount, 0, 0, ethAddress, 0)
    case ChangePubKey(_, key, address, nonce, _, fee) => Args(balance, FeeOf(tx), 0, 0, fee, key, address, nonce)
    case ForcedExit(_, _, _, amount, fee, ethAddress) =>
      Args(balance, FeeOf(tx), PackedNumber(amount, AMOUNT_MANTISSA), amount, fee, 0, ethAddress, 0)
  }

  /** The left branch of chunk `k`. A no-op shows the account that collects the fees. */
  function Left(tx: Tx, t: Trees, feeAccount: nat, k: nat): Branch
    requires GoodTrees(t) && TokenOf(tx) < TOKENS
  {
    var token := TokenOf(tx);
    match tx
    case Noop => Shown(t.before, feeAccount, token)
    case ChangePubKey(account, _, _, _, _, _) => Shown(t.before, account, token)
    case _ =>
      if k == 0 then Shown(t.before, FirstAccount(tx), token)
      else if !TwoSided(tx) then Shown(t.after, FirstAccount(tx), token)
      else if k == 1 then Shown(t.mid, FirstAccount(tx), token)
      else ShownOf(t.mid, t.after, FirstAccount(tx), token)
  }

  function Right(tx: Tx, t: Trees, feeAccount: nat, k: nat): Branch
    requires GoodTrees(t) && TokenOf(tx) < TOKENS
  {
    var token := TokenOf(tx);
    match tx
    case Noop => Shown(t.before, feeAccount, token)
    case ChangePubKey(account, _, _, _, _, _) => Shown(t.after, account, token)
    case _ =>
      if TwoSided(tx) then
        if k == 0 then ShownOf(t.mid, t.before, SecondAccount(tx), token)
        else Shown(if k == 1 then t.mid else t.after, SecondAccount(tx), token)
      else Shown(if k == 0 then t.before else t.after, FirstAccount(tx), token)
  }

  /** A chunk before its published part and its signed message are filled in. Operations that nobody signs carry
      an empty signature, whose key does not matter. */
  function Draft(tx: Tx, t: Trees, feeAccount: nat, k: nat): Operation
    requires GoodTrees(t) && TokenOf(tx) < TOKENS
  {
    var a, signed := t.before[Slot(FirstAccount(tx))], Signed(Code(tx));
    var key := if !signed then 0 else if tx.ChangePubKey? then tx.newPubKeyHash else a.pubKeyHash;
    Operation(Code(tx), k, 0, 0, signed, key, [0, 0, 0], ArgsFor(tx, a), Left(tx, t, feeAccount, k), Right(tx, t, feeAccount, k))
  }

  function PartOf(gadget: nat, d: Operation): nat {
    PubdataChunk(Pubdata(gadget, d), d.chunk, d.pastEnd)
  }

  function SignedParts(gadget: nat, d: Operation): (parts: seq<nat>)
    ensures PartsAllocated(parts)
  {
    MessageParts(Encode(MessageFields(gadget, d)))
  }

  function MessageFor(tx: Tx, t: Trees, feeAccount: nat): (parts: seq<nat>)
    requires GoodTrees(t) && TokenOf(tx) < TOKENS
    ensures PartsAllocated(parts)
  {
    NoPartsFit();
    if Signed(Code(tx)) then SignedParts(Code(tx), Draft(tx, t, feeAccount, 0)) else [0, 0, 0]
  }

  lemma {:induction false} NoPartsFit()
    ensures PartsAllocated([0, 0, 0])
  {
  }

  function ChunkFor(tx: Tx, t: Trees, feeAccount: nat, k: nat): Operation
    requires GoodTrees(t) && TokenOf(tx) < TOKENS
  {
    var d := Draft(tx, t, feeAccount, k);
    d.(pubdataChunk := if tx.Noop? then 0 else PartOf(Code(tx), d), messageParts := MessageFor(tx, t, feeAccount))
  }

  /** The chunks of an operation. */
  function ChunksFor(tx: Tx, t: Trees, feeAccount: nat): (ops: seq<Operation>)
    requires GoodTrees(t) && TokenOf(tx) < TOKENS
    ensures |ops| == Chunks(Code(tx)) && forall k :: 0 <= k < |ops| ==> ops[k] == ChunkFor(tx, t, feeAccount, k)
  {
    seq(Chunks(Code(tx)), k requires 0 <= k => ChunkFor(tx, t, feeAccount, k))
  }

  function TreesOf(tx: Tx, ledger: Accounts): (t: Trees)
    requires Good(ledger) && CanExecute(tx, ledger)
    ensures GoodTrees(t)
  {
    Trees(ledger, AfterFirst(tx, ledger), Execute(tx, ledger))
  }

  // ----- the witness fits

  lemma {:induction false} PackedAmountFits(amount: nat)
    requires amount < U128_LIMIT
    ensures PackedNumber(amount, AMOUNT_MANTISSA) < 0x100_0000_0000 && Unpack(PackedNumber(amount, AMOUNT_MANTISSA)) < U128_LIMIT
  {
    AmountsPack();
    PackedParts(amount, AMOUNT_MANTISSA);
    Widths();
  }

  lemma {:induction false} UnpackZero()
    ensures Unpack(0) == 0
  {
  }

  lemma {:induction false} ArgsFit(tx: Tx, a: Account)
    requires GoodAccount(a) && GoodTx(tx) && TxFits(tx) && FirstAllowed(tx, a)
    ensures ArgsAllocated(ArgsFor(tx, a)) && ArgumentsRight(ArgsFor(tx, a), tx, a)
  {
    UnpackZero();
    if tx.Withdraw? || tx.ForcedExit? {
      PackedAmountFits(tx.amount);
    }
    hide Unpack, TwoSided, PackedNumber;
  }

  lemma {:induction false} PartFits(gadget: nat, d: Operation)
    requires d.pastEnd == 0
    ensures PartOf(gadget, d) < 0x100_0000_0000_0000_0000
  {
    Widths();
    hide Pubdata, Pow2;
  }

  lemma {:induction false} BranchesFit(tx: Tx, t: Trees, feeAccount: nat, k: nat)
    requires GoodTrees(t) && TokenOf(tx) < TOKENS && TxFits(tx) && feeAccount < 0x1_0000_0000
    ensures BranchAllocated(Left(tx, t, feeAccount, k)) && BranchAllocated(Right(tx, t, feeAccount, k))
    ensures Left(tx, t, feeAccount, k).token == Right(tx, t, feeAccount, k).token == TokenOf(tx)
  {
    forall x: Accounts, y: Accounts, id: nat | x in {t.before, t.mid, t.after} && y in {t.before, t.mid, t.after} && id < 0x1_0000_0000
      ensures BranchAllocated(ShownOf(x, y, id, TokenOf(tx)))
    {
      ShownAllocated(x, y, id, TokenOf(tx));
    }
    hide BranchAllocated, ShownOf, GoodAccount;
  }

  lemma {:induction false} SignerFits(tx: Tx, t: Trees, feeAccount: nat, k: nat)
    requires GoodTrees(t) && GoodTx(tx)
    ensures Draft(tx, t, feeAccount, k).signerKeyHash < ADDRESS_LIMIT
  {
    assert GoodAccount(t.before[Slot(FirstAccount(tx))]);
    hide ArgsFor, Left, Right, Shown, ShownOf;
  }

  lemma {:induction false} DraftEnd(tx: Tx, t: Trees, feeAccount: nat, k: nat)
    requires GoodTrees(t) && TokenOf(tx) < TOKENS
    ensures Draft(tx, t, feeAccount, k).pastEnd == 0
  {
    hide ArgsFor, Left, Right, GoodAccount;
  }

  /** The first account, its token and its arguments. */
  lemma {:induction false} ExecutableFirst(tx: Tx, ledger: Accounts)
    requires Good(ledger) && CanExecute(tx, ledger)
    ensures GoodTx(tx) && GoodAccount(ledger[Slot(FirstAccount(tx))]) && FirstAllowed(tx, ledger[Slot(FirstAccount(tx))])
    ensures TokenOf(tx) <= PROCESSABLE_TOKENS && FirstOk(tx, ledger)
  {
    hide FirstAllowed, SecondAllowed, GoodAccount;
  }

  lemma {:induction false} ChunkShape(tx: Tx, t: Trees, feeAccount: nat, k: nat)
    requires GoodTrees(t) && TokenOf(tx) < TOKENS
    ensures var op := ChunkFor(tx, t, feeAccount, k);
            && op.txType == Code(tx) && op.chunk == k && op.pastEnd == 0 && op.args == ArgsFor(tx, t.before[Slot(FirstAccount(tx))])
            && op.lhs == Left(tx, t, feeAccount, k) && op.rhs == Right(tx, t, feeAccount, k)
            && op.messageParts == MessageFor(tx, t, feeAccount) && op.signatureVerified == Signed(Code(tx))
            && op.signerKeyHash == Draft(tx, t, feeAccount, k).signerKeyHash
            && op.pubdataChunk == if tx.Noop? then 0 else PartOf(Code(tx), Draft(tx, t, feeAccount, k))
  {
    hide ArgsFor, Left, Right, PartOf, MessageFor;
  }

  lemma {:induction false} ChunkAllocated(tx: Tx, ledger: Accounts, feeAccount: nat, k: nat)
    requires Good(ledger) && CanExecute(tx, ledger) && TxFits(tx) && feeAccount < 0x1_0000_0000 && k < 6
    ensures Allocated(ChunkFor(tx, TreesOf(tx, ledger), feeAccount, k))
    ensures ArgumentsRight(ChunkFor(tx, TreesOf(tx, ledger), feeAccount, k).args, tx, ledger[Slot(FirstAccount(tx))])
  {
    hide ChunkFor, ArgsAllocated, BranchAllocated, Left, Right, PartOf, ArgsFor, CanExecute, FirstAllowed, GoodAccount, GoodTx, Draft, MessageFor,
      PartsAllocated, ArgumentsRight, TxFits;
    var t := TreesOf(tx, ledger);
    ExecutableFirst(tx, ledger);
    ArgsFit(tx, ledger[Slot(FirstAccount(tx))]);
    BranchesFit(tx, t, feeAccount, k);
    SignerFits(tx, t, feeAccount, k);
    DraftEnd(tx, t, feeAccount, k);
    PartFits(Code(tx), Draft(tx, t, feeAccount, k));
    ChunkShape(tx, t, feeAccount, k);
  }

  lemma {:induction false} FirstIsTx(tx: Tx, t: Trees, feeAccount: nat)
    requires GoodTrees(t) && TokenOf(tx) < TOKENS
    ensures TxOf(ChunkFor(tx, t, feeAccount, 0)) == tx
  {
    hide *;
    ChunkShape(tx, t, feeAccount, 0);
    PlacesStay(tx, t, feeAccount, 0);
    GoodFirst(tx, t);
    ArgumentsTell(tx, t.before[Slot(FirstAccount(tx))], ChunkFor(tx, t, feeAccount, 0));
  }

  lemma {:induction false} GoodFirst(tx: Tx, t: Trees)
    requires GoodTrees(t)
    ensures Slot(FirstAccount(tx)) < |t.before| && GoodAccount(t.before[Slot(FirstAccount(tx))])
  {
    hide GoodAccount;
  }

  /** Arguments and places of a first chunk tell the transaction. */
  lemma {:induction false} ArgumentsTell(tx: Tx, a: Account, op: Operation)
    requires GoodAccount(a) && TokenOf(tx) < TOKENS && op.txType == Code(tx) && op.args == ArgsFor(tx, a) && op.lhs.token == TokenOf(tx)
    requires tx.Noop? || op.lhs.accountId == FirstAccount(tx)
    requires TwoSided(tx) && !tx.Noop? ==> op.rhs.accountId == SecondAccount(tx)
    ensures TxOf(op) == tx
  {
    hide Unpack, PackedNumber;
  }

  /** The ledger a chunk works on. */
  function ChunkLedger(tx: Tx, ledger: Accounts, k: nat): (r: Accounts)
    requires Good(ledger) && CanExecute(tx, ledger)
    ensures Good(r)
  {
    if k == 0 then ledger else Reached(tx, ledger, k)
  }

  /** The entry the chunk works on. */
  function Target(tx: Tx, feeAccount: nat, k: nat): nat {
    if tx.Noop? then feeAccount else if k > 0 && TwoSided(tx) then SecondAccount(tx) else FirstAccount(tx)
  }

  lemma {:induction false} Selected(tx: Tx, ledger: Accounts, feeAccount: nat, k: nat)
    requires Good(ledger) && CanExecute(tx, ledger) && TokenOf(tx) < TOKENS && k < Chunks(Code(tx))
    ensures Select(ChunkFor(tx, TreesOf(tx, ledger), feeAccount, k))
         == Shown(ChunkLedger(tx, ledger, k), Target(tx, feeAccount, k), TokenOf(tx))
  {
    hide ChunkFor, Shown, ShownOf, PartOf, MessageFor, ArgsFor, CanExecute, AfterFirst, Execute, GoodAccount, Draft;
    ChunkShape(tx, TreesOf(tx, ledger), feeAccount, k);
    if !TwoSided(tx) {
      OneSidedAfter(tx, ledger);
    }
  }

  lemma {:induction false} OneSidedAfter(tx: Tx, ledger: Accounts)
    requires Good(ledger) && CanExecute(tx, ledger) && !TwoSided(tx)
    ensures Execute(tx, ledger) == AfterFirst(tx, ledger) && Reached(tx, ledger, 1) == AfterFirst(tx, ledger)
  {
    hide FirstEffect, FirstAllowed, GoodAccount;
  }

  /** Both branches keep their places from chunk to chunk. */
  lemma {:induction false} PlacesStay(tx: Tx, t: Trees, feeAccount: nat, k: nat)
    requires GoodTrees(t) && TokenOf(tx) < TOKENS
    ensures Left(tx, t, feeAccount, k).accountId == if tx.Noop? then feeAccount else FirstAccount(tx)
    ensures Right(tx, t, feeAccount, k).accountId == if tx.Noop? then feeAccount else if TwoSided(tx) then SecondAccount(tx) else FirstAccount(tx)
    ensures Left(tx, t, feeAccount, k).token == Right(tx, t, feeAccount, k).token == TokenOf(tx)
  {
    hide ShownOf, GoodAccount;
  }

  /** Where two chunks show the same places and have the same arguments they publish the same fields. */
  lemma {:induction false} SamePlacesSameFields(gadget: nat, p: Operation, q: Operation)
    requires p.txType == q.txType && p.args == q.args && p.lhs.accountId == q.lhs.accountId && p.rhs.accountId == q.rhs.accountId
    requires p.lhs.token == p.rhs.token == q.lhs.token == q.rhs.token
    requires gadget in {TRANSFER_TO_NEW, TRANSFER, FORCED_EXIT, NOOP} || p.lhs.accountId == p.rhs.accountId
    ensures PubdataFields(gadget, p) == PubdataFields(gadget, q)
  {
    hide Width;
  }

  /** All chunks publish the same fields. */
  lemma {:induction false} SameFields(tx: Tx, t: Trees, feeAccount: nat, k: nat)
    requires GoodTrees(t) && TokenOf(tx) < TOKENS
    ensures PubdataFields(Code(tx), ChunkFor(tx, t, feeAccount, k)) == PubdataFields(Code(tx), ChunkFor(tx, t, feeAccount, 0))
    ensures PubdataFields(Code(tx), ChunkFor(tx, t, feeAccount, k)) == PubdataFields(Code(tx), Draft(tx, t, feeAccount, k))
  {
    ChunkShape(tx, t, feeAccount, k);
    ChunkShape(tx, t, feeAccount, 0);
    PlacesStay(tx, t, feeAccount, k);
    PlacesStay(tx, t, feeAccount, 0);
    hide ChunkFor, Left, Right, PartOf, MessageFor, ArgsFor, GoodAccount, PubdataFields;
    SamePlacesSameFields(Code(tx), ChunkFor(tx, t, feeAccount, k), ChunkFor(tx, t, feeAccount, 0));
    SamePlacesSameFields(Code(tx), ChunkFor(tx, t, feeAccount, k), Draft(tx, t, feeAccount, k));
  }

  lemma {:induction false} Published(tx: Tx, t: Trees, feeAccount: nat, k: nat)
    requires GoodTrees(t) && TokenOf(tx) < TOKENS && k < Chunks(Code(tx))
    ensures PublishedRight(ChunkFor(tx, t, feeAccount, k))
    ensures !tx.Noop? ==> ChunkPublished(Code(tx), ChunkFor(tx, t, feeAccount, k))
  {
    SameFields(tx, t, feeAccount, k);
    ChunkShape(tx, t, feeAccount, k);
    hide ChunkFor, PubdataFields, Encode, ArgsFor, Left, Right, MessageFor, GoodAccount;
  }

  lemma {:induction false} SameMessage(tx: Tx, t: Trees, feeAccount: nat)
    requires GoodTrees(t) && TokenOf(tx) < TOKENS
    ensures MessageFields(Code(tx), ChunkFor(tx, t, feeAccount, 0)) == MessageFields(Code(tx), Draft(tx, t, feeAccount, 0))
  {
    hide ChunkFor, ShownOf, PartOf, MessageFor, ArgsFor, GoodAccount, Width;
    ChunkShape(tx, t, feeAccount, 0);
  }

  lemma {:induction false} FirstIsSigned(tx: Tx, t: Trees, feeAccount: nat)
    requires GoodTrees(t) && TokenOf(tx) < TOKENS
    ensures SignedRight(ChunkFor(tx, t, feeAccount, 0), t.before[Slot(FirstAccount(tx))])
  {
    hide ChunkFor, ShownOf, PartOf, GoodAccount, MessageFields, Encode, MessageParts;
    SameMessage(tx, t, feeAccount);
    ChunkShape(tx, t, feeAccount, 0);
  }

  // ----- the witness presents the operation

  lemma {:induction false} FirstIsPresented(tx: Tx, ledger: Accounts, feeAccount: nat)
    requires Good(ledger) && CanExecute(tx, ledger) && TxFits(tx) && feeAccount < 0x1_0000_0000
    ensures TokenOf(tx) < TOKENS && FirstPresents(ChunkFor(tx, TreesOf(tx, ledger), feeAccount, 0), ledger)
  {
    var t := TreesOf(tx, ledger);
    ExecutableFirst(tx, ledger);
    var op := ChunkFor(tx, t, feeAccount, 0);
    ChunkAllocated(tx, ledger, feeAccount, 0);
    ChunkShape(tx, t, feeAccount, 0);
    PlacesStay(tx, t, feeAccount, 0);
    FirstIsTx(tx, t, feeAccount);
    Published(tx, t, feeAccount, 0);
    Selected(tx, ledger, feeAccount, 0);
    FirstIsSigned(tx, t, feeAccount);
    ShownRoot(ledger, Target(tx, feeAccount, 0), TokenOf(tx));
    NoopAnywhere(op, tx, ledger);
    hide ChunkFor, Left, Right, PartOf, MessageFor, ArgsFor, GoodAccount, PubdataFields, Shown, CanExecute, Allocated, SignedRight, PublishedRight,
      BranchRoot, LedgerRoot, TxFits, FirstOk, ArgumentsRight;
  }

  /** A no-op has no account: anything is right for it. */
  lemma {:induction false} NoopAnywhere(op: Operation, tx: Tx, ledger: Accounts)
    requires Good(ledger) && TokenOf(tx) < TOKENS && op.txType == Code(tx)
    ensures tx.Noop? ==> forall a, b :: GoodAccount(a) && GoodAccount(b) ==>
              (ArgumentsRight(op.args, tx, a) <==> ArgumentsRight(op.args, tx, b)) && SignedRight(op, a)
  {
    hide GoodAccount;
  }

  lemma {:induction false} LaterIsPresented(tx: Tx, ledger: Accounts, feeAccount: nat, k: nat)
    requires Good(ledger) && CanExecute(tx, ledger) && TxFits(tx) && feeAccount < 0x1_0000_0000 && 0 < k < Chunks(Code(tx))
    ensures TokenOf(tx) < TOKENS && FirstOk(tx, ledger)
    ensures var t := TreesOf(tx, ledger);
            LaterPresents(ChunkFor(tx, t, feeAccount, k), ChunkFor(tx, t, feeAccount, 0), Reached(tx, ledger, k))
  {
    hide ChunkFor, Left, Right, PartOf, MessageFor, ArgsFor, GoodAccount, PubdataFields, Shown, CanExecute, Allocated, ChunkPublished,
      BranchRoot, LedgerRoot, TxFits, FirstOk, Reached, QuietRight, Draft;
    var t := TreesOf(tx, ledger);
    ExecutableFirst(tx, ledger);
    var op, first := ChunkFor(tx, t, feeAccount, k), ChunkFor(tx, t, feeAccount, 0);
    ChunkAllocated(tx, ledger, feeAccount, k);
    ChunkShape(tx, t, feeAccount, k);
    ChunkShape(tx, t, feeAccount, 0);
    PlacesStay(tx, t, feeAccount, k);
    SameFields(tx, t, feeAccount, k);
    Published(tx, t, feeAccount, k);
    Selected(tx, ledger, feeAccount, k);
    ShownRoot(Reached(tx, ledger, k), Target(tx, feeAccount, k), TokenOf(tx));
    QuietIsRight(tx, t, feeAccount, k);
  }

  lemma {:induction false} QuietIsRight(tx: Tx, t: Trees, feeAccount: nat, k: nat)
    requires GoodTrees(t) && TokenOf(tx) < TOKENS
    ensures QuietRight(ChunkFor(tx, t, feeAccount, k), ChunkFor(tx, t, feeAccount, 0))
  {
    ChunkShape(tx, t, feeAccount, k);
    ChunkShape(tx, t, feeAccount, 0);
    hide ChunkFor, PartOf, MessageFor, GoodAccount;
  }

  /** The chunks of the prover for an operation. */
  function OpsFor(tx: Tx, ledger: Accounts, feeAccount: nat): (ops: seq<Operation>)
    requires Good(ledger) && CanExecute(tx, ledger)
    ensures |ops| == Chunks(Code(tx))
  {
    ExecutableFirst(tx, ledger);
    ChunksFor(tx, TreesOf(tx, ledger), feeAccount)
  }

  /** The prover's own witness presents the operation. */
  lemma {:induction false} OpsPresent(tx: Tx, ledger: Accounts, feeAccount: nat)
    requires Good(ledger) && CanExecute(tx, ledger) && TxFits(tx) && feeAccount < 0x1_0000_0000
    ensures Presents(OpsFor(tx, ledger, feeAccount), ledger) && TxOf(OpsFor(tx, ledger, feeAccount)[0]) == tx
    ensures OpsFor(tx, ledger, feeAccount)[0].txType == Code(tx)
  {
    hide *;
    ExecutableFirst(tx, ledger);
    var t, ops := TreesOf(tx, ledger), OpsFor(tx, ledger, feeAccount);
    OpsAre(tx, ledger, feeAccount);
    FirstIsTx(tx, t, feeAccount);
    FirstIsPresented(tx, ledger, feeAccount);
    ChunkShape(tx, t, feeAccount, 0);
    forall k | 0 < k < |ops|
      ensures LaterAt(ops, ledger, k)
    {
      LaterIsPresented(tx, ledger, feeAccount, k);
      ChunkShape(tx, t, feeAccount, k);
      LaterAtIs(ops, ledger, k);
    }
    PresentsIs(ops, ledger);
  }

  lemma {:induction false} OpsAre(tx: Tx, ledger: Accounts, feeAccount: nat)
    requires Good(ledger) && CanExecute(tx, ledger)
    ensures TokenOf(tx) < TOKENS && FirstOk(tx, ledger)
    ensures var ops := OpsFor(tx, ledger, feeAccount);
            && ops != [] && |ops| == Chunks(Code(tx))
            && forall k :: 0 <= k < |ops| ==> ops[k] == ChunkFor(tx, TreesOf(tx, ledger), feeAccount, k)
  {
    ExecutableFirst(tx, ledger);
    hide ChunkFor, CanExecute, TreesOf, FirstOk, GoodAccount, Code, Chunks;
  }
}
