/** The accepted witnesses of an operation, exactly: what its chunks have to show, stated on the ledger
    and the transaction, without gadgets, holders or flags. */
module Acceptance {
  import opened Bits
  import opened Common
  import opened Params
  import opened PrimeField
  import opened Witness
  import opened Gadgets
  import opened BlockSpec
  import opened Grammar
  import opened Ledger
  import opened Transactions
  import opened Execution
  import opened Messages

  predicate ShowsAccount(b: Branch, a: Account) {
    && b.nonce == a.nonce && b.pubKeyHash == a.pubKeyHash && b.address == a.address
    && b.token < |a.balances| && b.balance == a.balances[b.token]
  }

  /** The arguments that no transaction mentions: `a` and `b` are the balance and what is taken from it. */
  predicate ArgumentsRight(x: Args, tx: Tx, account: Account)
    requires GoodAccount(account) && TokenOf(tx) < TOKENS
  {
    && x.b <= x.a && x.Fee() == FeeOf(tx)
    && (tx.Deposit? ==> x.a == tx.amount)
    && (tx.TransferToNew? || tx.Transfer? || tx.Withdraw? || tx.ChangePubKey? || tx.ForcedExit? ==>
          x.a == account.balances[TokenOf(tx)] && x.b == Spent(tx))
  }

  /** The key that has to sign: the account's own, or the new one. */
  predicate SignedRight(op: Operation, account: Account) {
    Signed(op.txType) ==>
      && MessageSigned(op.txType, op)
      && op.signerKeyHash == (if op.txType == CHANGE_PUBKEY then op.args.newPubKeyHash else account.pubKeyHash)
  }

  predicate PublishedRight(op: Operation) {
    if op.txType == NOOP then op.pubdataChunk == (if First(op) then 0 else op.pastEnd) else ChunkPublished(op.txType, op)
  }

  /** A first chunk whose left branch shows this account, before its gadget is asked. */
  predicate FirstShows(op: Operation, account: Account) {
    && Allocated(op) && First(op) && op.args.b <= op.args.a
    && op.lhs.token == op.rhs.token <= PROCESSABLE_TOKENS && GoodAccount(account) && ShowsAccount(op.lhs, account)
  }

  predicate FirstRight(op: Operation, account: Account)
    requires FirstShows(op, account)
  {
    && GoodTx(TxOf(op)) && FirstAllowed(TxOf(op), account)
    && ArgumentsRight(op.args, TxOf(op), account) && SignedRight(op, account) && PublishedRight(op)
  }

  predicate GadgetAccepts(op: Operation, cur: Branch, holder: seq<nat>) {
    Gadgets.Valid(op, cur, holder) && Fits(Update(op, cur, holder))
  }

  lemma {:induction false} FirstNoopIff(op: Operation, account: Account, holder: seq<nat>)
    requires FirstShows(op, account) && op.txType == NOOP
    ensures GadgetAccepts(op, op.lhs, holder) <==> FirstRight(op, account)
  {
    hide MessageSigned, ChunkPublished, Unpack, PartsAllocated, Pow2;
  }

  lemma {:induction false} FirstDepositIff(op: Operation, account: Account, holder: seq<nat>)
    requires FirstShows(op, account) && op.txType == DEPOSIT
    ensures GadgetAccepts(op, op.lhs, holder) <==> FirstRight(op, account)
  {
    hide MessageSigned, ChunkPublished, Unpack, PartsAllocated, Pow2;
  }

  lemma {:induction false} FirstTransferToNewIff(op: Operation, account: Account, holder: seq<nat>)
    requires FirstShows(op, account) && op.txType == TRANSFER_TO_NEW
    ensures GadgetAccepts(op, op.lhs, holder) <==> FirstRight(op, account)
  {
    hide MessageSigned, ChunkPublished, Unpack, PartsAllocated, Pow2;
  }

  lemma {:induction false} FirstWithdrawIff(op: Operation, account: Account, holder: seq<nat>)
    requires FirstShows(op, account) && op.txType == WITHDRAW
    ensures GadgetAccepts(op, op.lhs, holder) <==> FirstRight(op, account)
  {
    hide MessageSigned, ChunkPublished, Unpack, PartsAllocated, Pow2;
  }

  lemma {:induction false} FirstTransferIff(op: Operation, account: Account, holder: seq<nat>)
    requires FirstShows(op, account) && op.txType == TRANSFER
    ensures GadgetAccepts(op, op.lhs, holder) <==> FirstRight(op, account)
  {
    hide MessageSigned, ChunkPublished, Unpack, PartsAllocated, Pow2;
  }

  lemma {:induction false} FirstFullExitIff(op: Operation, account: Account, holder: seq<nat>)
    requires FirstShows(op, account) && op.txType == FULL_EXIT
    ensures GadgetAccepts(op, op.lhs, holder) <==> FirstRight(op, account)
  {
    hide MessageSigned, ChunkPublished, Unpack, PartsAllocated, Pow2;
  }

  lemma {:induction false} FirstChangePubKeyIff(op: Operation, account: Account, holder: seq<nat>)
    requires FirstShows(op, account) && op.txType == CHANGE_PUBKEY
    ensures GadgetAccepts(op, op.lhs, holder) <==> FirstRight(op, account)
  {
    hide MessageSigned, ChunkPublished, Unpack, PartsAllocated, Pow2;
  }

  lemma {:induction false} FirstForcedExitIff(op: Operation, account: Account, holder: seq<nat>)
    requires FirstShows(op, account) && op.txType == FORCED_EXIT
    ensures GadgetAccepts(op, op.lhs, holder) <==> FirstRight(op, account)
  {
    hide MessageSigned, ChunkPublished, Unpack, PartsAllocated, Pow2;
  }

  /** The gadgets on first chunks accept exactly what is right. */
  lemma {:induction false} FirstGadgetIff(op: Operation, account: Account, holder: seq<nat>)
    requires FirstShows(op, account) && IsGadget(op.txType)
    ensures GadgetAccepts(op, op.lhs, holder) <==> FirstRight(op, account)
  {
    hide FirstShows, GadgetAccepts, FirstRight;
    if op.txType == NOOP {
      FirstNoopIff(op, account, holder);
    } else if op.txType == DEPOSIT {
      FirstDepositIff(op, account, holder);
    } else if op.txType == TRANSFER_TO_NEW {
      FirstTransferToNewIff(op, account, holder);
    } else if op.txType == WITHDRAW {
      FirstWithdrawIff(op, account, holder);
    } else if op.txType == TRANSFER {
      FirstTransferIff(op, account, holder);
    } else if op.txType == FULL_EXIT {
      FirstFullExitIff(op, account, holder);
    } else if op.txType == CHANGE_PUBKEY {
      FirstChangePubKeyIff(op, account, holder);
    } else {
      FirstForcedExitIff(op, account, holder);
    }
  }

  // ----- later chunks

  /** A later chunk of the operation that started with `first`, before its gadget is asked. */
  predicate Continues(op: Operation, first: Operation) {
    && Allocated(op) && !First(op) && op.txType == first.txType && op.args.SameAs(first.args)
    && op.lhs.token == op.rhs.token <= PROCESSABLE_TOKENS
  }

  predicate Copies(op: Operation, holder: seq<nat>) {
    Copied(op.txType, op, holder) && ChunkPublished(op.txType, op)
  }

  /** The second chunk of a two-sided operation; its right branch shows the receiver or target. */
  predicate SecondShows(op: Operation, first: Operation, account: Account) {
    && Continues(op, first) && op.chunk == 1 && IsGadget(op.txType) && TwoSided(TxOf(first)) && GoodTx(TxOf(first))
    && op.rhs.token == TokenOf(TxOf(first)) && GoodAccount(account) && ShowsAccount(op.rhs, account)
  }

  lemma {:induction false} SecondTransferToNewIff(op: Operation, first: Operation, account: Account, holder: seq<nat>)
    requires SecondShows(op, first, account) && op.txType == TRANSFER_TO_NEW
    ensures GadgetAccepts(op, op.rhs, holder) <==> SecondAllowed(TxOf(first), account) && Copies(op, holder)
  {
    hide MessageSigned, ChunkPublished, Copied, Unpack, PartsAllocated, Pow2;
  }

  lemma {:induction false} SecondTransferIff(op: Operation, first: Operation, account: Account, holder: seq<nat>)
    requires SecondShows(op, first, account) && op.txType == TRANSFER
    ensures GadgetAccepts(op, op.rhs, holder) <==> SecondAllowed(TxOf(first), account) && Copies(op, holder)
  {
    hide MessageSigned, ChunkPublished, Copied, Unpack, PartsAllocated, Pow2;
  }

  lemma {:induction false} SecondForcedExitIff(op: Operation, first: Operation, account: Account, holder: seq<nat>)
    requires SecondShows(op, first, account) && op.txType == FORCED_EXIT
    ensures GadgetAccepts(op, op.rhs, holder) <==> SecondAllowed(TxOf(first), account) && Copies(op, holder)
  {
    hide MessageSigned, ChunkPublished, Copied, Unpack, PartsAllocated, Pow2;
  }

  lemma {:induction false} SecondGadgetIff(op: Operation, first: Operation, account: Account, holder: seq<nat>)
    requires SecondShows(op, first, account)
    ensures GadgetAccepts(op, op.rhs, holder) <==> SecondAllowed(TxOf(first), account) && Copies(op, holder)
  {
    assert op.txType in {TRANSFER_TO_NEW, TRANSFER, FORCED_EXIT};
    hide SecondShows, GadgetAccepts, Copies, SecondAllowed;
    if op.txType == TRANSFER_TO_NEW {
      SecondTransferToNewIff(op, first, account, holder);
    } else if op.txType == TRANSFER {
      SecondTransferIff(op, first, account, holder);
    } else {
      SecondForcedExitIff(op, first, account, holder);
    }
  }

  /** What the remaining chunks have to show: a withdrawal its key, and a key change the old balance on the
      left. */
  predicate QuietRight(op: Operation, first: Operation) {
    && (op.txType == WITHDRAW ==> op.signerKeyHash == first.lhs.pubKeyHash)
    && (op.txType == CHANGE_PUBKEY ==> op.lhs.balance == first.args.a)
  }

  /** A chunk that only publishes. For a one-sided operation its branch shows what the operation left of the
      account that `first` showed. */
  predicate QuietShows(op: Operation, first: Operation, account: Account) {
    && Continues(op, first) && Quiet(op) && IsGadget(op.txType) && op.txType != NOOP && op.chunk < Chunks(op.txType)
    && FirstShows(first, account) && FirstRight(first, account) && GoodAccount(account)
    && BranchAllocated(Select(op))
    && (!TwoSided(TxOf(first)) ==> ShowsAccount(Select(op), FirstEffect(TxOf(first), account)))
  }

  lemma {:induction false} QuietDepositIff(op: Operation, first: Operation, account: Account, holder: seq<nat>)
    requires QuietShows(op, first, account) && op.txType == DEPOSIT
    ensures GadgetAccepts(op, Select(op), holder) <==> QuietRight(op, first) && Copies(op, holder)
  {
    hide MessageSigned, ChunkPublished, Copied, Unpack, PartsAllocated, Pow2;
  }

  lemma {:induction false} QuietWithdrawIff(op: Operation, first: Operation, account: Account, holder: seq<nat>)
    requires QuietShows(op, first, account) && op.txType == WITHDRAW
    ensures GadgetAccepts(op, Select(op), holder) <==> QuietRight(op, first) && Copies(op, holder)
  {
    hide MessageSigned, ChunkPublished, Copied, Unpack, PartsAllocated, Pow2;
  }

  lemma {:induction false} QuietFullExitIff(op: Operation, first: Operation, account: Account, holder: seq<nat>)
    requires QuietShows(op, first, account) && op.txType == FULL_EXIT
    ensures GadgetAccepts(op, Select(op), holder) <==> QuietRight(op, first) && Copies(op, holder)
  {
    hide MessageSigned, ChunkPublished, Copied, Unpack, PartsAllocated, Pow2;
  }

  lemma {:induction false} QuietChangePubKeyIff(op: Operation, first: Operation, account: Account, holder: seq<nat>)
    requires QuietShows(op, first, account) && op.txType == CHANGE_PUBKEY
    ensures GadgetAccepts(op, Select(op), holder) <==> QuietRight(op, first) && Copies(op, holder)
  {
    hide MessageSigned, ChunkPublished, Copied, Unpack, PartsAllocated, Pow2;
  }

  lemma {:induction false} QuietTwoSidedIff(op: Operation, first: Operation, account: Account, holder: seq<nat>)
    requires QuietShows(op, first, account) && op.txType in {TRANSFER_TO_NEW, TRANSFER, FORCED_EXIT}
    ensures GadgetAccepts(op, Select(op), holder) <==> QuietRight(op, first) && Copies(op, holder)
  {
    hide MessageSigned, ChunkPublished, Copied, Unpack, PartsAllocated, Pow2, FirstShows, FirstRight;
  }

  lemma {:induction false} QuietGadgetIff(op: Operation, first: Operation, account: Account, holder: seq<nat>)
    requires QuietShows(op, first, account)
    ensures GadgetAccepts(op, Select(op), holder) <==> QuietRight(op, first) && Copies(op, holder)
  {
    assert IsGadget(op.txType) && op.txType != NOOP;
    hide QuietShows, GadgetAccepts, Copies, QuietRight;
    if op.txType == DEPOSIT {
      QuietDepositIff(op, first, account, holder);
    } else if op.txType == WITHDRAW {
      QuietWithdrawIff(op, first, account, holder);
    } else if op.txType == FULL_EXIT {
      QuietFullExitIff(op, first, account, holder);
    } else if op.txType == CHANGE_PUBKEY {
      QuietChangePubKeyIff(op, first, account, holder);
    } else {
      QuietTwoSidedIff(op, first, account, holder);
    }
  }

  // ----- chunks

  /** What a first chunk has to show. */
  predicate FirstPresents(op: Operation, ledger: Accounts)
    requires Good(ledger)
  {
    && Allocated(op) && First(op) && IsGadget(op.txType)
    && op.lhs.token == op.rhs.token <= PROCESSABLE_TOKENS
    && BranchRoot(op.lhs, USED_SUBTREE_DEPTH) == LedgerRoot(ledger)
    && FirstOk(TxOf(op), ledger)
    && ArgumentsRight(op.args, TxOf(op), ledger[Slot(op.lhs.accountId)])
    && SignedRight(op, ledger[Slot(op.lhs.accountId)]) && PublishedRight(op)
  }

  /** What a later chunk has to show, on the ledger that the chunks before it left. */
  predicate LaterPresents(op: Operation, first: Operation, now: Accounts)
    requires Good(now)
  {
    && Continues(op, first) && BranchRoot(Select(op), USED_SUBTREE_DEPTH) == LedgerRoot(now)
    && PubdataFields(op.txType, op) == PubdataFields(op.txType, first) && ChunkPublished(op.txType, op)
    && QuietRight(op, first)
  }

  lemma {:induction false} ArgumentsInOrder(x: Args)
    requires x.a < U128_LIMIT && x.b < U128_LIMIT
    ensures Geq(x) <==> x.b <= x.a
  {
    if Geq(x) {
      SubtractionDidNotWrap(x.a, x.b);
    }
  }

  lemma {:induction false} TokenInRange(token: nat)
    requires token < 2048
    ensures FSub(PROCESSABLE_TOKENS, token) < 2048 <==> token <= PROCESSABLE_TOKENS
  {
  }

  /** The constraints around the gadget of a chunk that continues an operation or starts one. */
  lemma {:induction false} OpensIff(st: State, op: Operation)
    requires Allocated(op)
    ensures Opens(st, op) <==>
              && op.chunk == st.nextChunk && BranchRoot(Select(op), USED_SUBTREE_DEPTH) == st.root
              && op.lhs.token == op.rhs.token <= PROCESSABLE_TOKENS
              && (op.args.SameAs(st.prev) || First(op)) && op.args.b <= op.args.a
  {
    ArgumentsInOrder(op.args);
    TokenInRange(op.lhs.token);
    hide BranchRoot, Geq, FSub, Unpack, PartsAllocated;
  }

  lemma {:induction false} SelectedInRange(op: Operation)
    requires Allocated(op)
    ensures InRange(Select(op)) && BranchAllocated(Select(op))
  {
    hide PartsAllocated, Unpack;
  }

  /** A branch that leads to the root shows the entry. */
  lemma {:induction false} RootShows(op: Operation, ledger: Accounts)
    requires Good(ledger) && Allocated(op) && BranchRoot(Select(op), USED_SUBTREE_DEPTH) == LedgerRoot(ledger)
    ensures GoodAccount(ledger[Slot(Select(op).accountId)]) && ShowsAccount(Select(op), ledger[Slot(Select(op).accountId)])
  {
    hide BranchRoot, LedgerRoot, PartsAllocated, Unpack;
    SelectedInRange(op);
    BranchSound(Select(op), Select(op), ledger);
  }

  lemma {:induction false} AcceptsIff(st: State, op: Operation)
    ensures Accepts(st, op) <==>
              Opens(st, op) && IsGadget(op.txType) && GadgetAccepts(op, Select(op), Holder(st, op.txType))
  {
    hide Opens, Gadgets.Valid, Update, Fits, Holder;
  }

  lemma {:induction false} FirstOkIff(op: Operation, ledger: Accounts)
    requires Good(ledger) && IsGadget(op.txType)
    ensures FirstOk(TxOf(op), ledger) <==> GoodTx(TxOf(op)) && FirstAllowed(TxOf(op), ledger[Slot(op.lhs.accountId)])
  {
    hide GoodTx, GoodAccount;
  }

  lemma {:induction false} OrderOfRight(op: Operation, ledger: Accounts)
    requires Good(ledger) && FirstPresents(op, ledger)
    ensures op.args.b <= op.args.a
  {
    hide BranchRoot, LedgerRoot, Allocated, FirstOk, SignedRight, PublishedRight, TxOf, GoodAccount;
  }

  lemma {:induction false} FirstChunkIff(st: State, op: Operation, ledger: Accounts)
    requires Good(ledger) && st.root == LedgerRoot(ledger) && st.nextChunk == 0
    ensures Accepts(st, op) <==> FirstPresents(op, ledger)
  {
    AcceptsIff(st, op);
    hide Accepts, BranchRoot, LedgerRoot, GadgetAccepts, FirstAllowed, GoodTx, ArgumentsRight, SignedRight, PublishedRight, Allocated,
      GoodAccount, TxOf, FirstOk, IsGadget, ShowsAccount;
    if Allocated(op) && First(op) && IsGadget(op.txType) {
      OpensIff(st, op);
      if FirstPresents(op, ledger) {
        OrderOfRight(op, ledger);
      }
      if Opens(st, op) || FirstPresents(op, ledger) {
        RootShows(op, ledger);
        FirstOkIff(op, ledger);
        FirstGadgetIff(op, ledger[Slot(op.lhs.accountId)], Holder(st, op.txType));
      }
    }
  }

  /** What the circuit remembers of the chunk before. */
  predicate LastWas(s: State, op: Operation) {
    s.prev == op.args && s.holders == NewHolders(op)
  }

  /** A chunk before a later one, of the operation that started with `first`. */
  predicate Follows(prev: Operation, first: Operation) {
    && Allocated(prev) && Allocated(first) && IsGadget(first.txType) && prev.txType == first.txType && prev.args.SameAs(first.args)
    && PubdataFields(first.txType, prev) == PubdataFields(first.txType, first)
  }

  lemma {:induction false} FieldsMakeData(gadget: nat, p: Operation, q: Operation)
    requires Allocated(p) && Allocated(q)
    ensures Pubdata(gadget, p) == Pubdata(gadget, q) <==> PubdataFields(gadget, p) == PubdataFields(gadget, q)
  {
    hide PubdataFields, Encode, Allocated;
    if Pubdata(gadget, p) == Pubdata(gadget, q) {
      PubdataDeterminesFields(gadget, p, q);
    }
  }

  /** The copy check against the chunk before compares the published fields with those of the first. */
  lemma {:induction false} CopiedIff(s: State, op: Operation, prev: Operation, first: Operation)
    requires LastWas(s, prev) && Follows(prev, first) && Allocated(op) && !First(op) && op.txType == first.txType
    requires op.txType != NOOP
    ensures Copied(op.txType, op, Holder(s, op.txType)) <==> PubdataFields(op.txType, op) == PubdataFields(op.txType, first)
  {
    var t := op.txType;
    FieldsMakeData(t, op, prev);
    assert Holder(s, t) == MultiPack(Pubdata(t, prev));
    hide PubdataFields, Pubdata, MultiPack, Allocated, NewHolders, Holder;
    if MultiPack(Pubdata(t, op)) == MultiPack(Pubdata(t, prev)) {
      MultiPackInjective(Pubdata(t, op), Pubdata(t, prev));
    }
  }

  /** The same account and token as in the first chunk, by the published fields. */
  lemma {:induction false} OneSidedPlaces(op: Operation, first: Operation)
    requires op.txType == first.txType && IsGadget(op.txType) && op.txType != NOOP && !TwoSided(TxOf(first))
    requires PubdataFields(op.txType, op) == PubdataFields(op.txType, first)
    ensures Select(op).accountId == Select(first).accountId && Select(op).token == Select(first).token
  {
    hide Width;
    var fs, gs := PubdataFields(op.txType, op), PubdataFields(op.txType, first);
    assert fs[0] == gs[0] && fs[1] == gs[1] && fs[2] == gs[2] && fs[3] == gs[3] && fs[4] == gs[4];
    assert op.txType == CHANGE_PUBKEY ==> fs[5] == gs[5];
  }

  /** The ledger before the chunk with this number. */
  predicate Stands(first: Operation, ledger: Accounts, k: nat) {
    && Good(ledger) && FirstPresents(first, ledger) && 0 < k < Chunks(first.txType)
    && (k > 1 ==> CanExecute(TxOf(first), ledger))
  }

  function Standing(first: Operation, ledger: Accounts, k: nat): (r: Accounts)
    requires Stands(first, ledger, k)
    ensures Good(r)
  {
    Reached(TxOf(first), ledger, k)
  }

  lemma {:induction false} SecondPlaces(first: Operation, op: Operation)
    requires op.txType == first.txType && op.chunk == 1 && First(first) && TwoSided(TxOf(first)) && op.lhs.token == op.rhs.token
    requires PubdataFields(op.txType, op) == PubdataFields(op.txType, first)
    ensures Select(op) == op.rhs && op.rhs.accountId == SecondAccount(TxOf(first)) && op.rhs.token == TokenOf(TxOf(first))
    ensures IsGadget(op.txType)
  {
    PublishedPlaces(first, op);
    hide PubdataFields;
  }

  lemma {:induction false} SecondAllowedIff(tx: Tx, ledger: Accounts)
    requires Good(ledger) && FirstOk(tx, ledger) && TwoSided(tx)
    ensures GoodTx(tx)
    ensures SecondAllowed(tx, Reached(tx, ledger, 1)[Slot(SecondAccount(tx))]) <==> CanExecute(tx, ledger)
  {
    hide FirstAllowed, SecondAllowed, FirstEffect, GoodTx, GoodAccount;
  }

  /** The account a two-sided operation works on in its second chunk. */
  lemma {:induction false} SecondStands(first: Operation, op: Operation, ledger: Accounts)
    requires Stands(first, ledger, 1) && Continues(op, first) && op.chunk == 1 && TwoSided(TxOf(first))
    requires BranchRoot(Select(op), USED_SUBTREE_DEPTH) == LedgerRoot(Standing(first, ledger, 1))
    requires PubdataFields(op.txType, op) == PubdataFields(op.txType, first)
    ensures var b := Standing(first, ledger, 1)[Slot(SecondAccount(TxOf(first)))];
            SecondShows(op, first, b) && Select(op) == op.rhs
            && (SecondAllowed(TxOf(first), b) <==> CanExecute(TxOf(first), ledger))
  {
    StandsMeans(first, ledger, 1);
    assert First(first) && Allocated(op) && Standing(first, ledger, 1) == Reached(TxOf(first), ledger, 1);
    hide Stands, FirstPresents, FirstOk, BranchRoot, LedgerRoot, PubdataFields, Allocated, GoodAccount, ShowsAccount, TxOf, CanExecute, Reached,
      Standing, SecondAllowed, GoodTx, TwoSided, Select;
    SecondPlaces(first, op);
    RootShows(op, Standing(first, ledger, 1));
    SecondAllowedIff(TxOf(first), ledger);
  }

  /** What the remaining chunks work on. */
  lemma {:induction false} QuietStands(first: Operation, op: Operation, ledger: Accounts, k: nat)
    requires Stands(first, ledger, k) && Continues(op, first) && op.chunk == k && Quiet(op) && op.txType != NOOP
    requires BranchRoot(Select(op), USED_SUBTREE_DEPTH) == LedgerRoot(Standing(first, ledger, k))
    requires PubdataFields(op.txType, op) == PubdataFields(op.txType, first)
    ensures QuietShows(op, first, ledger[Slot(first.lhs.accountId)])
  {
    var now, account := Standing(first, ledger, k), ledger[Slot(first.lhs.accountId)];
    assert Select(first) == first.lhs;
    if !TwoSided(TxOf(first)) {
      OneSidedPlaces(op, first);
      FirstAccountIs(first);
    }
    FirstOkIff(first, ledger);
    OrderOfRight(first, ledger);
    SelectedInRange(op);
    hide BranchRoot, LedgerRoot, PubdataFields, FirstAllowed, SecondAllowed, SecondEffect, FirstEffect, GoodTx, ArgumentsRight, SignedRight,
      PublishedRight, Unpack, PartsAllocated, GoodAccount, ShowsAccount, BranchAllocated, Select;
    FirstShown(first, ledger);
    RootShows(op, now);
  }

  lemma {:induction false} FirstAccountIs(first: Operation)
    requires IsGadget(first.txType) && first.txType != NOOP
    ensures FirstAccount(TxOf(first)) == first.lhs.accountId
  {
  }

  lemma {:induction false} FirstShown(first: Operation, ledger: Accounts)
    requires Good(ledger) && FirstPresents(first, ledger)
    ensures FirstShows(first, ledger[Slot(first.lhs.accountId)])
  {
    assert Select(first) == first.lhs;
    RootShows(first, ledger);
    OrderOfRight(first, ledger);
  }

  lemma {:induction false} StandsMeans(first: Operation, ledger: Accounts, k: nat)
    requires Stands(first, ledger, k)
    ensures Good(ledger) && |ledger| == ACCOUNTS && |Standing(first, ledger, k)| == ACCOUNTS && k > 0
    ensures FirstPresents(first, ledger) && Allocated(first) && IsGadget(first.txType) && first.txType != NOOP
    ensures FirstOk(TxOf(first), ledger) && first.args.b <= first.args.a
    ensures k > 1 || !TwoSided(TxOf(first)) ==> CanExecute(TxOf(first), ledger)
  {
    OrderOfRight(first, ledger);
    hide BranchRoot, LedgerRoot, ArgumentsRight, SignedRight, PublishedRight, Allocated, FirstOk, GoodAccount, TxOf;
  }

  lemma {:induction false} LaterGadgetIff(s: State, op: Operation, first: Operation, prev: Operation, ledger: Accounts, k: nat)
    requires Stands(first, ledger, k) && LastWas(s, prev) && Follows(prev, first)
    requires Continues(op, first) && op.chunk == k && PubdataFields(op.txType, op) == PubdataFields(op.txType, first)
    requires BranchRoot(Select(op), USED_SUBTREE_DEPTH) == LedgerRoot(Standing(first, ledger, k))
    ensures GadgetAccepts(op, Select(op), Holder(s, op.txType)) <==>
              QuietRight(op, first) && ChunkPublished(op.txType, op) && CanExecute(TxOf(first), ledger)
  {
    hide *;
    StandsMeans(first, ledger, k);
    ContinuesMeans(op, first);
    QuietOrSecond(op, first, k);
    CopiedIff(s, op, prev, first);
    CopiesIs(op, Holder(s, op.txType));
    if k == 1 && TwoSided(TxOf(first)) {
      SecondStands(first, op, ledger);
      SecondGadgetIff(op, first, Standing(first, ledger, 1)[Slot(SecondAccount(TxOf(first)))], Holder(s, op.txType));
    } else {
      QuietStands(first, op, ledger, k);
      QuietGadgetIff(op, first, ledger[Slot(first.lhs.accountId)], Holder(s, op.txType));
    }
  }

  lemma {:induction false} ContinuesMeans(op: Operation, first: Operation)
    requires Continues(op, first)
    ensures Allocated(op) && !First(op) && op.txType == first.txType
  {
    hide Allocated;
  }

  lemma {:induction false} CopiesIs(op: Operation, holder: seq<nat>)
    ensures Copies(op, holder) <==> Copied(op.txType, op, holder) && ChunkPublished(op.txType, op)
  {
  }

  lemma {:induction false} QuietOrSecond(op: Operation, first: Operation, k: nat)
    requires op.chunk == k > 0 && op.txType == first.txType
    ensures k == 1 && TwoSided(TxOf(first)) ==> QuietRight(op, first)
    ensures !(k == 1 && TwoSided(TxOf(first))) && IsGadget(first.txType) ==> Quiet(op)
  {
  }

  /** What was opened and continues an operation. */
  lemma {:induction false} OpensContinues(s: State, op: Operation, first: Operation, prev: Operation, ledger: Accounts, k: nat)
    requires Stands(first, ledger, k) && LastWas(s, prev) && Follows(prev, first) && s.nextChunk == k
    requires op.txType == first.txType && s.root == LedgerRoot(Standing(first, ledger, k))
    ensures Opens(s, op) <==>
              op.chunk == k && Continues(op, first) && BranchRoot(Select(op), USED_SUBTREE_DEPTH) == LedgerRoot(Standing(first, ledger, k))
  {
    StandsMeans(first, ledger, k);
    hide BranchRoot, LedgerRoot, Allocated, Standing, Stands, PubdataFields, NewHolders, Select, FSub, Geq, FirstPresents, FirstOk, CanExecute;
    if Allocated(op) {
      OpensIff(s, op);
    }
  }

  lemma {:induction false} GadgetCopies(op: Operation, cur: Branch, holder: seq<nat>)
    requires GadgetAccepts(op, cur, holder) && Publishes(op.txType)
    ensures Copied(op.txType, op, holder)
  {
    hide Copied, ChunkPublished, Update, Fits;
    ValidCopies(op, cur, holder);
  }

  lemma {:induction false} LaterChunkIff(s: State, op: Operation, first: Operation, prev: Operation, ledger: Accounts, k: nat)
    requires Stands(first, ledger, k) && LastWas(s, prev) && Follows(prev, first) && s.nextChunk == k
    requires s.root == LedgerRoot(Standing(first, ledger, k))
    ensures Accepts(s, op) && op.txType == first.txType <==>
              op.chunk == k && LaterPresents(op, first, Standing(first, ledger, k)) && CanExecute(TxOf(first), ledger)
  {
    AcceptsIff(s, op);
    StandsMeans(first, ledger, k);
    if op.txType == first.txType {
      OpensContinues(s, op, first, prev, ledger, k);
      if op.chunk == k && Continues(op, first) && BranchRoot(Select(op), USED_SUBTREE_DEPTH) == LedgerRoot(Standing(first, ledger, k)) {
        assert Allocated(op) && !First(op) && Publishes(op.txType);
        hide *;
        if PubdataFields(op.txType, op) == PubdataFields(op.txType, first) {
          LaterGadgetIff(s, op, first, prev, ledger, k);
        } else if GadgetAccepts(op, Select(op), Holder(s, op.txType)) {
          GadgetCopies(op, Select(op), Holder(s, op.txType));
          CopiedIff(s, op, prev, first);
        }
        LaterPresentsIs(op, first, Standing(first, ledger, k));
      }
    }
    hide *;
    LaterContinues(op, first, Standing(first, ledger, k));
  }

  lemma {:induction false} LaterPresentsIs(op: Operation, first: Operation, now: Accounts)
    requires Good(now)
    ensures LaterPresents(op, first, now) <==>
              && Continues(op, first) && BranchRoot(Select(op), USED_SUBTREE_DEPTH) == LedgerRoot(now)
              && PubdataFields(op.txType, op) == PubdataFields(op.txType, first) && ChunkPublished(op.txType, op)
              && QuietRight(op, first)
  {
  }

  lemma {:induction false} LaterContinues(op: Operation, first: Operation, now: Accounts)
    requires Good(now)
    ensures LaterPresents(op, first, now) ==>
              op.txType == first.txType && Continues(op, first) && BranchRoot(Select(op), USED_SUBTREE_DEPTH) == LedgerRoot(now)
  {
    hide BranchRoot, LedgerRoot, Allocated;
  }

  // ----- whole operations

  /** What the chunks of an operation have to show. */
  predicate Presents(ops: seq<Operation>, ledger: Accounts)
    requires Good(ledger)
  {
    && ops != [] && |ops| == Chunks(ops[0].txType) && FirstPresents(ops[0], ledger) && CanExecute(TxOf(ops[0]), ledger)
    && forall k :: 0 < k < |ops| ==> LaterAt(ops, ledger, k)
  }

  lemma {:induction false} AcceptOneMore(st: State, ops: seq<Operation>, op: Operation)
    requires AcceptsAll(st, ops) && Accepts(Run(st, ops), op)
    ensures AcceptsAll(st, ops + [op]) && Run(st, ops + [op]) == Next(Run(st, ops), op)
    decreases |ops|
  {
    hide Accepts, Next;
    if ops == [] {
      assert ops + [op] == [op];
    } else {
      assert (ops + [op])[0] == ops[0] && (ops + [op])[1..] == ops[1..] + [op];
      AcceptOneMore(Next(st, ops[0]), ops[1..], op);
    }
  }

  lemma {:induction false} NextRemembers(s: State, op: Operation)
    requires Accepts(s, op)
    ensures LastWas(Next(s, op), op)
  {
    hide Accepts, NewHolders;
  }

  lemma {:induction false} PartsFollow(ops: seq<Operation>, j: nat)
    requires IsOperation(ops) && j < |ops| && Allocated(ops[0]) && Allocated(ops[j])
    ensures Follows(ops[j], ops[0])
  {
    hide Allocated, Pubdata, PubdataFields;
    PubdataDeterminesFields(ops[0].txType, ops[j], ops[0]);
  }

  /** An accepted later chunk presents. */
  lemma {:induction false} AcceptedLater(st: State, ops: seq<Operation>, ledger: Accounts, k: nat)
    requires Good(ledger) && st.root == LedgerRoot(ledger) && AcceptsAll(st, ops) && IsOperation(ops) && 0 < k < |ops|
    requires FirstPresents(ops[0], ledger) && CanExecute(TxOf(ops[0]), ledger)
    ensures ops[k].chunk == k && LaterPresents(ops[k], ops[0], Reached(TxOf(ops[0]), ledger, k))
  {
    hide *;
    OperationPart(ops, k);
    PrefixReaches(ledger, st, ops, k);
    ReachedMeans(ledger, st, ops, k, StateAt(st, ops, k));
    StateAtStep(st, ops, k);
    StateAtStep(st, ops, k - 1);
    NextRemembers(StateAt(st, ops, k - 1), ops[k - 1]);
    AcceptedIsAllocated(StateAt(st, ops, k - 1), ops[k - 1]);
    FirstIsAllocated(ops[0], ledger);
    PartsFollow(ops, k - 1);
    StandsNow(ops[0], ledger, k);
    LaterChunkIff(StateAt(st, ops, k), ops[k], ops[0], ops[k - 1], ledger, k);
  }

  lemma {:induction false} OperationPart(ops: seq<Operation>, k: nat)
    requires IsOperation(ops) && k < |ops|
    ensures |ops| == Chunks(ops[0].txType) && ops[k].txType == ops[0].txType
  {
    hide Pubdata;
  }

  lemma {:induction false} ReachedMeans(ledger: Accounts, st: State, ops: seq<Operation>, k: nat, s: State)
    requires Good(ledger) && IsOperation(ops) && 0 < k < |ops| && ReachedState(ledger, st, ops, k, s)
    ensures FirstOk(TxOf(ops[0]), ledger) && (k > 1 ==> CanExecute(TxOf(ops[0]), ledger))
    ensures s.root == LedgerRoot(Reached(TxOf(ops[0]), ledger, k)) && s.nextChunk == k
  {
    hide IsOperation, FirstOk, CanExecute, LedgerRoot, Pubdata, Reached;
  }

  lemma {:induction false} StandsNow(first: Operation, ledger: Accounts, k: nat)
    requires Good(ledger) && FirstPresents(first, ledger) && 0 < k < Chunks(first.txType)
    requires k > 1 ==> CanExecute(TxOf(first), ledger)
    ensures Stands(first, ledger, k) && Standing(first, ledger, k) == Reached(TxOf(first), ledger, k)
  {
    hide FirstPresents, CanExecute, Reached;
  }

  lemma {:induction false} FirstIsAllocated(op: Operation, ledger: Accounts)
    requires Good(ledger) && FirstPresents(op, ledger)
    ensures Allocated(op) && First(op) && IsGadget(op.txType)
  {
    hide Allocated, BranchRoot, LedgerRoot, ArgumentsRight, SignedRight, PublishedRight, FirstOk, GoodAccount;
  }

  lemma {:induction false} AcceptedPresents(st: State, ops: seq<Operation>, ledger: Accounts)
    requires Good(ledger) && st.root == LedgerRoot(ledger) && st.nextChunk == 0 && AcceptsAll(st, ops) && IsOperation(ops)
    ensures Presents(ops, ledger)
  {
    hide *;
    SomeChunks(ops);
    OperationPart(ops, 0);
    RunFirst(st, ops);
    FirstChunkIff(st, ops[0], ledger);
    OperationExecutes(ledger, st, ops);
    forall k | 0 < k < |ops|
      ensures LaterAt(ops, ledger, k)
    {
      AcceptedLater(st, ops, ledger, k);
      LaterAtIs(ops, ledger, k);
    }
    PresentsIs(ops, ledger);
  }

  lemma {:induction false} SomeChunks(ops: seq<Operation>)
    requires IsOperation(ops)
    ensures ops != []
  {
    hide Pubdata;
  }

  predicate LaterAt(ops: seq<Operation>, ledger: Accounts, k: nat)
    requires Good(ledger) && 0 < k < |ops| && CanExecute(TxOf(ops[0]), ledger)
  {
    ops[k].chunk == k && LaterPresents(ops[k], ops[0], Reached(TxOf(ops[0]), ledger, k))
  }

  lemma {:induction false} LaterAtIs(ops: seq<Operation>, ledger: Accounts, k: nat)
    requires Good(ledger) && 0 < k < |ops| && CanExecute(TxOf(ops[0]), ledger)
    ensures LaterAt(ops, ledger, k) <==> ops[k].chunk == k && LaterPresents(ops[k], ops[0], Reached(TxOf(ops[0]), ledger, k))
  {
    hide LaterPresents, CanExecute, GoodAccount, Reached;
  }

  lemma {:induction false} PresentsIs(ops: seq<Operation>, ledger: Accounts)
    requires Good(ledger) && ops != [] && |ops| == Chunks(ops[0].txType) && FirstPresents(ops[0], ledger) && CanExecute(TxOf(ops[0]), ledger)
    requires forall k :: 0 < k < |ops| ==> LaterAt(ops, ledger, k)
    ensures Presents(ops, ledger)
  {
    hide FirstPresents, LaterAt, CanExecute, GoodAccount;
  }

  /** Chunk `j` of the operation that starts with `first`. */
  predicate PartOfOperation(op: Operation, first: Operation, t: nat, j: nat) {
    op.txType == t && op.chunk == j && op.args.SameAs(first.args) && Pubdata(t, op) == Pubdata(t, first)
  }

  lemma {:induction false} PartsMakeOperation(ops: seq<Operation>, t: nat)
    requires IsGadget(t) && |ops| == Chunks(t)
    requires forall j :: 0 <= j < |ops| ==> PartOfOperation(ops[j], ops[0], t, j)
    ensures IsOperation(ops)
  {
    hide Pubdata;
    assert PartOfOperation(ops[0], ops[0], t, 0);
  }

  lemma {:induction false} LaterIsPart(op: Operation, first: Operation, now: Accounts)
    requires Good(now) && LaterPresents(op, first, now) && Allocated(first)
    ensures Allocated(op) && PartOfOperation(op, first, first.txType, op.chunk)
  {
    hide PubdataFields, BranchRoot, LedgerRoot, Pubdata, ChunkPublished, QuietRight;
    FieldsMakeData(op.txType, op, first);
  }

  lemma {:induction false} PresentedIsOperation(ops: seq<Operation>, ledger: Accounts)
    requires Good(ledger) && Presents(ops, ledger)
    ensures IsOperation(ops) && forall j :: 0 <= j < |ops| ==> Allocated(ops[j])
  {
    assert FirstOk(TxOf(ops[0]), ledger);
    hide FirstPresents, LaterPresents, CanExecute, GoodAccount, PartOfOperation, Reached, Allocated, FirstOk, LaterAt;
    FirstIsAllocated(ops[0], ledger);
    FirstIsPart(ops[0]);
    forall j | 0 <= j < |ops|
      ensures PartOfOperation(ops[j], ops[0], ops[0].txType, j) && Allocated(ops[j])
    {
      if j > 0 {
        LaterAtIs(ops, ledger, j);
        LaterIsPart(ops[j], ops[0], Reached(TxOf(ops[0]), ledger, j));
      }
    }
    PartsMakeOperation(ops, ops[0].txType);
  }

  lemma {:induction false} FirstIsPart(op: Operation)
    requires First(op)
    ensures PartOfOperation(op, op, op.txType, 0)
  {
    hide Pubdata;
  }

  /** The state after the first `n` chunks of an operation. */
  predicate ReachedBy(ops: seq<Operation>, ledger: Accounts, st: State, n: nat)
    requires Good(ledger) && n <= |ops|
  {
    && IsOperation(ops) && AcceptsAll(st, ops[..n])
    && (n > 0 ==> ReachedState(ledger, st, ops, n, Run(st, ops[..n])) && LastWas(Run(st, ops[..n]), ops[n - 1]))
  }

  lemma {:induction false} OneMoreReached(ops: seq<Operation>, ledger: Accounts, st: State, n: nat)
    requires Good(ledger) && n < |ops| && ReachedBy(ops, ledger, st, n) && Accepts(Run(st, ops[..n]), ops[n])
    requires st.root == LedgerRoot(ledger) && Allocated(ops[0])
    ensures ReachedBy(ops, ledger, st, n + 1)
  {
    hide IsOperation, Accepts, Next, ReachedState, LastWas, GoodAccount, LedgerRoot, Allocated;
    var s, op := Run(st, ops[..n]), ops[n];
    AcceptOneMore(st, ops[..n], op);
    assert ops[..n + 1] == ops[..n] + [op];
    NextRemembers(s, op);
    AcceptedIsAllocated(s, op);
    if n == 0 {
      assert ops[..0] == [];
      FirstChunkReaches(ledger, st, ops);
    } else {
      NextChunkReaches(ledger, st, ops, n, s);
    }
  }

  lemma {:induction false} LaterAccepted(ops: seq<Operation>, ledger: Accounts, st: State, n: nat)
    requires Good(ledger) && Presents(ops, ledger) && 0 < n < |ops| && ReachedBy(ops, ledger, st, n)
    ensures Accepts(Run(st, ops[..n]), ops[n])
  {
    hide *;
    PresentedIsOperation(ops, ledger);
    PresentsMeans(ops, ledger, n);
    ReachedByMeans(ops, ledger, st, n);
    ReachedMeans(ledger, st, ops, n, Run(st, ops[..n]));
    PartsFollow(ops, n - 1);
    StandsNow(ops[0], ledger, n);
    LaterChunkIff(Run(st, ops[..n]), ops[n], ops[0], ops[n - 1], ledger, n);
  }

  lemma {:induction false} PresentsMeans(ops: seq<Operation>, ledger: Accounts, n: nat)
    requires Good(ledger) && Presents(ops, ledger) && n < |ops|
    ensures ops != [] && |ops| == Chunks(ops[0].txType) && FirstPresents(ops[0], ledger) && CanExecute(TxOf(ops[0]), ledger)
    ensures FirstOk(TxOf(ops[0]), ledger)
    ensures n > 0 ==> ops[n].chunk == n && LaterPresents(ops[n], ops[0], Reached(TxOf(ops[0]), ledger, n))
  {
    hide FirstPresents, LaterPresents, FirstOk, GoodAccount, Reached;
    assert n > 0 ==> LaterAt(ops, ledger, n);
  }

  lemma {:induction false} ReachedByMeans(ops: seq<Operation>, ledger: Accounts, st: State, n: nat)
    requires Good(ledger) && 0 < n <= |ops| && ReachedBy(ops, ledger, st, n)
    ensures IsOperation(ops) && AcceptsAll(st, ops[..n])
    ensures ReachedState(ledger, st, ops, n, Run(st, ops[..n])) && LastWas(Run(st, ops[..n]), ops[n - 1])
  {
    hide IsOperation, AcceptsAll, ReachedState, LastWas, GoodAccount;
  }

  lemma {:induction false} NothingReached(ops: seq<Operation>, ledger: Accounts, st: State)
    requires Good(ledger) && IsOperation(ops)
    ensures ReachedBy(ops, ledger, st, 0) && AcceptsAll(st, ops[..0]) && Run(st, ops[..0]) == st
  {
    hide IsOperation, GoodAccount;
    assert ops[..0] == [];
  }

  lemma {:induction false} PrefixAccepted(ops: seq<Operation>, ledger: Accounts, st: State, n: nat)
    requires Good(ledger) && Presents(ops, ledger) && st.root == LedgerRoot(ledger) && st.nextChunk == 0 && n <= |ops|
    ensures ReachedBy(ops, ledger, st, n)
  {
    hide *;
    PresentedIsOperation(ops, ledger);
    if n == 0 {
      NothingReached(ops, ledger, st);
    } else {
      PrefixAccepted(ops, ledger, st, n - 1);
      if n == 1 {
        NothingReached(ops, ledger, st);
        PresentsMeans(ops, ledger, 0);
        FirstChunkIff(st, ops[0], ledger);
      } else {
        ReachedByMeans(ops, ledger, st, n - 1);
        LaterAccepted(ops, ledger, st, n - 1);
      }
      OneMoreReached(ops, ledger, st, n - 1);
    }
  }

  lemma {:induction false} PresentedIsAccepted(ops: seq<Operation>, ledger: Accounts, st: State)
    requires Good(ledger) && Presents(ops, ledger) && st.root == LedgerRoot(ledger) && st.nextChunk == 0
    ensures AcceptsAll(st, ops) && IsOperation(ops)
  {
    PrefixAccepted(ops, ledger, st, |ops|);
    hide IsOperation, Accepts, Next, ReachedState, LastWas, GoodAccount, LedgerRoot, Presents;
    assert ops[..|ops|] == ops;
  }

  /** The acceptance theorem: the chunks of an operation are accepted on a ledger if and only if the operation
      is executable there and its chunks present it. */
  lemma {:induction false} OperationAcceptedIff(st: State, ops: seq<Operation>, ledger: Accounts)
    requires Good(ledger) && st.root == LedgerRoot(ledger) && st.nextChunk == 0
    ensures AcceptsAll(st, ops) && IsOperation(ops) <==> Presents(ops, ledger)
  {
    hide AcceptsAll, IsOperation, Presents, GoodAccount, LedgerRoot;
    if AcceptsAll(st, ops) && IsOperation(ops) {
      AcceptedPresents(st, ops, ledger);
    }
    if Presents(ops, ledger) {
      PresentedIsAccepted(ops, ledger, st);
    }
  }
}
