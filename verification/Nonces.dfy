/** Account nonces over whole blocks, and what they mean for signed messages. */
module Nonces {
  import opened Bits
  import opened Params
  import opened PrimeField
  import opened Witness
  import opened Gadgets
  import opened BlockSpec
  import opened Grammar
  import opened Ledger
  import opened Transactions
  import opened Execution
  import opened Soundness
  import opened Messages

  /** The operation uses up a nonce of the account in this slot. */
  predicate UsesNonce(tx: Tx, ledger: Accounts, slot: nat)
    requires Good(ledger)
  {
    && !tx.Noop? && Slot(FirstAccount(tx)) == slot
    && (tx.Transfer? || tx.TransferToNew? || tx.Withdraw? || tx.ForcedExit? || KeyChangeApplies(tx, ledger[slot]))
  }

  function NoncesUsed(txs: seq<Tx>, ledger: Accounts, slot: nat): nat
    requires Good(ledger) && CanExecuteAll(txs, ledger)
  {
    if txs == [] then 0
    else (if UsesNonce(txs[0], ledger, slot) then 1 else 0) + NoncesUsed(txs[1..], Execute(txs[0], ledger), slot)
  }

  lemma {:induction false} OperationNonce(tx: Tx, ledger: Accounts, slot: nat)
    requires Good(ledger) && CanExecute(tx, ledger) && slot < ACCOUNTS
    ensures Execute(tx, ledger)[slot].nonce == ledger[slot].nonce + (if UsesNonce(tx, ledger, slot) then 1 else 0)
  {
    hide Unpack, GoodAccount;
  }

  lemma {:induction false} RunNonce(txs: seq<Tx>, ledger: Accounts, slot: nat)
    requires Good(ledger) && CanExecuteAll(txs, ledger) && slot < ACCOUNTS
    ensures ExecuteAll(txs, ledger)[slot].nonce == ledger[slot].nonce + NoncesUsed(txs, ledger, slot)
    decreases |txs|
  {
    hide CanExecute, Execute, GoodAccount, UsesNonce;
    if txs != [] {
      OperationNonce(txs[0], ledger, slot);
      RunNonce(txs[1..], Execute(txs[0], ledger), slot);
    }
  }

  /** Over an accepted block every nonce rises by exactly the number of operations that used it, and
      never wraps. */
  lemma {:induction false} BlockNonces(block: Block, commitment: Commitment, ledger: Accounts, slot: nat)
    requires BlockAccepted(block, commitment) && |block.ops| < 0x1_0000_0000_0000_0000 && slot < ACCOUNTS
    requires Good(ledger) && block.oldRoot == FullRoot(LedgerRoot(ledger))
    ensures CanExecuteAll(TxsOf(block.ops), ledger) && Good(LedgerAfter(block, ledger))
    ensures LedgerAfter(block, ledger)[slot].nonce == ledger[slot].nonce + NoncesUsed(TxsOf(block.ops), ledger, slot)
    ensures ledger[slot].nonce + NoncesUsed(TxsOf(block.ops), ledger, slot) <= MAX_NONCE
  {
    hide BlockAccepted, LedgerRoot, FullRoot, TxsOf, CanExecuteAll, ExecuteAll, NoncesUsed, FeesIn;
    LedgerSoundness(block, commitment, ledger);
    RunNonce(TxsOf(block.ops), ledger, slot);
  }

  // ----- signatures

  /** The first chunk of each operation of a block. */
  function Firsts(ops: seq<Operation>): (fs: seq<Operation>)
    ensures |fs| == |TxsOf(ops)|
    ensures forall k :: 0 <= k < |fs| ==> TxsOf(ops)[k] == TxOf(fs[k])
    decreases |ops|
  {
    if ops == [] then []
    else
      var n := Chunks(ops[0].txType);
      if n > |ops| then [ops[0]] else [ops[0]] + Firsts(ops[n..])
  }

  /** The ledger before the k-th operation. */
  function LedgerBefore(txs: seq<Tx>, ledger: Accounts, k: nat): (r: Accounts)
    requires Good(ledger) && k <= |txs| && CanExecuteAll(txs, ledger)
    ensures Good(r)
    decreases k
  {
    if k == 0 then ledger else LedgerBefore(txs[1..], Execute(txs[0], ledger), k - 1)
  }

  lemma {:induction false} BeforeStep(txs: seq<Tx>, ledger: Accounts, k: nat)
    requires Good(ledger) && k < |txs| && CanExecuteAll(txs, ledger)
    ensures CanExecute(txs[k], LedgerBefore(txs, ledger, k))
    ensures LedgerBefore(txs, ledger, k + 1) == Execute(txs[k], LedgerBefore(txs, ledger, k))
    decreases k
  {
    hide CanExecute, Execute, Good;
    if k > 0 {
      BeforeStep(txs[1..], Execute(txs[0], ledger), k - 1);
    }
  }

  /** The first chunk of a signed operation carries a verified signature by the account's key (the new
      key, for a key change) on a message whose nonce is the account's nonce at that moment. */
  predicate Authorised(op: Operation, ledger: Accounts)
    requires Good(ledger)
  {
    var a := ledger[Slot(op.lhs.accountId)];
    && MessageSigned(op.txType, op)
    && op.signerKeyHash == (if op.txType == CHANGE_PUBKEY then op.args.newPubKeyHash else a.pubKeyHash)
    && op.lhs.nonce == a.nonce
    && F(a.nonce, NONCE_WIDTH) in MessageFields(op.txType, op)
  }

  lemma {:induction false} FirstChunkAuthorised(ledger: Accounts, st: State, op: Operation)
    requires Good(ledger) && Accepts(st, op) && First(op) && st.root == LedgerRoot(ledger) && Signed(op.txType)
    ensures Authorised(op, ledger)
  {
    hide LedgerRoot, PublishedAs, BranchRoot, MessageParts, Encode, Next, Unpack;
    ChunkIsLedgerStep(ledger, st, op);
    var fs := MessageFields(op.txType, op);
    assert fs[|fs| - 1] == F(op.lhs.nonce, NONCE_WIDTH);
  }

  predicate AuthorisedAt(ops: seq<Operation>, ledger: Accounts, k: nat) {
    && Good(ledger) && CanExecuteAll(TxsOf(ops), ledger) && k < |Firsts(ops)|
    && First(Firsts(ops)[k])
    && (Signed(Firsts(ops)[k].txType) ==> Authorised(Firsts(ops)[k], LedgerBefore(TxsOf(ops), ledger, k)))
  }

  /** A run of complete operations from the root of a ledger. */
  predicate Runs(ledger: Accounts, st: State, ops: seq<Operation>) {
    Good(ledger) && st.root == LedgerRoot(ledger) && IsBlock(ops) && AcceptsAll(st, ops) && CanExecuteAll(TxsOf(ops), ledger)
  }

  lemma {:induction false} RunsMeans(ledger: Accounts, st: State, ops: seq<Operation>)
    requires Runs(ledger, st, ops)
    ensures Good(ledger) && st.root == LedgerRoot(ledger) && IsBlock(ops) && AcceptsAll(st, ops)
    ensures CanExecuteAll(TxsOf(ops), ledger)
  {
  }

  lemma {:induction false} SomeFirst(ops: seq<Operation>, k: nat)
    requires k < |Firsts(ops)|
    ensures ops != []
  {
  }

  lemma {:induction false} RunAuthorised(ledger: Accounts, st: State, ops: seq<Operation>, k: nat)
    requires Runs(ledger, st, ops) && k < |Firsts(ops)|
    ensures AuthorisedAt(ops, ledger, k)
    decreases k
  {
    hide *;
    SomeFirst(ops, k);
    RunsMeans(ledger, st, ops);
    BlockHead(ops);
    RunFirst(st, ops);
    if k == 0 {
      AuthorisedHead(ledger, st, ops);
    } else {
      var n := Chunks(ops[0].txType);
      RunSplit(st, ops, n);
      OperationExecutes(ledger, st, ops[..n]);
      RestExecutes(ops, ledger, k);
      RestRuns(Execute(TxOf(ops[0]), ledger), StateAt(st, ops, n), ops[n..]);
      RunAuthorised(Execute(TxOf(ops[0]), ledger), StateAt(st, ops, n), ops[n..], k - 1);
      AuthorisedShift(ops, ledger, k);
    }
  }

  lemma {:induction false} RestRuns(ledger: Accounts, st: State, ops: seq<Operation>)
    requires Good(ledger) && IsBlock(ops) && AcceptsAll(st, ops) && st.root == LedgerRoot(ledger)
    requires CanExecuteAll(TxsOf(ops), ledger)
    ensures Runs(ledger, st, ops)
  {
  }

  lemma {:induction false} AuthorisedHead(ledger: Accounts, st: State, ops: seq<Operation>)
    requires Good(ledger) && ops != [] && Accepts(st, ops[0]) && First(ops[0]) && st.root == LedgerRoot(ledger)
    requires CanExecuteAll(TxsOf(ops), ledger)
    ensures AuthorisedAt(ops, ledger, 0)
  {
    hide Accepts, LedgerRoot, Authorised, CanExecute, Execute, TxOf, GoodAccount;
    if Signed(ops[0].txType) {
      FirstChunkAuthorised(ledger, st, ops[0]);
    }
  }

  lemma {:induction false} RestExecutes(ops: seq<Operation>, ledger: Accounts, k: nat)
    requires ops != [] && Chunks(ops[0].txType) <= |ops| && Good(ledger) && CanExecuteAll(TxsOf(ops), ledger)
    requires 0 < k < |Firsts(ops)|
    ensures var rest := ops[Chunks(ops[0].txType)..];
            CanExecute(TxOf(ops[0]), ledger) && CanExecuteAll(TxsOf(rest), Execute(TxOf(ops[0]), ledger)) && k - 1 < |Firsts(rest)|
  {
    hide TxOf, CanExecute, Execute, GoodAccount;
    FirstsHead(ops);
  }

  lemma {:induction false} AuthorisedShift(ops: seq<Operation>, ledger: Accounts, k: nat)
    requires ops != [] && Chunks(ops[0].txType) <= |ops| && Good(ledger) && CanExecuteAll(TxsOf(ops), ledger)
    requires CanExecute(TxOf(ops[0]), ledger) && 0 < k < |Firsts(ops)|
    requires var rest := ops[Chunks(ops[0].txType)..];
             CanExecuteAll(TxsOf(rest), Execute(TxOf(ops[0]), ledger)) && k - 1 < |Firsts(rest)|
             && AuthorisedAt(rest, Execute(TxOf(ops[0]), ledger), k - 1)
    ensures AuthorisedAt(ops, ledger, k)
  {
    hide TxOf, CanExecute, Execute, Good, Authorised, First, LedgerBefore, CanExecuteAll, Firsts, TxsOf;
    FirstsHead(ops);
    BeforeShift(TxsOf(ops), ledger, k);
  }

  lemma {:induction false} FirstsHead(ops: seq<Operation>)
    requires ops != [] && Chunks(ops[0].txType) <= |ops|
    ensures var rest := ops[Chunks(ops[0].txType)..];
            && Firsts(ops) == [ops[0]] + Firsts(rest) && TxsOf(ops) == [TxOf(ops[0])] + TxsOf(rest)
            && TxsOf(ops)[0] == TxOf(ops[0]) && TxsOf(ops)[1..] == TxsOf(rest)
  {
    hide TxOf;
  }

  lemma {:induction false} BeforeShift(txs: seq<Tx>, ledger: Accounts, k: nat)
    requires Good(ledger) && CanExecuteAll(txs, ledger) && 0 < k <= |txs|
    ensures CanExecute(txs[0], ledger) && CanExecuteAll(txs[1..], Execute(txs[0], ledger))
    ensures LedgerBefore(txs, ledger, k) == LedgerBefore(txs[1..], Execute(txs[0], ledger), k - 1)
  {
  }

  lemma {:induction false} NonceBefore(txs: seq<Tx>, ledger: Accounts, slot: nat, j: nat, k: nat)
    requires Good(ledger) && CanExecuteAll(txs, ledger) && slot < ACCOUNTS && j <= k <= |txs|
    ensures LedgerBefore(txs, ledger, j)[slot].nonce <= LedgerBefore(txs, ledger, k)[slot].nonce
    ensures j < k && UsesNonce(txs[j], LedgerBefore(txs, ledger, j), slot) ==>
              LedgerBefore(txs, ledger, j)[slot].nonce < LedgerBefore(txs, ledger, k)[slot].nonce
    decreases k
  {
    hide CanExecute, Execute, UsesNonce, LedgerBefore, CanExecuteAll, GoodAccount;
    if j < k {
      NonceBefore(txs, ledger, slot, j, k - 1);
      BeforeStep(txs, ledger, k - 1);
      OperationNonce(txs[k - 1], LedgerBefore(txs, ledger, k - 1), slot);
    }
  }

  lemma {:induction false} FirstsAllocated(ops: seq<Operation>, k: nat)
    requires k < |Firsts(ops)| && forall i :: 0 <= i < |ops| ==> Allocated(ops[i])
    ensures Allocated(Firsts(ops)[k])
    decreases |ops|
  {
    hide Allocated;
    var n := Chunks(ops[0].txType);
    if k > 0 {
      FirstsAllocated(ops[n..], k - 1);
    }
  }

  /** Operations authorised for different nonces carry different messages. */
  lemma {:induction false} OtherNonceOtherMessage(p: Operation, q: Operation, before: Accounts, later: Accounts)
    requires Allocated(p) && Allocated(q) && First(p) && First(q) && Signed(p.txType) && Signed(q.txType)
    requires Good(before) && Good(later) && Authorised(p, before) && Authorised(q, later) && p.lhs.nonce != q.lhs.nonce
    ensures p.messageParts != q.messageParts
  {
    hide Allocated, Signed, MessageSigned, MessageFields, SameSigned, GoodAccount;
    if p.messageParts == q.messageParts {
      MessageDetermines(p, q);
    }
  }

  /** No replay inside a block: every signed operation is authorised for its account's current nonce,
      and once an operation used a nonce, every later operation of the account is signed for a larger one,
      so its message is another one. */
  lemma {:induction false} NoReplay(block: Block, commitment: Commitment, ledger: Accounts, j: nat, k: nat)
    requires BlockAccepted(block, commitment) && |block.ops| < 0x1_0000_0000_0000_0000
    requires Good(ledger) && block.oldRoot == FullRoot(LedgerRoot(ledger))
    requires j < k < |Firsts(block.ops)|
    requires var p, q := Firsts(block.ops)[j], Firsts(block.ops)[k];
             Signed(p.txType) && Signed(q.txType) && Slot(p.lhs.accountId) == Slot(q.lhs.accountId)
    ensures CanExecuteAll(TxsOf(block.ops), ledger)
    ensures Authorised(Firsts(block.ops)[k], LedgerBefore(TxsOf(block.ops), ledger, k))
    ensures UsesNonce(TxsOf(block.ops)[j], LedgerBefore(TxsOf(block.ops), ledger, j), Slot(Firsts(block.ops)[j].lhs.accountId)) ==>
              && Firsts(block.ops)[j].lhs.nonce < Firsts(block.ops)[k].lhs.nonce
              && Firsts(block.ops)[j].messageParts != Firsts(block.ops)[k].messageParts
  {
    NoncesRise(block, commitment, ledger, j, k);
    RunAllocated(Initial(block.initialSubroot), block.ops);
    hide BlockAccepted, AcceptsAll, Next, LedgerRoot, FullRoot, TxsOf, CanExecuteAll, LedgerBefore, UsesNonce, Authorised, Firsts, Good,
      Signed, Allocated;
    FirstsAllocated(block.ops, j);
    FirstsAllocated(block.ops, k);
    if Firsts(block.ops)[j].lhs.nonce < Firsts(block.ops)[k].lhs.nonce {
      OtherNonceOtherMessage(Firsts(block.ops)[j], Firsts(block.ops)[k],
                             LedgerBefore(TxsOf(block.ops), ledger, j), LedgerBefore(TxsOf(block.ops), ledger, k));
    }
  }

  lemma {:induction false} NoncesRise(block: Block, commitment: Commitment, ledger: Accounts, j: nat, k: nat)
    requires BlockAccepted(block, commitment) && |block.ops| < 0x1_0000_0000_0000_0000
    requires Good(ledger) && block.oldRoot == FullRoot(LedgerRoot(ledger))
    requires j < k < |Firsts(block.ops)|
    requires var p, q := Firsts(block.ops)[j], Firsts(block.ops)[k];
             Signed(p.txType) && Signed(q.txType) && Slot(p.lhs.accountId) == Slot(q.lhs.accountId)
    ensures CanExecuteAll(TxsOf(block.ops), ledger)
    ensures First(Firsts(block.ops)[j]) && First(Firsts(block.ops)[k])
    ensures Authorised(Firsts(block.ops)[j], LedgerBefore(TxsOf(block.ops), ledger, j))
    ensures Authorised(Firsts(block.ops)[k], LedgerBefore(TxsOf(block.ops), ledger, k))
    ensures UsesNonce(TxsOf(block.ops)[j], LedgerBefore(TxsOf(block.ops), ledger, j), Slot(Firsts(block.ops)[j].lhs.accountId)) ==>
              Firsts(block.ops)[j].lhs.nonce < Firsts(block.ops)[k].lhs.nonce
  {
    hide Accepts, AcceptsAll, Next, LedgerRoot, IsBlock, TxsOf, CanExecuteAll, PublishedBy, LedgerBefore, UsesNonce,
      MessageSigned, MessageFields, Firsts, FeesCredited, NewRoot, GoodAccount, Signed;
    LedgerSoundness(block, commitment, ledger);
    AcceptedBlockIsWellFormed(block, commitment);
    InitialRoot(block, commitment, ledger);
    RunAuthorised(ledger, Initial(block.initialSubroot), block.ops, j);
    RunAuthorised(ledger, Initial(block.initialSubroot), block.ops, k);
    NonceBefore(TxsOf(block.ops), ledger, Slot(Firsts(block.ops)[j].lhs.accountId), j, k);
  }
}
