/** When a signed message can be used twice: exactly when the operation it authorised used no nonce. */
module Replay {
  import opened Bits
  import opened Params
  import opened PrimeField
  import opened Witness
  import opened Gadgets
  import opened BlockSpec
  import opened Grammar
  import opened Ledger
  import opened Transactions
  import opened Execution
  import opened Soundness
  import opened Messages
  import opened Nonces
  import opened Acceptance
  import opened Prover
  import opened Blocks
  import opened Completeness
  import Conservation
  import opened Restoration

  /** Two operations of a block carry one signed message. */
  predicate MessageTwice(ops: seq<Operation>, j: nat, k: nat) {
    && j < k < |Firsts(ops)|
    && Signed(Firsts(ops)[j].txType) && Signed(Firsts(ops)[k].txType)
    && Firsts(ops)[j].messageParts == Firsts(ops)[k].messageParts
  }

  predicate SignedTx(tx: Tx) {
    tx.Transfer? || tx.TransferToNew? || tx.Withdraw? || tx.ForcedExit? || tx.ChangePubKey?
  }

  /** A key change that leaves its account as it is: the published nonce is foreign, or the last one. */
  predicate HasNoEffect(tx: Tx, ledger: Accounts)
    requires Good(ledger)
  {
    tx.ChangePubKey? && (tx.nonce != ledger[Slot(tx.account)].nonce || tx.nonce == MAX_NONCE)
  }

  lemma {:induction false} NoEffectIff(tx: Tx, ledger: Accounts)
    requires Good(ledger) && SignedTx(tx)
    ensures HasNoEffect(tx, ledger) <==> !UsesNonce(tx, ledger, Slot(FirstAccount(tx)))
  {
    hide GoodAccount;
  }

  lemma {:induction false} NoEffectNoChange(tx: Tx, ledger: Accounts)
    requires Good(ledger) && CanExecute(tx, ledger) && HasNoEffect(tx, ledger)
    ensures Execute(tx, ledger) == ledger
  {
    hide GoodAccount;
  }

  // ----- a repeated message

  /** The accounts of two first chunks with one message. */
  lemma {:induction false} SameAccount(p: Operation, q: Operation)
    requires Allocated(p) && Allocated(q) && First(p) && First(q) && Signed(p.txType) && Signed(q.txType)
    requires MessageSigned(p.txType, p) && MessageSigned(q.txType, q) && p.messageParts == q.messageParts
    ensures p.lhs.accountId == q.lhs.accountId && p.lhs.nonce == q.lhs.nonce
  {
    hide MessageSigned, Allocated, MessageFields;
    MessageDetermines(p, q);
  }

  lemma {:induction false} FirstIsAuthorised(block: Block, commitment: Commitment, ledger: Accounts, k: nat)
    requires BlockAccepted(block, commitment) && |block.ops| < 0x1_0000_0000_0000_0000
    requires Good(ledger) && block.oldRoot == FullRoot(LedgerRoot(ledger)) && k < |Firsts(block.ops)|
    ensures CanExecuteAll(TxsOf(block.ops), ledger) && AuthorisedAt(block.ops, ledger, k) && Allocated(Firsts(block.ops)[k])
  {
    hide Accepts, AcceptsAll, Next, LedgerRoot, IsBlock, TxsOf, CanExecuteAll, PublishedBy, Firsts, FeesCredited, NewRoot, GoodAccount,
      AuthorisedAt, Allocated;
    LedgerSoundness(block, commitment, ledger);
    AcceptedBlockIsWellFormed(block, commitment);
    InitialRoot(block, commitment, ledger);
    RunAllocated(Initial(block.initialSubroot), block.ops);
    FirstsAllocated(block.ops, k);
    RunAuthorised(ledger, Initial(block.initialSubroot), block.ops, k);
  }

  /** What the first chunk of an operation of a block says about its transaction. */
  lemma {:induction false} FirstSpeaks(op: Operation)
    requires Signed(op.txType)
    ensures SignedTx(TxOf(op)) && FirstAccount(TxOf(op)) == op.lhs.accountId
  {
  }

  /** The operation that first carries a repeated message used no nonce: it was a key change without effect. */
  lemma {:induction false} RepeatedHadNoEffect(block: Block, commitment: Commitment, ledger: Accounts, j: nat, k: nat)
    requires BlockAccepted(block, commitment) && |block.ops| < 0x1_0000_0000_0000_0000
    requires Good(ledger) && block.oldRoot == FullRoot(LedgerRoot(ledger)) && MessageTwice(block.ops, j, k)
    ensures CanExecuteAll(TxsOf(block.ops), ledger)
    ensures HasNoEffect(TxsOf(block.ops)[j], LedgerBefore(TxsOf(block.ops), ledger, j))
  {
    hide BlockAccepted, LedgerRoot, FullRoot, TxsOf, CanExecuteAll, Firsts, GoodAccount, LedgerBefore, UsesNonce, HasNoEffect, TxOf,
      Allocated, MessageSigned, MessageFields, Signed, SignedTx, FirstAccount;
    FirstIsAuthorised(block, commitment, ledger, j);
    FirstIsAuthorised(block, commitment, ledger, k);
    var p, q := Firsts(block.ops)[j], Firsts(block.ops)[k];
    SameAccount(p, q);
    NoReplay(block, commitment, ledger, j, k);
    FirstSpeaks(p);
    NoEffectIff(TxsOf(block.ops)[j], LedgerBefore(TxsOf(block.ops), ledger, j));
  }

  // ----- over a chain of blocks

  /** The ledger before a block of a chain. */
  function LedgerAt(blocks: seq<Block>, commitments: seq<Commitment>, ledger: Accounts, b: nat): (r: Accounts)
    requires Good(ledger) && Proven(blocks, commitments, ledger) && b <= |blocks|
    ensures Good(r)
    decreases b
  {
    if b == 0 then ledger
    else
      (LedgerSoundness(blocks[0], commitments[0], ledger);
       LedgerAt(blocks[1..], commitments[1..], LedgerAfter(blocks[0], ledger), b - 1))
  }

  /** The block at this place is accepted from the ledger before it. */
  lemma {:induction false} BlockOfChain(blocks: seq<Block>, commitments: seq<Commitment>, ledger: Accounts, b: nat)
    requires Good(ledger) && Proven(blocks, commitments, ledger) && b < |blocks|
    ensures b < |commitments| && BlockAccepted(blocks[b], commitments[b]) && |blocks[b].ops| < 0x1_0000_0000_0000_0000
    ensures blocks[b].oldRoot == FullRoot(LedgerRoot(LedgerAt(blocks, commitments, ledger, b)))
    decreases b
  {
    hide BlockAccepted, LedgerRoot, FullRoot, GoodAccount, LedgerAfter, TxsOf, CanExecuteAll;
    if b > 0 {
      LedgerSoundness(blocks[0], commitments[0], ledger);
      BlockOfChain(blocks[1..], commitments[1..], LedgerAfter(blocks[0], ledger), b - 1);
    }
  }

  lemma {:induction false} NoncesGrow(blocks: seq<Block>, commitments: seq<Commitment>, ledger: Accounts, b: nat, slot: nat)
    requires Good(ledger) && Proven(blocks, commitments, ledger) && b <= |blocks| && slot < ACCOUNTS
    ensures LedgerAt(blocks, commitments, ledger, b)[slot].nonce >= ledger[slot].nonce
    decreases b
  {
    hide BlockAccepted, LedgerRoot, FullRoot, GoodAccount, LedgerAfter, TxsOf, CanExecuteAll, NoncesUsed;
    if b > 0 {
      LedgerSoundness(blocks[0], commitments[0], ledger);
      BlockNonces(blocks[0], commitments[0], ledger, slot);
      NoncesGrow(blocks[1..], commitments[1..], LedgerAfter(blocks[0], ledger), b - 1, slot);
    }
  }

  lemma {:induction false} AllExecuted(txs: seq<Tx>, ledger: Accounts)
    requires Good(ledger) && CanExecuteAll(txs, ledger)
    ensures LedgerBefore(txs, ledger, |txs|) == ExecuteAll(txs, ledger)
    decreases |txs|
  {
    hide CanExecute, Execute, GoodAccount;
    if txs != [] {
      AllExecuted(txs[1..], Execute(txs[0], ledger));
    }
  }

  lemma {:induction false} BeforeNothing(txs: seq<Tx>, ledger: Accounts)
    requires Good(ledger) && CanExecuteAll(txs, ledger)
    ensures LedgerBefore(txs, ledger, 0) == ledger
  {
  }

  /** After the block the nonce that was used is below the account's. */
  lemma {:induction false} UsedNonceIsPast(block: Block, commitment: Commitment, ledger: Accounts, j: nat, slot: nat)
    requires BlockAccepted(block, commitment) && |block.ops| < 0x1_0000_0000_0000_0000 && slot < ACCOUNTS
    requires Good(ledger) && block.oldRoot == FullRoot(LedgerRoot(ledger)) && j < |TxsOf(block.ops)|
    ensures CanExecuteAll(TxsOf(block.ops), ledger) && Good(LedgerAfter(block, ledger))
    ensures UsesNonce(TxsOf(block.ops)[j], LedgerBefore(TxsOf(block.ops), ledger, j), slot) ==>
              LedgerBefore(TxsOf(block.ops), ledger, j)[slot].nonce < LedgerAfter(block, ledger)[slot].nonce
  {
    hide BlockAccepted, LedgerRoot, FullRoot, GoodAccount, TxsOf, CanExecuteAll, LedgerBefore, UsesNonce, FeesIn, ExecuteAll;
    LedgerSoundness(block, commitment, ledger);
    NonceBefore(TxsOf(block.ops), ledger, slot, j, |TxsOf(block.ops)|);
    AllExecuted(TxsOf(block.ops), ledger);
  }

  /** Two operations of different blocks carry one signed message. */
  predicate MessageAgain(x: seq<Operation>, y: seq<Operation>, j: nat, k: nat) {
    && j < |Firsts(x)| && k < |Firsts(y)|
    && Signed(Firsts(x)[j].txType) && Signed(Firsts(y)[k].txType)
    && Firsts(x)[j].messageParts == Firsts(y)[k].messageParts
  }

  lemma {:induction false} LaterBlock(
    blocks: seq<Block>, commitments: seq<Commitment>, ledger: Accounts, y: nat, j: nat, k: nat)
    requires Good(ledger) && Proven(blocks, commitments, ledger) && 0 < y < |blocks|
    requires MessageAgain(blocks[0].ops, blocks[y].ops, j, k)
    ensures CanExecuteAll(TxsOf(blocks[0].ops), ledger)
    ensures HasNoEffect(TxsOf(blocks[0].ops)[j], LedgerBefore(TxsOf(blocks[0].ops), ledger, j))
  {
    hide BlockAccepted, LedgerRoot, FullRoot, TxsOf, CanExecuteAll, Firsts, GoodAccount, LedgerBefore, UsesNonce, HasNoEffect, TxOf,
      Allocated, MessageSigned, MessageFields, Signed, SignedTx, FirstAccount, LedgerAfter;
    var first, later := blocks[0], blocks[y];
    var now := LedgerAt(blocks, commitments, ledger, y);
    BlockOfChain(blocks, commitments, ledger, 0);
    BlockOfChain(blocks, commitments, ledger, y);
    FirstIsAuthorised(first, commitments[0], ledger, j);
    FirstIsAuthorised(later, commitments[y], now, k);
    var p, q := Firsts(first.ops)[j], Firsts(later.ops)[k];
    SameAccount(p, q);
    var slot := Slot(p.lhs.accountId);
    UsedNonceIsPast(first, commitments[0], ledger, j, slot);
    LedgerSoundness(first, commitments[0], ledger);
    NoncesGrow(blocks[1..], commitments[1..], LedgerAfter(first, ledger), y - 1, slot);
    NonceBefore(TxsOf(later.ops), now, slot, 0, k);
    BeforeNothing(TxsOf(later.ops), now);
    assert Slot(q.lhs.accountId) == slot;
    FirstSpeaks(p);
    NoEffectIff(TxsOf(first.ops)[j], LedgerBefore(TxsOf(first.ops), ledger, j));
  }

  /** Over a chain of accepted blocks as well: a message that is used again authorised an operation without
      effect the first time. */
  lemma {:induction false} RepeatedLaterHadNoEffect(
    blocks: seq<Block>, commitments: seq<Commitment>, ledger: Accounts, x: nat, y: nat, j: nat, k: nat)
    requires Good(ledger) && Proven(blocks, commitments, ledger) && x < y < |blocks|
    requires MessageAgain(blocks[x].ops, blocks[y].ops, j, k)
    ensures var before := LedgerAt(blocks, commitments, ledger, x);
            && CanExecuteAll(TxsOf(blocks[x].ops), before)
            && HasNoEffect(TxsOf(blocks[x].ops)[j], LedgerBefore(TxsOf(blocks[x].ops), before, j))
    decreases x
  {
    hide BlockAccepted, LedgerRoot, FullRoot, TxsOf, CanExecuteAll, Firsts, GoodAccount, LedgerBefore, HasNoEffect, MessageAgain, LedgerAfter;
    if x == 0 {
      LaterBlock(blocks, commitments, ledger, y, j, k);
    } else {
      LedgerSoundness(blocks[0], commitments[0], ledger);
      RepeatedLaterHadNoEffect(blocks[1..], commitments[1..], LedgerAfter(blocks[0], ledger), x - 1, y - 1, j, k);
    }
  }

  // ----- lists of operations

  lemma {:induction false} ExecuteConcat(x: seq<Tx>, y: seq<Tx>, ledger: Accounts)
    requires Good(ledger)
    ensures CanExecuteAll(x + y, ledger) <==> CanExecuteAll(x, ledger) && CanExecuteAll(y, ExecuteAll(x, ledger))
    ensures CanExecuteAll(x + y, ledger) ==> ExecuteAll(x + y, ledger) == ExecuteAll(y, ExecuteAll(x, ledger))
    decreases |x|
  {
    hide CanExecute, Execute, GoodAccount;
    if x == [] {
      assert x + y == y;
    } else {
      assert (x + y)[0] == x[0] && (x + y)[1..] == x[1..] + y;
      if CanExecute(x[0], ledger) {
        ExecuteConcat(x[1..], y, Execute(x[0], ledger));
      }
    }
  }

  lemma {:induction false} BeforeIsExecuted(x: seq<Tx>, y: seq<Tx>, ledger: Accounts)
    requires Good(ledger) && CanExecuteAll(x + y, ledger)
    ensures CanExecuteAll(x, ledger) && LedgerBefore(x + y, ledger, |x|) == ExecuteAll(x, ledger)
    decreases |x|
  {
    hide CanExecute, Execute, GoodAccount;
    if x != [] {
      assert (x + y)[0] == x[0] && (x + y)[1..] == x[1..] + y;
      BeforeIsExecuted(x[1..], y, Execute(x[0], ledger));
    }
  }

  lemma {:induction false} CountConcat(x: seq<Tx>, y: seq<Tx>)
    ensures ChunkCount(x + y) == ChunkCount(x) + ChunkCount(y)
  {
    if x == [] {
      assert x + y == y;
    } else {
      assert (x + y)[0] == x[0] && (x + y)[1..] == x[1..] + y;
      CountConcat(x[1..], y);
    }
  }

  /** The first chunks of the honest block. */
  lemma {:induction false} HonestFirsts(txs: seq<Tx>, ledger: Accounts, feeAccount: nat, k: nat)
    requires Good(ledger) && CanExecuteAll(txs, ledger) && AllFit(txs) && feeAccount < 0x1_0000_0000 && k < |txs|
    ensures var fs := Firsts(OpsForAll(txs, ledger, feeAccount));
            && k < |fs| && CanExecute(txs[k], LedgerBefore(txs, ledger, k))
            && fs[k] == OpsFor(txs[k], LedgerBefore(txs, ledger, k), feeAccount)[0] && fs[k].txType == Code(txs[k])
    decreases k
  {
    hide CanExecute, Execute, GoodAccount, OpsFor, Presents, TxFits, TxOf;
    HeadOfAll(txs, ledger, feeAccount);
    OpsPresent(txs[0], ledger, feeAccount);
    var ops, rest := OpsFor(txs[0], ledger, feeAccount), OpsForAll(txs[1..], Execute(txs[0], ledger), feeAccount);
    var all := OpsForAll(txs, ledger, feeAccount);
    assert all == ops + rest && all[0] == ops[0] && Chunks(all[0].txType) == |ops|;
    assert all[|ops|..] == rest;
    assert Firsts(all) == [ops[0]] + Firsts(rest);
    if k > 0 {
      HonestFirsts(txs[1..], Execute(txs[0], ledger), feeAccount, k - 1);
    }
  }

  // ----- the theorem

  /** An accepted block over a ledger starts with these operations and then this one, and uses the message of
      this one again. */
  predicate Repeats(block: Block, commitment: Commitment, ledger: Accounts, before: seq<Tx>, tx: Tx, validator: nat, k: nat)
    requires Good(ledger)
  {
    && BlockRuns(block, commitment, ledger, TxsOf(block.ops), validator)
    && before + [tx] <= TxsOf(block.ops) && MessageTwice(block.ops, |before|, k)
  }

  ghost predicate CanRepeat(ledger: Accounts, before: seq<Tx>, tx: Tx, validator: nat)
    requires Good(ledger)
  {
    exists block: Block, commitment: Commitment, k: nat :: Repeats(block, commitment, ledger, before, tx, validator, k)
  }

  /** Blocks have room for the operation once more, and the validator can take its fee twice. */
  predicate HasRoom(ledger: Accounts, before: seq<Tx>, tx: Tx, validator: nat)
    requires Good(ledger) && CanExecuteAll(before + [tx], ledger)
  {
    && AllFit(before + [tx]) && ChunkCount(before + [tx, tx]) < 0x1_0000_0000_0000_0000
    && validator < 0x1_0000_0000 && ValidatorReady(ExecuteAll(before + [tx], ledger), validator, before + [tx, tx])
  }

  lemma {:induction false} RepeatHadNoEffect(ledger: Accounts, before: seq<Tx>, tx: Tx, validator: nat)
    requires Good(ledger) && CanRepeat(ledger, before, tx, validator)
    ensures CanExecuteAll(before, ledger) && HasNoEffect(tx, ExecuteAll(before, ledger))
  {
    hide BlockAccepted, LedgerRoot, FullRoot, TxsOf, GoodAccount, MessageTwice, LedgerBefore, HasNoEffect, CanExecuteAll, ExecuteAll;
    var block: Block, commitment: Commitment, k: nat :| Repeats(block, commitment, ledger, before, tx, validator, k);
    RepeatedHadNoEffect(block, commitment, ledger, |before|, k);
    var txs, rest := TxsOf(block.ops), TxsOf(block.ops)[|before|..];
    assert txs == before + rest && txs[|before|] == tx;
    BeforeIsExecuted(before, rest, ledger);
  }

  /** An operation without effect can be executed again at once, and changes nothing again. */
  lemma {:induction false} TwiceIsExecutable(ledger: Accounts, before: seq<Tx>, tx: Tx)
    requires Good(ledger) && CanExecuteAll(before + [tx], ledger)
    requires CanExecuteAll(before, ledger) && HasNoEffect(tx, ExecuteAll(before, ledger))
    ensures CanExecuteAll(before + [tx, tx], ledger)
    ensures ExecuteAll(before + [tx, tx], ledger) == ExecuteAll(before + [tx], ledger) == ExecuteAll(before, ledger)
  {
    var l := ExecuteAll(before, ledger);
    ExecuteConcat(before, [tx], ledger);
    assert CanExecuteAll([tx], l) ==> CanExecute(tx, l);
    NoEffectNoChange(tx, l);
    hide CanExecute, Execute, GoodAccount, HasNoEffect;
    assert [tx][1..] == [] && [tx, tx][1..] == [tx];
    assert ExecuteAll([], l) == l && CanExecuteAll([], l);
    assert CanExecuteAll([tx], l) && ExecuteAll([tx], l) == l;
    assert CanExecuteAll([tx, tx], l) && ExecuteAll([tx, tx], l) == l;
    ExecuteConcat(before, [tx, tx], ledger);
  }

  /** The two honest operations are one and the same, so their messages are. */
  lemma {:induction false} HonestRepeats(ledger: Accounts, before: seq<Tx>, tx: Tx, feeAccount: nat)
    requires AllFit(before + [tx, tx]) && feeAccount < 0x1_0000_0000
    requires Good(ledger) && CanExecuteAll(before + [tx, tx], ledger) && SignedTx(tx)
    requires CanExecuteAll(before, ledger) && HasNoEffect(tx, ExecuteAll(before, ledger))
    ensures MessageTwice(OpsForAll(before + [tx, tx], ledger, feeAccount), |before|, |before| + 1)
  {
    hide GoodAccount, OpsFor, AllFit, OpsForAll, HasNoEffect, LedgerBefore, CanExecuteAll, ExecuteAll, CanExecute, Execute, Firsts;
    var txs, n := before + [tx, tx], |before|;
    assert txs[n] == tx && txs[n + 1] == tx;
    BeforeIsExecuted(before, [tx, tx], ledger);
    BeforeStep(txs, ledger, n);
    NoEffectNoChange(tx, ExecuteAll(before, ledger));
    HonestFirsts(txs, ledger, feeAccount, n);
    HonestFirsts(txs, ledger, feeAccount, n + 1);
    SignedCode(tx);
  }

  lemma {:induction false} SignedCode(tx: Tx)
    requires SignedTx(tx)
    ensures Signed(Code(tx))
  {
  }

  lemma {:induction false} FitsTwice(before: seq<Tx>, tx: Tx)
    requires AllFit(before + [tx])
    ensures AllFit(before + [tx, tx])
  {
    hide TxFits;
    var txs := before + [tx, tx];
    assert (before + [tx])[|before|] == tx;
    forall i | 0 <= i < |txs|
      ensures TxFits(txs[i])
    {
      assert i <= |before| ==> txs[i] == (before + [tx])[i];
    }
  }

  lemma {:induction false} RepeatIsProvable(ledger: Accounts, before: seq<Tx>, tx: Tx, validator: nat)
    requires Good(ledger) && CanExecuteAll(before + [tx], ledger) && HasRoom(ledger, before, tx, validator)
    requires CanExecuteAll(before, ledger) && HasNoEffect(tx, ExecuteAll(before, ledger))
    ensures Provable(ledger, before + [tx, tx], validator)
  {
    hide GoodAccount, HasNoEffect, CanExecuteAll, ExecuteAll, AllFit, ChunkCount, ValidatorReady;
    TwiceIsExecutable(ledger, before, tx);
    FitsTwice(before, tx);
  }

  lemma {:induction false} ProvableFits(ledger: Accounts, txs: seq<Tx>, validator: nat)
    requires Good(ledger) && Provable(ledger, txs, validator)
    ensures CanExecuteAll(txs, ledger) && AllFit(txs) && validator < 0x1_0000_0000
  {
    hide ChunkCount, AllFit, ValidatorReady, CanExecuteAll, GoodAccount;
  }

  lemma {:induction false} HonestBlockRuns(ledger: Accounts, txs: seq<Tx>, validator: nat)
    requires Good(ledger) && Provable(ledger, txs, validator)
    ensures CanExecuteAll(txs, ledger)
    ensures exists commitment :: BlockRuns(BlockFor(0, ledger, txs, validator), commitment, ledger, txs, validator)
    ensures BlockFor(0, ledger, txs, validator).ops == OpsForAll(txs, ledger, validator)
  {
    hide BlockAccepted, LedgerRoot, FullRoot, TxsOf, ChunkCount, AllFit, ValidatorReady, CanExecuteAll, GoodAccount, OpsForAll;
    ProverBlockIsAccepted(0, ledger, txs, validator);
    var block := BlockFor(0, ledger, txs, validator);
    var commitment :| BlockAccepted(block, commitment);
    assert BlockRuns(block, commitment, ledger, txs, validator);
  }

  lemma {:induction false} RepeatIsAccepted(ledger: Accounts, before: seq<Tx>, tx: Tx, validator: nat)
    requires Good(ledger) && SignedTx(tx) && CanExecuteAll(before + [tx], ledger) && HasRoom(ledger, before, tx, validator)
    requires CanExecuteAll(before, ledger) && HasNoEffect(tx, ExecuteAll(before, ledger))
    ensures exists block: Block, commitment: Commitment ::
              && BlockRuns(block, commitment, ledger, before + [tx, tx], validator)
              && MessageTwice(block.ops, |before|, |before| + 1)
  {
    hide *;
    RepeatIsProvable(ledger, before, tx, validator);
    HonestBlockRuns(ledger, before + [tx, tx], validator);
    ProvableFits(ledger, before + [tx, tx], validator);
    HonestRepeats(ledger, before, tx, validator);
    var block := BlockFor(0, ledger, before + [tx, tx], validator);
    var commitment :| BlockRuns(block, commitment, ledger, before + [tx, tx], validator);
    assert MessageTwice(block.ops, |before|, |before| + 1);
  }

  /** The replay theorem. After any executable operations, the message of a signed operation can be used again
      in the same block if and only if the operation is a key change without effect. */
  lemma {:induction false} CanRepeatIff(ledger: Accounts, before: seq<Tx>, tx: Tx, validator: nat)
    requires Good(ledger) && SignedTx(tx) && CanExecuteAll(before + [tx], ledger) && HasRoom(ledger, before, tx, validator)
    ensures CanExecuteAll(before, ledger)
    ensures CanRepeat(ledger, before, tx, validator) <==> HasNoEffect(tx, ExecuteAll(before, ledger))
  {
    hide HasNoEffect, HasRoom, CanExecuteAll, ExecuteAll, BlockRuns, MessageTwice, GoodAccount, SignedTx;
    ExecuteConcat(before, [tx], ledger);
    if CanRepeat(ledger, before, tx, validator) {
      RepeatHadNoEffect(ledger, before, tx, validator);
    }
    if HasNoEffect(tx, ExecuteAll(before, ledger)) {
      RepeatIsAccepted(ledger, before, tx, validator);
      var block: Block, commitment: Commitment :|
        && BlockRuns(block, commitment, ledger, before + [tx, tx], validator)
        && MessageTwice(block.ops, |before|, |before| + 1);
      RunsItsTxs(block, commitment, ledger, before + [tx, tx], validator);
      assert before + [tx] <= before + [tx, tx];
      assert Repeats(block, commitment, ledger, before, tx, validator, |before| + 1);
    }
  }

  lemma {:induction false} RunsItsTxs(block: Block, commitment: Commitment, ledger: Accounts, txs: seq<Tx>, validator: nat)
    requires Good(ledger) && BlockRuns(block, commitment, ledger, txs, validator)
    ensures TxsOf(block.ops) == txs && BlockRuns(block, commitment, ledger, TxsOf(block.ops), validator)
  {
    hide BlockAccepted, LedgerRoot, FullRoot, TxsOf;
  }

  // ----- such a block

  /** A key change with a foreign nonce and a fee of one unit. */
  const REPEATED_TX: Tx := ChangePubKey(1, 7, 1, 5, 0, 32)

  lemma {:induction false} RepeatedTx()
    ensures Good(Conservation.SMALL_LEDGER) && CanExecute(REPEATED_TX, Conservation.SMALL_LEDGER)
    ensures SignedTx(REPEATED_TX) && TxFits(REPEATED_TX) && HasNoEffect(REPEATED_TX, Conservation.SMALL_LEDGER)
    ensures Conservation.SMALL_LEDGER[0].balances == Conservation.NO_BALANCES
    ensures Conservation.Minted(REPEATED_TX, Conservation.SMALL_LEDGER, 0) == 1
    ensures FeeOf(REPEATED_TX) == 1
  {
    Conservation.ForeignNonceMintsAFee();
    assert Unpack(32) == 1;
  }

  lemma {:induction false} RepeatedFees(tx: Tx, t: nat)
    ensures FeesIn([tx, tx], t) <= 2 * FeeOf(tx) && ChunkCount([tx, tx]) == 2 * Chunks(Code(tx))
  {
    hide FeeOf, TokenOf, Code;
    assert [tx, tx][1..] == [tx] && [tx][1..] == [];
    assert FeesIn([], t) == 0 && ChunkCount([]) == 0;
    assert FeesIn([tx], t) <= FeeOf(tx) && ChunkCount([tx]) == Chunks(Code(tx));
  }

  lemma {:induction false} RepeatedHasRoom()
    requires Good(Conservation.SMALL_LEDGER)
    ensures CanExecuteAll([] + [REPEATED_TX], Conservation.SMALL_LEDGER)
    ensures HasRoom(Conservation.SMALL_LEDGER, [], REPEATED_TX, 0)
  {
    RepeatedTx();
    var tx, ledger := REPEATED_TX, Conservation.SMALL_LEDGER;
    NoEffectNoChange(tx, ledger);
    assert [] + [tx] == [tx] && [] + [tx, tx] == [tx, tx] && [tx][1..] == [];
    hide CanExecute, Execute, GoodAccount, TxFits, FeeOf;
    assert CanExecuteAll([], ledger) && ExecuteAll([], ledger) == ledger;
    assert CanExecuteAll([tx], ledger) && ExecuteAll([tx], ledger) == ledger;
    RepeatedFees(tx, 0);
    forall t | 0 <= t < PROCESSABLE_TOKENS
      ensures FeesIn([tx, tx], t) <= 2
    {
      RepeatedFees(tx, t);
    }
    hide FeesIn, ChunkCount, ExecuteAll, CanExecuteAll;
    assert ValidatorReady(ledger, 0, [tx, tx]);
  }

  /** The block ends with this much more of the token. */
  predicate Gains(block: Block, ledger: Accounts, token: nat, amount: nat)
    requires Good(ledger) && token < TOKENS
  {
    && CanExecuteAll(TxsOf(block.ops), ledger) && Good(LedgerAfter(block, ledger))
    && Conservation.Total(LedgerAfter(block, ledger), token) == Conservation.Total(ledger, token) + amount
  }

  lemma {:induction false} RepeatedSheet(tx: Tx, ledger: Accounts, token: nat)
    requires Good(ledger) && CanExecute(tx, ledger) && HasNoEffect(tx, ledger)
    ensures CanExecuteAll([tx, tx], ledger)
    ensures Conservation.AllExited([tx, tx], token) == 0 && Conservation.AllDeposited([tx, tx], token) == 0
    ensures Conservation.AllOverwritten([tx, tx], ledger, token) == 0
    ensures Conservation.AllMinted([tx, tx], ledger, token) == 2 * Conservation.Minted(tx, ledger, token)
  {
    NoEffectNoChange(tx, ledger);
    hide CanExecute, Execute, GoodAccount, Conservation.Minted;
    assert [tx, tx][1..] == [tx] && [tx][1..] == [];
    assert CanExecuteAll([], ledger) && CanExecuteAll([tx], ledger);
    assert Conservation.AllExited([], token) == 0 && Conservation.AllDeposited([], token) == 0;
    assert Conservation.AllExited([tx], token) == 0 && Conservation.AllDeposited([tx], token) == 0;
    assert Conservation.AllOverwritten([], ledger, token) == 0 && Conservation.AllMinted([], ledger, token) == 0;
    assert Conservation.AllOverwritten([tx], ledger, token) == 0;
    assert Conservation.AllMinted([tx], ledger, token) == Conservation.Minted(tx, ledger, token);
  }

  lemma {:induction false} GainsTwice(block: Block, commitment: Commitment, ledger: Accounts, tx: Tx, validator: nat, token: nat)
    requires Good(ledger) && BlockRuns(block, commitment, ledger, [tx, tx], validator) && token < PROCESSABLE_TOKENS
    requires CanExecute(tx, ledger) && HasNoEffect(tx, ledger)
    ensures Gains(block, ledger, token, 2 * Conservation.Minted(tx, ledger, token))
  {
    hide BlockAccepted, LedgerRoot, FullRoot, TxsOf, CanExecuteAll, LedgerAfter, GoodAccount, CanExecute, HasNoEffect, Conservation.Total,
      Conservation.AllExited, Conservation.AllDeposited, Conservation.AllMinted, Conservation.AllOverwritten, Conservation.Minted;
    RepeatedSheet(tx, ledger, token);
    Conservation.BlockBalance(block, commitment, ledger, token);
  }

  /** A block is accepted that uses one signed message twice, and each block that runs the operation twice
      collects its fee twice although nobody pays it. */
  lemma {:induction false} SomeAcceptedBlockRepeatsAMessage()
    ensures Good(Conservation.SMALL_LEDGER) && CanRepeat(Conservation.SMALL_LEDGER, [], REPEATED_TX, 0)
    ensures SomeBlock(Conservation.SMALL_LEDGER, [REPEATED_TX, REPEATED_TX], 0)
    ensures forall block: Block, commitment: Commitment ::
              BlockRuns(block, commitment, Conservation.SMALL_LEDGER, [REPEATED_TX, REPEATED_TX], 0) ==>
                Gains(block, Conservation.SMALL_LEDGER, 0, 2)
  {
    RepeatedTx();
    var ledger, tx := Conservation.SMALL_LEDGER, REPEATED_TX;
    assert CanExecuteAll([], ledger) && ExecuteAll([], ledger) == ledger && [] + [tx, tx] == [tx, tx];
    hide *;
    RepeatedHasRoom();
    CanRepeatIff(ledger, [], tx, 0);
    RepeatIsAccepted(ledger, [], tx, 0);
    RepeatIsSome(ledger, [tx, tx], 0);
    forall block: Block, commitment: Commitment | BlockRuns(block, commitment, ledger, [tx, tx], 0)
      ensures Gains(block, ledger, 0, 2)
    {
      GainsTwice(block, commitment, ledger, tx, 0, 0);
    }
  }

  lemma {:induction false} RepeatIsSome(ledger: Accounts, txs: seq<Tx>, validator: nat)
    requires Good(ledger) && exists block: Block, commitment: Commitment :: BlockRuns(block, commitment, ledger, txs, validator)
    ensures SomeBlock(ledger, txs, validator)
  {
    hide BlockRuns, Good;
  }
}
