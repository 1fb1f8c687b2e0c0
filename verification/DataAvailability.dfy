/** The published data of a block alone determine its transactions and the ledger it leaves. */
module DataAvailability {
  import opened Bits
  import opened Params
  import opened Witness
  import opened Gadgets
  import opened BlockSpec
  import opened Grammar
  import opened Ledger
  import opened Transactions
  import opened Execution
  import opened Soundness
  import opened FloatConversions
  import RollupOps

  lemma {:induction false} FieldsDetermineTx(p: Operation, q: Operation)
    requires First(p) && First(q) && p.txType == q.txType && IsGadget(p.txType)
    requires PubdataFields(p.txType, p) == PubdataFields(p.txType, q)
    ensures TxOf(p) == TxOf(q)
  {
    hide Width;
    var t, fs, gs := p.txType, PubdataFields(p.txType, p), PubdataFields(p.txType, q);
    if t != NOOP {
      assert fs[0] == gs[0] && fs[1] == gs[1] && fs[2] == gs[2] && fs[3] == gs[3] && fs[4] == gs[4];
      assert |fs| > 5 ==> fs[5] == gs[5];
      assert |fs| > 6 ==> fs[6] == gs[6];
    }
  }

  /** The first operation of a block is determined by the front of the block's data. */
  lemma {:induction false} SameHead(p: Operation, q: Operation, s: seq<bool>, t: seq<bool>)
    requires Allocated(p) && First(p) && IsGadget(p.txType) && Allocated(q) && First(q) && IsGadget(q.txType)
    requires |s| % 8 == 0 && |t| % 8 == 0
    requires Pubdata(p.txType, p) + s == Pubdata(q.txType, q) + t
    ensures p.txType == q.txType && TxOf(p) == TxOf(q) && s == t
  {
    hide PubdataFields, Allocated, Bytes, Pubdata, TxOf, RollupOps.FromPublicData;
    RollupOps.OperationRoundTrip(p);
    RollupOps.OperationRoundTrip(q);
    var x, y := Pubdata(p.txType, p), Pubdata(q.txType, q);
    RollupOps.BytesConcat(x, s);
    RollupOps.BytesConcat(y, t);
    assert Bytes(x + s)[0] == RollupOps.DataOf(p)[0] && Bytes(y + t)[0] == RollupOps.DataOf(q)[0];
    assert x == (x + s)[..|x|] && y == (y + t)[..|y|];
    assert s == (x + s)[|x|..] && t == (y + t)[|y|..];
    PubdataDeterminesFields(p.txType, p, q);
    FieldsDetermineTx(p, q);
  }

  lemma {:induction false} PublishedDataDetermineTxs(ops: seq<Operation>, others: seq<Operation>)
    requires IsBlock(ops) && (forall i :: 0 <= i < |ops| ==> Allocated(ops[i]))
    requires IsBlock(others) && (forall i :: 0 <= i < |others| ==> Allocated(others[i]))
    requires PublishedBy(ops) == PublishedBy(others)
    ensures TxsOf(ops) == TxsOf(others)
    decreases |ops|
  {
    hide Pubdata, Allocated, TxOf, IsOperation;
    if ops != [] && others != [] {
      var n, m := Chunks(ops[0].txType), Chunks(others[0].txType);
      BlockHead(ops);
      BlockHead(others);
      RollupOps.FirstOfOperation(ops[..n]);
      RollupOps.FirstOfOperation(others[..m]);
      RollupOps.PublishedDataParses(ops[n..]);
      RollupOps.PublishedDataParses(others[m..]);
      SameHead(ops[0], others[0], PublishedBy(ops[n..]), PublishedBy(others[m..]));
      PublishedDataDetermineTxs(ops[n..], others[m..]);
    }
  }

  /** Data availability: two accepted blocks that start from one ledger, pay one validator and publish
      the same bits ran the same transactions and leave the same ledger. */
  lemma {:induction false} SameDataSameLedger(
    block: Block, commitment: Commitment, other: Block, otherCommitment: Commitment, ledger: Accounts)
    requires BlockAccepted(block, commitment) && |block.ops| < 0x1_0000_0000_0000_0000
    requires BlockAccepted(other, otherCommitment) && |other.ops| < 0x1_0000_0000_0000_0000
    requires Good(ledger) && block.oldRoot == other.oldRoot == FullRoot(LedgerRoot(ledger))
    requires commitment.pubdata == otherCommitment.pubdata && commitment.validator == otherCommitment.validator
    ensures TxsOf(block.ops) == TxsOf(other.ops)
    ensures CanExecuteAll(TxsOf(block.ops), ledger) && CanExecuteAll(TxsOf(other.ops), ledger)
    ensures LedgerAfter(block, ledger) == LedgerAfter(other, ledger)
    ensures commitment.newRoot == otherCommitment.newRoot
  {
    LedgerSoundness(block, commitment, ledger);
    LedgerSoundness(other, otherCommitment, ledger);
    AcceptedBlockIsWellFormed(block, commitment);
    AcceptedBlockIsWellFormed(other, otherCommitment);
    RunAllocated(Initial(block.initialSubroot), block.ops);
    RunAllocated(Initial(other.initialSubroot), other.ops);
    hide *;
    PublishedDataDetermineTxs(block.ops, other.ops);
    SameTxsSameLedger(block, other, ledger);
  }

  lemma {:induction false} SameTxsSameLedger(block: Block, other: Block, ledger: Accounts)
    requires Good(ledger) && CanExecuteAll(TxsOf(block.ops), ledger)
    requires TxsOf(block.ops) == TxsOf(other.ops) && block.validator.id == other.validator.id
    ensures LedgerAfter(block, ledger) == LedgerAfter(other, ledger)
  {
    hide CanExecuteAll, ExecuteAll, TxsOf, CreditFees, Good;
  }
}
