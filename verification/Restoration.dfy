/** From the contract's logs back to the operations: what the state restoration reads of a proven chain
    of blocks. */
module Restoration {
  import opened Bits
  import opened Witness
  import opened BlockSpec
  import opened Ledger
  import opened Transactions
  import opened Soundness
  import opened FloatConversions
  import opened BlockEvents
  import DataRestore
  import RollupOps

  /** Blocks accepted by the circuit one after the other, the first from the given ledger. */
  ghost predicate Proven(blocks: seq<Block>, commitments: seq<Commitment>, ledger: Accounts)
    requires Good(ledger)
    decreases |blocks|
  {
    && |blocks| == |commitments|
    && (blocks == [] ||
        (&& BlockAccepted(blocks[0], commitments[0]) && |blocks[0].ops| < 0x1_0000_0000_0000_0000
         && blocks[0].oldRoot == FullRoot(LedgerRoot(ledger))
         && (LedgerSoundness(blocks[0], commitments[0], ledger);
             Proven(blocks[1..], commitments[1..], LedgerAfter(blocks[0], ledger)))))
  }

  /** The operations of each block, as its published data say them. */
  predicate SaysBlock(commitment: Commitment, block: Block) {
    && |commitment.pubdata| % 8 == 0
    && RollupOps.Parse(Bytes(commitment.pubdata)) == RollupOps.Parsed(RollupOps.Meanings(TxsOf(block.ops)))
  }

  lemma {:induction false} ProvenBlocksSay(blocks: seq<Block>, commitments: seq<Commitment>, ledger: Accounts, i: nat)
    requires Good(ledger) && Proven(blocks, commitments, ledger) && i < |blocks|
    ensures SaysBlock(commitments[i], blocks[i])
    decreases |blocks|
  {
    hide LedgerAfter, BlockAccepted, LedgerRoot, Good, FullRoot, TxsOf, CanExecuteAll, RollupOps.Parse;
    LedgerSoundness(blocks[0], commitments[0], ledger);
    if i == 0 {
      RollupOps.PublicationRoundTrip(blocks[0], commitments[0], ledger);
    } else {
      ProvenBlocksSay(blocks[1..], commitments[1..], LedgerAfter(blocks[0], ledger), i - 1);
    }
  }

  /** Each verified block's standing commit transaction carries the published bytes of a proven block. */
  ghost predicate CommitsCarry(k: Contract, calldata: TxHash -> seq<byte>, commitments: seq<Commitment>) {
    && k.verified <= |k.committed| && k.verified <= |commitments|
    && forall i :: 0 <= i < k.verified ==>
         |commitments[i].pubdata| % 8 == 0 && calldata(k.committed[i]) == Bytes(commitments[i].pubdata)
  }

  /** The restoration reads back exactly what was executed: over any windows, the operations parsed from
      the processed blocks are those of the proven blocks, block by block and in order. */
  lemma {:induction false} RestoredOperations(
    chain: DataRestore.Chain, genesis: nat, latests: seq<nat>, step: nat,
    blocks: seq<Block>, commitments: seq<Commitment>, ledger: Accounts, calldata: TxHash -> seq<byte>)
    requires DataRestore.Lawful(chain) && DataRestore.LogsUpTo(chain, genesis) == []
    requires DataRestore.HeadsHold(chain, genesis, latests, step)
    requires Good(ledger) && Proven(blocks, commitments, ledger)
    requires forall until: nat :: CommitsCarry(DataRestore.ContractAt(chain, until), calldata, commitments)
    ensures DataRestore.Rounds(chain, DataRestore.Started(genesis), latests, step).Some?
    ensures var processed := DataRestore.Rounds(chain, DataRestore.Started(genesis), latests, step).value.treeBlocks;
            && |processed| <= |blocks|
            && forall i :: 0 <= i < |processed| ==>
                 && processed[i].blockNum == i + 1
                 && RollupOps.Parse(calldata(processed[i].transactionHash))
                    == RollupOps.Parsed(RollupOps.Meanings(TxsOf(blocks[i].ops)))
  {
    hide Proven, Good, TxsOf, RollupOps.Parse, Bytes, DataRestore.Round, DataRestore.ContractAt, DataRestore.Lawful;
    DataRestore.RestorationIsExact(chain, genesis, latests, step);
    var s := DataRestore.Rounds(chain, DataRestore.Started(genesis), latests, step).value;
    var k := DataRestore.ContractAt(chain, s.watched);
    assert CommitsCarry(k, calldata, commitments);
    assert |blocks| == |commitments| by { SameCount(blocks, commitments, ledger); }
    forall i | 0 <= i < |s.treeBlocks|
      ensures s.treeBlocks[i].blockNum == i + 1
      ensures RollupOps.Parse(calldata(s.treeBlocks[i].transactionHash))
           == RollupOps.Parsed(RollupOps.Meanings(TxsOf(blocks[i].ops)))
    {
      assert s.treeBlocks[i] == CommitEvents(k, 0)[i];
      ProvenBlocksSay(blocks, commitments, ledger, i);
    }
  }

  lemma {:induction false} SameCount(blocks: seq<Block>, commitments: seq<Commitment>, ledger: Accounts)
    requires Good(ledger) && Proven(blocks, commitments, ledger)
    ensures |blocks| == |commitments|
  {
  }
}
