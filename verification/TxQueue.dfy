/** The queue of operations waiting to be sent to Ethereum: commits and withdrawals in order of arrival,
    verifications by block number, and a bound on the transactions in flight. */
module TxQueue {
  import opened Common

  datatype OperationType = Commit | Verify | Withdraw

  /** `withdrawals` says whether a verified block has withdrawals to complete. */
  datatype TxData = TxData(opType: OperationType, block: nat, raw: nat, withdrawals: bool)

  datatype Queue = Queue(
    maxPendingTxs: nat, sentPendingTxs: nat,
    commits: seq<TxData>, commitCount: nat,
    verifies: map<nat, TxData>, nextVerify: nat,
    withdraws: seq<TxData>, withdrawCount: nat)

  function EmptyQueue(maxPendingTxs: nat): Queue {
    Queue(maxPendingTxs, 0, [], 0, map[], 1, [], 0)
  }

  /** The queues hold operations of their own type. */
  predicate WellTyped(q: Queue) {
    && (forall i :: 0 <= i < |q.commits| ==> q.commits[i].opType == Commit)
    && (forall n :: n in q.verifies ==> q.verifies[n].opType == Verify)
    && (forall i :: 0 <= i < |q.withdraws| ==> q.withdraws[i].opType == Withdraw)
  }

  /** Adding a known operation does nothing; a verification that was sent before is a panic. */
  function Add(q: Queue, tx: TxData): Option<Queue> {
    match tx.opType
    case Commit =>
      if exists i :: 0 <= i < |q.commits| && q.commits[i].block == tx.block then Some(q)
      else Some(q.(commits := q.commits + [tx]))
    case Verify =>
      if tx.block in q.verifies then Some(q)
      else if tx.block < q.nextVerify then None
      else Some(q.(verifies := q.verifies[tx.block := tx]))
    case Withdraw => Some(q.(withdraws := q.withdraws + [tx]))
  }

  /** Verifications whose commit was sent come first, then withdrawals, then commits. */
  function Chosen(q: Queue): Option<OperationType> {
    if q.sentPendingTxs >= q.maxPendingTxs then None
    else if q.nextVerify < q.commitCount + 1 && q.nextVerify in q.verifies then Some(Verify)
    else if q.withdrawCount + 1 < q.nextVerify && q.withdraws != [] then Some(Withdraw)
    else if q.commits != [] then Some(Commit)
    else None
  }

  function Front(q: Queue): TxData
    requires Chosen(q).Some?
  {
    match Chosen(q).value
    case Verify => q.verifies[q.nextVerify]
    case Withdraw => q.withdraws[0]
    case Commit => q.commits[0]
  }

  function Popped(q: Queue): Queue
    requires Chosen(q).Some?
  {
    var r := q.(sentPendingTxs := q.sentPendingTxs + 1);
    match Chosen(q).value
    case Verify => r.(verifies := q.verifies - {q.nextVerify}, nextVerify := q.nextVerify + 1)
    case Withdraw => r.(withdraws := q.withdraws[1..], withdrawCount := q.withdrawCount + 1)
    case Commit => r.(commits := q.commits[1..], commitCount := q.commitCount + 1)
  }

  predicate CanReturn(q: Queue, tx: TxData) {
    && q.sentPendingTxs > 0
    && match tx.opType
       case Commit => q.commitCount > 0
       case Verify => q.nextVerify > 0
       case Withdraw => q.withdrawCount > 0
  }

  function Returned(q: Queue, tx: TxData): Queue
    requires CanReturn(q, tx)
  {
    var r := q.(sentPendingTxs := q.sentPendingTxs - 1);
    match tx.opType
    case Commit => r.(commits := [tx] + q.commits, commitCount := q.commitCount - 1)
    case Verify => r.(verifies := q.verifies[q.nextVerify - 1 := tx], nextVerify := q.nextVerify - 1)
    case Withdraw => r.(withdraws := [tx] + q.withdraws, withdrawCount := q.withdrawCount - 1)
  }

  /** Returning what was popped undoes the pop. */
  lemma {:induction false} ReturnUndoesPop(q: Queue)
    requires WellTyped(q) && Chosen(q).Some?
    ensures CanReturn(Popped(q), Front(q)) && Returned(Popped(q), Front(q)) == q
  {
    var p := Popped(q);
    match Chosen(q).value
    case Verify =>
      assert p.verifies[q.nextVerify := q.verifies[q.nextVerify]] == q.verifies;
    case Withdraw =>
      assert [q.withdraws[0]] + q.withdraws[1..] == q.withdraws;
    case Commit =>
      assert [q.commits[0]] + q.commits[1..] == q.commits;
  }

  /** Nothing is sent ahead of what it depends on, and never too much at once: every verification that
      was sent has its commit sent, and withdrawals stay behind the verifications. */
  predicate Ordered(q: Queue) {
    && WellTyped(q)
    && q.sentPendingTxs <= q.maxPendingTxs
    && 1 <= q.nextVerify <= q.commitCount + 1
    && q.withdrawCount < q.nextVerify
  }

  lemma {:induction false} QueueStaysOrdered(q: Queue, tx: TxData)
    requires Ordered(q)
    ensures Add(q, tx).Some? ==> Ordered(Add(q, tx).value)
    ensures Chosen(q).Some? ==> Ordered(Popped(q))
    ensures q.sentPendingTxs > 0 ==> Ordered(q.(sentPendingTxs := q.sentPendingTxs - 1))
  {
  }

  class TxQueue {
    const maxPendingTxs: nat
    var sentPendingTxs: nat
    var commits: seq<TxData>
    var commitCount: nat
    var verifies: map<nat, TxData>
    var nextVerify: nat
    var withdraws: seq<TxData>
    var withdrawCount: nat

    constructor (q: Queue)
      ensures Contents() == q
    {
      maxPendingTxs, sentPendingTxs := q.maxPendingTxs, q.sentPendingTxs;
      commits, commitCount := q.commits, q.commitCount;
      verifies, nextVerify := q.verifies, q.nextVerify;
      withdraws, withdrawCount := q.withdraws, q.withdrawCount;
    }

    function Contents(): Queue
      reads this
    {
      Queue(maxPendingTxs, sentPendingTxs, commits, commitCount, verifies, nextVerify, withdraws, withdrawCount)
    }

    /** `add_operation_to_queue`: without `ok` the insertion panicked. */
    method AddOperation(tx: TxData) returns (ok: bool)
      modifies this
      ensures ok <==> old(Add(Contents(), tx)).Some?
      ensures ok ==> Contents() == old(Add(Contents(), tx)).value
    {
      ok := true;
      match tx.opType {
        case Commit =>
          for i := 0 to |commits|
            invariant forall j :: 0 <= j < i ==> commits[j].block != tx.block
          {
            if commits[i].block == tx.block {
              return;
            }
          }
          commits := commits + [tx];
        case Verify =>
          if tx.block in verifies {
            return;
          }
          if tx.block < nextVerify {
            return false;
          }
          verifies := verifies[tx.block := tx];
        case Withdraw =>
          withdraws := withdraws + [tx];
      }
    }

    method GetNextOperation() returns (op: Option<TxData>)
      requires sentPendingTxs < maxPendingTxs
      modifies this`commits, this`commitCount, this`verifies, this`nextVerify, this`withdraws, this`withdrawCount
      ensures op.Some? <==> old(Chosen(Contents())).Some?
      ensures op.Some? ==> op.value == old(Front(Contents()))
                           && Contents() == old(Popped(Contents())).(sentPendingTxs := sentPendingTxs)
      ensures op.None? ==> Contents() == old(Contents())
    {
      var nextVerifyOpId, nextCommitOpId := nextVerify, commitCount + 1;
      if nextVerifyOpId < nextCommitOpId && nextVerifyOpId in verifies {
        op := Some(verifies[nextVerifyOpId]);
        verifies := verifies - {nextVerifyOpId};
        nextVerify := nextVerify + 1;
        return;
      }
      var nextWithdrawOpId := withdrawCount + 1;
      if nextWithdrawOpId < nextVerifyOpId && withdraws != [] {
        op := Some(withdraws[0]);
        withdraws, withdrawCount := withdraws[1..], withdrawCount + 1;
        return;
      }
      if commits != [] {
        op := Some(commits[0]);
        commits, commitCount := commits[1..], commitCount + 1;
        return;
      }
      op := None;
    }

    method PopFront() returns (op: Option<TxData>)
      modifies this
      ensures op.Some? <==> old(Chosen(Contents())).Some?
      ensures op.Some? ==> op.value == old(Front(Contents())) && Contents() == old(Popped(Contents()))
      ensures op.None? ==> Contents() == old(Contents())
    {
      if sentPendingTxs >= maxPendingTxs {
        return None;
      }
      op := GetNextOperation();
      if op.Some? {
        sentPendingTxs := sentPendingTxs + 1;
      }
    }

    method ReturnPopped(tx: TxData)
      requires CanReturn(Contents(), tx)
      modifies this
      ensures Contents() == old(Returned(Contents(), tx))
    {
      match tx.opType {
        case Commit =>
          commits, commitCount := [tx] + commits, commitCount - 1;
        case Verify =>
          var poppedIndex := nextVerify - 1;
          verifies, nextVerify := verifies[poppedIndex := tx], poppedIndex;
        case Withdraw =>
          withdraws, withdrawCount := [tx] + withdraws, withdrawCount - 1;
      }
      sentPendingTxs := sentPendingTxs - 1;
    }

    method ReportCommitment()
      requires sentPendingTxs > 0
      modifies this`sentPendingTxs
      ensures sentPendingTxs == old(sentPendingTxs) - 1
    {
      sentPendingTxs := sentPendingTxs - 1;
    }
  }
}
