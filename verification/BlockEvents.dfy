/** Block events of the rollup contract, as the contract emits them and as the state restoration keeps
    them. */
module BlockEvents {
  type TxHash = nat

  datatype EventType = Committed | Verified

  datatype BlockEvent = BlockEvent(blockNum: nat, transactionHash: TxHash, blockType: EventType)

  datatype Log =
    | BlockCommit(blockNum: nat, tx: TxHash)
    | BlockVerification(blockNum: nat, tx: TxHash)
    | BlocksRevert(totalVerified: nat, totalCommitted: nat)

  // ----- the contract

  /** The commit transaction of each block that stands, and how many of them are verified. */
  datatype Contract = Contract(committed: seq<TxHash>, verified: nat)

  const DEPLOYED := Contract([], 0)

  /** Commits come in order, only committed blocks are verified, and reverts keep verified blocks. */
  predicate Emits(k: Contract, log: Log) {
    match log
    case BlockCommit(n, _) => n == |k.committed| + 1
    case BlockVerification(n, _) => n == k.verified + 1 <= |k.committed|
    case BlocksRevert(v, c) => v == k.verified <= c <= |k.committed|
  }

  function AfterLog(k: Contract, log: Log): Contract
    requires Emits(k, log)
  {
    match log
    case BlockCommit(_, tx) => k.(committed := k.committed + [tx])
    case BlockVerification(_, _) => k.(verified := k.verified + 1)
    case BlocksRevert(_, c) => k.(committed := k.committed[..c])
  }

  predicate EmitsAll(k: Contract, logs: seq<Log>)
    decreases |logs|
  {
    logs == [] || (Emits(k, logs[0]) && EmitsAll(AfterLog(k, logs[0]), logs[1..]))
  }

  function AfterLogs(k: Contract, logs: seq<Log>): (r: Contract)
    requires EmitsAll(k, logs)
    ensures k.verified <= |k.committed| ==> r.verified <= |r.committed|
    decreases |logs|
  {
    if logs == [] then k else AfterLogs(AfterLog(k, logs[0]), logs[1..])
  }

  lemma {:induction false} LogsConcat(k: Contract, x: seq<Log>, y: seq<Log>)
    requires EmitsAll(k, x + y)
    ensures EmitsAll(k, x) && EmitsAll(AfterLogs(k, x), y)
    ensures AfterLogs(k, x + y) == AfterLogs(AfterLogs(k, x), y)
    decreases |x|
  {
    if x == [] {
      assert x + y == y;
    } else {
      assert (x + y)[0] == x[0] && (x + y)[1..] == x[1..] + y;
      LogsConcat(AfterLog(k, x[0]), x[1..], y);
    }
  }

  /** The commit events of the blocks that are verified, oldest first. */
  function VerifiedBlocks(k: Contract): seq<BlockEvent>
    requires k.verified <= |k.committed|
  {
    CommitEvents(k, 0)[..k.verified]
  }

  /** The commit events of the blocks above `base`. */
  function CommitEvents(k: Contract, base: nat): (es: seq<BlockEvent>)
    requires base <= |k.committed|
    ensures |es| == |k.committed| - base
    ensures forall i :: 0 <= i < |es| ==> es[i] == BlockEvent(base + i + 1, k.committed[base + i], Committed)
  {
    seq(|k.committed| - base, i requires 0 <= i < |k.committed| - base => BlockEvent(base + i + 1, k.committed[base + i], Committed))
  }

  /** A verified block keeps its commit transaction whatever the contract does later. */
  lemma {:induction false} VerifiedBlocksStay(k: Contract, logs: seq<Log>)
    requires k.verified <= |k.committed| && EmitsAll(k, logs)
    ensures VerifiedBlocks(k) <= VerifiedBlocks(AfterLogs(k, logs))
    decreases |logs|
  {
    if logs != [] {
      VerifiedBlocksStay(AfterLog(k, logs[0]), logs[1..]);
    }
  }

  // ----- the kept events

  /** Keeps the events up to a block number. */
  function Retained(events: seq<BlockEvent>, bound: nat): seq<BlockEvent> {
    if events == [] then []
    else (if events[0].blockNum <= bound then [events[0]] else []) + Retained(events[1..], bound)
  }

  lemma {:induction false} RetainedOfPrefix(events: seq<BlockEvent>, base: nat, bound: nat)
    requires forall i :: 0 <= i < |events| ==> events[i].blockNum == base + i + 1
    ensures Retained(events, bound) == if bound <= base then [] else if bound - base <= |events| then events[..bound - base] else events
  {
    if events != [] {
      RetainedOfPrefix(events[1..], base + 1, bound);
      assert events == [events[0]] + events[1..];
    }
  }

  /** The two event lists kept by the restoration. */
  datatype Events = Events(committed: seq<BlockEvent>, verified: seq<BlockEvent>)

  function ApplyLog(es: Events, log: Log): Events {
    match log
    case BlockCommit(n, tx) => es.(committed := es.committed + [BlockEvent(n, tx, Committed)])
    case BlockVerification(n, tx) => es.(verified := es.verified + [BlockEvent(n, tx, Verified)])
    case BlocksRevert(v, c) => Events(Retained(es.committed, c), Retained(es.verified, v))
  }

  function ApplyLogs(es: Events, logs: seq<Log>): Events
    decreases |logs|
  {
    if logs == [] then es else ApplyLogs(ApplyLog(es, logs[0]), logs[1..])
  }

  /** The lists while the logs of one window are read: they hold the blocks above `base`, the number
      of blocks that were verified before the window. */
  predicate Tracks(es: Events, base: nat, k: Contract) {
    && base <= k.verified <= |k.committed|
    && es.committed == CommitEvents(k, base)
    && |es.verified| == k.verified - base
    && forall i :: 0 <= i < |es.verified| ==>
         es.verified[i].blockNum == base + i + 1 && es.verified[i].blockType == Verified
  }

  lemma {:induction false} LogIsTracked(es: Events, base: nat, k: Contract, log: Log)
    requires Tracks(es, base, k) && Emits(k, log)
    ensures Tracks(ApplyLog(es, log), base, AfterLog(k, log))
  {
    if log.BlocksRevert? {
      RetainedOfPrefix(es.committed, base, log.totalCommitted);
      RetainedOfPrefix(es.verified, base, log.totalVerified);
    }
  }

  lemma {:induction false} LogsAreTracked(es: Events, base: nat, k: Contract, logs: seq<Log>)
    requires Tracks(es, base, k) && EmitsAll(k, logs)
    ensures Tracks(ApplyLogs(es, logs), base, AfterLogs(k, logs))
    decreases |logs|
  {
    hide Tracks, ApplyLog, AfterLog, Emits;
    if logs != [] {
      LogIsTracked(es, base, k, logs[0]);
      LogsAreTracked(ApplyLog(es, logs[0]), base, AfterLog(k, logs[0]), logs[1..]);
    }
  }

  /** The verified prefix of the commit events completes the list of verified blocks. */
  lemma {:induction false} PrefixCompletes(es: Events, base: nat, done: seq<BlockEvent>, k: Contract)
    requires Tracks(es, base, k) && |done| == base && done <= VerifiedBlocks(k)
    ensures |es.verified| <= |es.committed|
    ensures done + es.committed[..|es.verified|] == VerifiedBlocks(k)
  {
    var all := VerifiedBlocks(k);
    assert forall i :: 0 <= i < |es.verified| ==> es.committed[i] == all[base + i];
    assert done == all[..base];
  }

  /** Draining the processed events leaves the blocks above the verified ones. */
  lemma {:induction false} DrainIsTracked(es: Events, base: nat, k: Contract)
    requires Tracks(es, base, k)
    ensures |es.verified| <= |es.committed|
    ensures Tracks(Events(es.committed[|es.verified|..], []), k.verified, k)
  {
  }
}
