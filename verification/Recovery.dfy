/** Which states the restoration can go on from, whatever the contract does next, and what that means
    for restarts: between two rounds, and between any two writes of a round. */
module Recovery {
  import opened BlockEvents
  import opened Common
  import opened DataRestore

  // ----- futures

  /** The same logs up to an Ethereum block; what comes later is open. */
  predicate SameUpTo(chain: Chain, later: Chain, until: nat) {
    forall e: nat :: e <= until ==> LogsAt(later, e) == LogsAt(chain, e)
  }

  /** From here on exactly the verified blocks are processed: for every lawful continuation of the logs,
      all heads that do not fall back to an older contract, and all window sizes. */
  ghost predicate Safe(chain: Chain, s: State) {
    forall later: Chain, latests: seq<nat>, step: nat ::
      SameUpTo(chain, later, s.watched) && Lawful(later) && HeadsHold(later, s.watched, latests, step) ==>
        IsExact(later, s, latests, step)
  }

  predicate IsExact(chain: Chain, s: State, latests: seq<nat>, step: nat)
    requires Lawful(chain)
  {
    var run := Rounds(chain, s, latests, step);
    run.Some? && run.value.treeBlocks == VerifiedBlocks(ContractAt(chain, run.value.watched))
  }

  lemma {:induction false} SameLogs(chain: Chain, later: Chain, until: nat, top: nat)
    requires SameUpTo(chain, later, top) && until <= top
    ensures LogsUpTo(later, until) == LogsUpTo(chain, until)
    decreases until
  {
    hide LogsAt;
    if until > 0 {
      SameLogs(chain, later, until - 1, top);
    }
  }

  lemma {:induction false} RestoredIsSafe(chain: Chain, s: State)
    requires Lawful(chain) && Restored(chain, s)
    ensures Safe(chain, s)
  {
    hide LogsUpTo, Rounds, SameUpTo, Lawful, HeadsHold;
    forall later: Chain, latests: seq<nat>, step: nat
      | SameUpTo(chain, later, s.watched) && Lawful(later) && HeadsHold(later, s.watched, latests, step)
      ensures IsExact(later, s, latests, step)
    {
      SameLogs(chain, later, s.watched, s.watched);
      assert ContractAt(later, s.watched) == ContractAt(chain, s.watched);
      RunRestores(later, s, latests, step);
    }
  }

  // ----- one more block of logs

  /** The logs up to an Ethereum block, then these. */
  function Continued(chain: Chain, until: nat, logs: seq<Log>): (later: Chain)
    ensures |later| == until + 2 && later[until + 1] == logs
  {
    seq(until + 1, e requires 0 <= e => LogsAt(chain, e)) + [logs]
  }

  lemma {:induction false} EmitsConcat(k: Contract, x: seq<Log>, y: seq<Log>)
    requires EmitsAll(k, x) && EmitsAll(AfterLogs(k, x), y)
    ensures EmitsAll(k, x + y)
    decreases |x|
  {
    if x == [] {
      assert x + y == y;
    } else {
      assert (x + y)[0] == x[0] && (x + y)[1..] == x[1..] + y;
      EmitsConcat(AfterLog(k, x[0]), x[1..], y);
    }
  }

  lemma {:induction false} ContinuedLogs(chain: Chain, until: nat, logs: seq<Log>)
    ensures SameUpTo(chain, Continued(chain, until, logs), until)
    ensures LogsBetween(Continued(chain, until, logs), until + 1, until + 1) == logs
    ensures LogsUpTo(Continued(chain, until, logs), until + 1) == LogsUpTo(chain, until) + logs
    ensures LogsUpTo(Continued(chain, until, logs), until + 2) == LogsUpTo(chain, until) + logs
  {
    var later := Continued(chain, until, logs);
    assert SameUpTo(chain, later, until);
    SameLogs(chain, later, until, until);
    assert LogsAt(later, until + 1) == logs && LogsAt(later, until + 2) == [];
    assert LogsBetween(later, until + 1, until) == [];
    assert LogsBetween(later, until + 1, until + 1) == [] + logs == logs;
    hide LogsAt;
    assert LogsUpTo(later, until + 1) == LogsUpTo(later, until) + logs;
    assert LogsUpTo(later, until + 2) == LogsUpTo(later, until + 1) + [] == LogsUpTo(later, until + 1);
  }

  /** Logs the contract can emit next continue a lawful chain. */
  lemma {:induction false} ContinuedIsLawful(chain: Chain, until: nat, logs: seq<Log>)
    requires Lawful(chain) && EmitsAll(ContractAt(chain, until), logs)
    ensures Lawful(Continued(chain, until, logs))
    ensures ContractAt(Continued(chain, until, logs), until) == ContractAt(chain, until)
    ensures ContractAt(Continued(chain, until, logs), until + 1) == AfterLogs(ContractAt(chain, until), logs)
  {
    var later := Continued(chain, until, logs);
    ContinuedLogs(chain, until, logs);
    SameLogs(chain, later, until, until);
    LawfulSoFar(chain, until);
    hide LogsUpTo, LogsBetween, EmitsAll, AfterLogs;
    EmitsConcat(DEPLOYED, LogsUpTo(chain, until), logs);
    LogsConcat(DEPLOYED, LogsUpTo(chain, until), logs);
  }

  /** The verification of the next `n` blocks. */
  function Verifications(from: nat, n: nat): (logs: seq<Log>)
    ensures |logs| == n && forall i :: 0 <= i < n ==> logs[i] == BlockVerification(from + i + 1, 0)
  {
    seq(n, i requires 0 <= i => BlockVerification(from + i + 1, 0))
  }

  lemma {:induction false} VerifyMany(k: Contract, es: Events, n: nat)
    requires k.verified + n <= |k.committed|
    ensures EmitsAll(k, Verifications(k.verified, n))
    ensures AfterLogs(k, Verifications(k.verified, n)) == k.(verified := k.verified + n)
    ensures ApplyLogs(es, Verifications(k.verified, n)).committed == es.committed
    ensures |ApplyLogs(es, Verifications(k.verified, n)).verified| == |es.verified| + n
    decreases n
  {
    var logs := Verifications(k.verified, n);
    if n > 0 {
      assert logs[1..] == Verifications(k.verified + 1, n - 1);
      VerifyMany(AfterLog(k, logs[0]), ApplyLog(es, logs[0]), n - 1);
    }
  }

  /** One more block is committed, and all blocks are verified. */
  function CommitAndVerifyAll(k: Contract, tx: TxHash): seq<Log>
    requires k.verified <= |k.committed|
  {
    [BlockCommit(|k.committed| + 1, tx)] + Verifications(k.verified, |k.committed| - k.verified + 1)
  }

  lemma {:induction false} AllVerified(k: Contract, es: Events, tx: TxHash)
    requires k.verified <= |k.committed|
    ensures EmitsAll(k, CommitAndVerifyAll(k, tx))
    ensures AfterLogs(k, CommitAndVerifyAll(k, tx)) == Contract(k.committed + [tx], |k.committed| + 1)
    ensures var r := ApplyLogs(es, CommitAndVerifyAll(k, tx));
            && r.committed == es.committed + [BlockEvent(|k.committed| + 1, tx, Committed)]
            && |r.verified| == |es.verified| + |k.committed| - k.verified + 1
  {
    var logs := CommitAndVerifyAll(k, tx);
    assert logs[1..] == Verifications(k.verified, |k.committed| - k.verified + 1);
    VerifyMany(AfterLog(k, logs[0]), ApplyLog(es, logs[0]), |k.committed| - k.verified + 1);
  }

  // ----- the weakest state to go on from

  /** A future in which one more block is committed and all blocks are verified. */
  lemma {:induction false} SafeWhenAllVerified(chain: Chain, s: State, k: Contract, tx: TxHash)
    requires Lawful(chain) && Safe(chain, s) && k == ContractAt(chain, s.watched) && |s.events.verified| <= |s.events.committed|
    ensures var n, event := |k.committed| - k.verified, BlockEvent(|k.committed| + 1, tx, Committed);
            && n <= |Drained(s.events).committed|
            && s.treeBlocks + (Drained(s.events).committed + [event])[..n + 1]
               == VerifiedBlocks(k) + (CommitEvents(k, k.verified) + [event])
  {
    var left, logs := Drained(s.events), CommitAndVerifyAll(k, tx);
    var later := Continued(chain, s.watched, logs);
    AllVerified(k, left, tx);
    NewlyVerified(k, tx);
    ContinuedLogs(chain, s.watched, logs);
    ContinuedIsLawful(chain, s.watched, logs);
    assert logs != [];
    hide Safe, ContractAt, Lawful, LogsBetween, LogsUpTo, EmitsAll, AfterLogs, ApplyLogs, CommitAndVerifyAll, Continued, SameUpTo,
      VerifiedBlocks, CommitEvents;
    SafeNext(chain, later, s);
  }

  /** A state that is not restored has a lawful future in which blocks are missed or wrong, or the
      restoration panics. */
  lemma {:induction false} SafeIsRestored(chain: Chain, s: State)
    requires Lawful(chain) && Safe(chain, s)
    ensures Restored(chain, s)
  {
    SafeNow(chain, s);
    var k := ContractAt(chain, s.watched);
    var left, waiting := Drained(s.events).committed, CommitEvents(k, k.verified);
    var tx := if |left| > |waiting| then left[|waiting|].transactionHash + 1 else 0;
    var event := BlockEvent(|k.committed| + 1, tx, Committed);
    hide ContractAt, Lawful, Safe, VerifiedBlocks;
    SafeWhenAllVerified(chain, s, k, tx);
    CancelLeft(s.treeBlocks, (left + [event])[..|waiting| + 1], waiting + [event]);
    LeftIsWaiting(left, waiting, event);
  }

  lemma {:induction false} CancelLeft<T>(a: seq<T>, x: seq<T>, y: seq<T>)
    requires a + x == a + y
    ensures x == y
  {
    assert x == (a + x)[|a|..] == (a + y)[|a|..] == y;
  }

  lemma {:induction false} LeftIsWaiting<T>(left: seq<T>, waiting: seq<T>, event: T)
    requires |waiting| <= |left| && (left + [event])[..|waiting| + 1] == waiting + [event]
    requires |left| > |waiting| ==> left[|waiting|] != event
    ensures left == waiting
  {
    var n := |waiting|;
    assert (left + [event])[n] == (waiting + [event])[n] == event;
    forall i | 0 <= i < n
      ensures left[i] == waiting[i]
    {
      assert (left + [event])[i] == (waiting + [event])[i];
    }
  }

  lemma {:induction false} NewlyVerified(k: Contract, tx: TxHash)
    requires k.verified <= |k.committed|
    ensures VerifiedBlocks(Contract(k.committed + [tx], |k.committed| + 1))
         == VerifiedBlocks(k) + (CommitEvents(k, k.verified) + [BlockEvent(|k.committed| + 1, tx, Committed)])
  {
  }

  /** What safety says without any round, and with one that finds nothing. */
  lemma {:induction false} SafeNow(chain: Chain, s: State)
    requires Lawful(chain) && Safe(chain, s)
    ensures s.treeBlocks == VerifiedBlocks(ContractAt(chain, s.watched)) && |s.events.verified| <= |s.events.committed|
  {
    assert SameUpTo(chain, chain, s.watched);
    hide ContractAt, Lawful, LogsBetween, VerifiedBlocks;
    assert HeadsHold(chain, s.watched, [], 0);
    assert IsExact(chain, s, [], 0);
    assert [s.watched][1..] == [];
    assert HeadsHold(chain, s.watched, [s.watched], 0);
    assert IsExact(chain, s, [s.watched], 0);
  }

  /** And with one that reads the next Ethereum block. */
  lemma {:induction false} SafeNext(chain: Chain, later: Chain, s: State)
    requires Safe(chain, s) && SameUpTo(chain, later, s.watched) && Lawful(later) && |s.events.verified| <= |s.events.committed|
    requires LogsBetween(later, s.watched + 1, s.watched + 1) != []
    ensures var es := ApplyLogs(Drained(s.events), LogsBetween(later, s.watched + 1, s.watched + 1));
            es != NO_EVENTS ==>
              && |es.verified| <= |es.committed|
              && s.treeBlocks + Processable(es) == VerifiedBlocks(ContractAt(later, s.watched + 1))
  {
    hide ContractAt, Lawful, LogsBetween, VerifiedBlocks, ApplyLogs, SameUpTo;
    var latests := [s.watched + 1];
    assert latests[1..] == [];
    assert WindowEnd(s.watched, s.watched + 1, 0) == s.watched + 1;
    assert HeadsHold(later, s.watched, latests, 0);
    assert IsExact(later, s, latests, 0);
    assert Rounds(later, s, latests, 0) == Round(later, s, s.watched + 1, 0);
  }

  /** The weakest state to go on from: every lawful future is restored exactly if and only if the verified
      blocks were processed and the events that are left are those of the waiting blocks. */
  lemma {:induction false} SafeIffRestored(chain: Chain, s: State)
    requires Lawful(chain)
    ensures Safe(chain, s) <==> Restored(chain, s)
  {
    if Restored(chain, s) {
      RestoredIsSafe(chain, s);
    }
    if Safe(chain, s) {
      SafeIsRestored(chain, s);
    }
  }

  // ----- restarts between two rounds

  /** The order in which the database returns the events. */
  predicate InOrder(es: Events) {
    && (forall i, j :: 0 <= i < j < |es.committed| ==> es.committed[i].blockNum < es.committed[j].blockNum)
    && (forall i, j :: 0 <= i < j < |es.verified| ==> es.verified[i].blockNum < es.verified[j].blockNum)
  }

  /** The database between two rounds: the tree, and the events that are in memory or none at all. No saved
      operations are waiting. */
  predicate Saved(s: State) {
    && s.db.watched == s.watched && s.db.blocks == s.treeBlocks && InOrder(s.db.events)
    && (s.db.events == s.events || (s.db.events == NO_EVENTS && s.events.verified == []))
    && (s.db.state == EventsSaved ==> s.db.events == NO_EVENTS)
    && (s.db.state == OperationsSaved ==> s.db.ops == [])
  }

  lemma {:induction false} TracksInOrder(es: Events, base: nat, k: Contract)
    requires Tracks(es, base, k)
    ensures InOrder(es)
  {
  }

  /** Every round leaves the database so. */
  lemma {:induction false} RoundSaves(chain: Chain, s: State, latest: nat, step: nat)
    requires Lawful(chain) && Restored(chain, s) && HeadHolds(chain, s.watched, latest)
    requires s.db.blocks == s.treeBlocks && Round(chain, s, latest, step).Some?
    ensures Saved(Round(chain, s, latest, step).value)
  {
    var es := ApplyLogs(Drained(s.events), WindowLogs(chain, s.watched, latest, step));
    if latest >= s.watched {
      WindowIsTracked(chain, s, latest, step);
      TracksInOrder(es, ContractAt(chain, s.watched).verified, ContractAt(chain, WindowEnd(s.watched, latest, step)));
    } else {
      NothingBehind(chain, s.watched + 1, latest);
    }
    assert InOrder(NO_EVENTS);
    hide InOrder, ContractAt, Lawful, LogsBetween, Restored;
    if WindowLogs(chain, s.watched, latest, step) == [] {
      NoLogsNoChange(Drained(s.events), WindowLogs(chain, s.watched, latest, step));
    }
  }

  lemma {:induction false} RunSaves(chain: Chain, s: State, latests: seq<nat>, step: nat)
    requires Lawful(chain) && Restored(chain, s) && HeadsHold(chain, s.watched, latests, step) && Saved(s)
    ensures Rounds(chain, s, latests, step).Some? && Saved(Rounds(chain, s, latests, step).value)
    decreases |latests|
  {
    if latests != [] {
      hide Restored, Lawful, HeadHolds;
      RoundRestoresIff(chain, s, latests[0], step);
      RoundSaves(chain, s, latests[0], step);
      assert Round(chain, s, latests[0], step).value.watched == WindowEnd(s.watched, latests[0], step);
      RunSaves(chain, Round(chain, s, latests[0], step).value, latests[1..], step);
    }
  }

  /** A restart between two rounds: it is refused without a processed block, and otherwise the restoration
      is exact in every future if and only if the database holds events or none were waiting. */
  lemma {:induction false} RestartIsSafeIff(chain: Chain, s: State)
    requires Lawful(chain) && Restored(chain, s) && Saved(s)
    ensures Recovered(s.db).Some? <==> s.treeBlocks != []
    ensures s.treeBlocks != [] ==>
              (Safe(chain, Recovered(s.db).value) <==> s.db.events != NO_EVENTS || s.events.committed == [])
  {
    if s.treeBlocks != [] {
      var r := Recovered(s.db).value;
      assert r.events == s.db.events && r.watched == s.watched && r.treeBlocks == s.treeBlocks + [];
      SafeIffRestored(chain, r);
      hide Safe, ContractAt, Lawful, CommitEvents, VerifiedBlocks;
      if s.db.events == s.events {
        assert Restored(chain, r);
      } else {
        assert Drained(s.events).committed == s.events.committed && Drained(r.events).committed == [];
      }
    }
  }

  /** And it leaves the database as a round does, so the next stop is like the first. */
  lemma {:induction false} RecoveredIsSaved(db: Database)
    requires Recovered(db).Some? && InOrder(db.events)
    ensures Saved(Recovered(db).value)
  {
    hide InOrder;
    if db.state == EventsSaved {
      assert Processable(db.events) == [] ==> db.blocks + Processable(db.events) == db.blocks;
    } else if db.state == OperationsSaved {
      assert db.ops == [] ==> db.blocks + db.ops == db.blocks;
    }
  }

  /** The logs up to here, then the next verification. */
  function NextVerified(chain: Chain, until: nat, proof: TxHash): Chain
    requires Lawful(chain)
  {
    Continued(chain, until, [BlockVerification(ContractAt(chain, until).verified + 1, proof)])
  }

  /** What an unsafe restart forgot shows at the next verification, whatever the window size: the round that
      reads it panics. */
  lemma {:induction false} ForgottenCommitPanics(chain: Chain, s: State, step: nat, proof: TxHash)
    requires Lawful(chain) && Restored(chain, s) && Saved(s) && Recovered(s.db).Some?
    requires s.db.events == NO_EVENTS && s.events.committed != []
    ensures Lawful(NextVerified(chain, s.watched, proof))
    ensures Round(NextVerified(chain, s.watched, proof), Recovered(s.db).value, s.watched + 1, step) == None
  {
    hide *;
    Forgetful(s);
    BlockWaits(chain, s);
    NextVerifiedLogs(chain, s.watched, proof);
    VerifiedTooEarly(NextVerified(chain, s.watched, proof), Recovered(s.db).value, step, ContractAt(chain, s.watched).verified + 1, proof);
  }

  lemma {:induction false} NextVerifiedLogs(chain: Chain, until: nat, proof: TxHash)
    requires Lawful(chain) && ContractAt(chain, until).verified < |ContractAt(chain, until).committed|
    ensures Lawful(NextVerified(chain, until, proof))
    ensures LogsBetween(NextVerified(chain, until, proof), until + 1, until + 1)
         == [BlockVerification(ContractAt(chain, until).verified + 1, proof)]
  {
    OneVerification(ContractAt(chain, until), proof);
    hide ContractAt, Lawful, LogsBetween, LogsUpTo, Continued, EmitsAll, AfterLogs, SameUpTo;
    ContinuedLogs(chain, until, [BlockVerification(ContractAt(chain, until).verified + 1, proof)]);
    ContinuedIsLawful(chain, until, [BlockVerification(ContractAt(chain, until).verified + 1, proof)]);
  }

  lemma {:induction false} OneVerification(k: Contract, proof: TxHash)
    requires k.verified < |k.committed|
    ensures EmitsAll(k, [BlockVerification(k.verified + 1, proof)])
  {
    assert [BlockVerification(k.verified + 1, proof)][1..] == [];
  }

  lemma {:induction false} BlockWaits(chain: Chain, s: State)
    requires Lawful(chain) && Restored(chain, s) && s.events.verified == [] && s.events.committed != []
    ensures ContractAt(chain, s.watched).verified < |ContractAt(chain, s.watched).committed|
  {
    hide ContractAt, Lawful, VerifiedBlocks;
  }

  lemma {:induction false} Forgetful(s: State)
    requires Saved(s) && Recovered(s.db).Some? && s.db.events == NO_EVENTS
    ensures Recovered(s.db).value.events == NO_EVENTS && Recovered(s.db).value.watched == s.watched
    ensures s.events.verified == []
  {
  }

  lemma {:induction false} VerifiedTooEarly(chain: Chain, s: State, step: nat, n: nat, proof: TxHash)
    requires s.events == NO_EVENTS && LogsBetween(chain, s.watched + 1, s.watched + 1) == [BlockVerification(n, proof)]
    ensures Round(chain, s, s.watched + 1, step) == None
  {
    var logs := [BlockVerification(n, proof)];
    assert logs[1..] == [];
    assert ApplyLogs(NO_EVENTS, logs) == ApplyLog(NO_EVENTS, logs[0]);
    assert WindowEnd(s.watched, s.watched + 1, step) == s.watched + 1;
    assert Drained(s.events) == NO_EVENTS;
    hide LogsBetween, ApplyLogs;
  }

  /** From the genesis block on: after any run whose heads do not fall back, a restart is safe if and only
      if the database holds events or no block waits for its verification. */
  lemma {:induction false} RunCanRestartIff(chain: Chain, genesis: nat, latests: seq<nat>, step: nat)
    requires Lawful(chain) && LogsUpTo(chain, genesis) == [] && HeadsHold(chain, genesis, latests, step)
    ensures Rounds(chain, Started(genesis), latests, step).Some?
    ensures var s := Rounds(chain, Started(genesis), latests, step).value;
            var k := ContractAt(chain, s.watched);
            && (Recovered(s.db).Some? <==> k.verified > 0)
            && (k.verified > 0 ==>
                  (Safe(chain, Recovered(s.db).value) <==> s.db.events != NO_EVENTS || k.verified == |k.committed|))
  {
    StartIsRestored(chain, genesis);
    assert Saved(Started(genesis));
    RunRestores(chain, Started(genesis), latests, step);
    RunSaves(chain, Started(genesis), latests, step);
    var s := Rounds(chain, Started(genesis), latests, step).value;
    var k := ContractAt(chain, s.watched);
    RestartIsSafeIff(chain, s);
    DoneCount(k);
    assert |CommitEvents(k, k.verified)| == |k.committed| - k.verified;
    hide Safe, ContractAt, Lawful, LogsUpTo, Rounds, CommitEvents, VerifiedBlocks, InOrder;
    if s.db.events == NO_EVENTS {
      assert |Drained(s.events).committed| == |s.events.committed| - |s.events.verified|;
    }
  }

  /** Such a restart does happen: a waiting commit, a window without logs, a restart, and then the
      verification. */
  lemma {:induction false} QuietWindowLosesACommit(tx: TxHash, proof: TxHash)
    ensures var chain := [[], [BlockCommit(1, tx), BlockVerification(1, proof), BlockCommit(2, tx)], [], [BlockVerification(2, proof)]];
            var run := Rounds(chain, Started(0), [1, 2], 0);
            Lawful(chain) && run.Some? && Recovered(run.value.db).Some?
            && Round(chain, Recovered(run.value.db).value, 3, 0) == None
  {
    var first := [BlockCommit(1, tx), BlockVerification(1, proof), BlockCommit(2, tx)];
    var chain := [[], first, [], [BlockVerification(2, proof)]];
    FirstLogs(first, tx, proof);
    assert LogsBetween(chain, 1, 1) == [] + first == first;
    assert LogsBetween(chain, 2, 2) == [] + chain[2] == [];
    assert LogsBetween(chain, 3, 3) == [] + chain[3] == chain[3];
    assert LogsUpTo(chain, 1) == [] + first == first;
    assert LogsUpTo(chain, 2) == first + [] == first;
    assert LogsUpTo(chain, 3) == first + chain[3];
    assert LogsUpTo(chain, 4) == first + chain[3] + [] == first + chain[3];
    assert chain[3][1..] == [] && EmitsAll(AfterLogs(DEPLOYED, first), chain[3]);
    EmitsConcat(DEPLOYED, first, chain[3]);
    var s1 := Round(chain, Started(0), 1, 0).value;
    var s2 := Round(chain, s1, 2, 0).value;
    assert s2.db.events == NO_EVENTS && s2.db.state == EventsSaved && |s2.db.blocks| == 1 && s2.db.watched == 2;
    assert Rounds(chain, s1, [2], 0) == Some(s2);
    assert [1, 2][1..] == [2];
    var r := Recovered(s2.db).value;
    assert r.events == NO_EVENTS && r.watched == 2;
    VerifiedTooEarly(chain, r, 0, 2, proof);
  }

  lemma {:induction false} FirstLogs(logs: seq<Log>, tx: TxHash, proof: TxHash)
    requires logs == [BlockCommit(1, tx), BlockVerification(1, proof), BlockCommit(2, tx)]
    ensures EmitsAll(DEPLOYED, logs) && AfterLogs(DEPLOYED, logs) == Contract([tx, tx], 1)
    ensures ApplyLogs(NO_EVENTS, logs)
         == Events([BlockEvent(1, tx, Committed), BlockEvent(2, tx, Committed)], [BlockEvent(1, proof, Verified)])
  {
    assert logs[1..] == [BlockVerification(1, proof), BlockCommit(2, tx)];
    assert logs[1..][1..] == [BlockCommit(2, tx)];
    assert logs[1..][1..][1..] == [];
    var e1 := ApplyLog(NO_EVENTS, logs[0]);
    var e2 := ApplyLog(e1, logs[1]);
    assert ApplyLogs(e2, [logs[2]]) == ApplyLog(e2, logs[2]);
    assert ApplyLogs(e1, logs[1..]) == ApplyLogs(e2, [logs[2]]);
    var k1 := AfterLog(DEPLOYED, logs[0]);
    var k2 := AfterLog(k1, logs[1]);
    assert EmitsAll(k2, [logs[2]]) && AfterLogs(k2, [logs[2]]) == AfterLog(k2, logs[2]);
    assert EmitsAll(k1, logs[1..]) && AfterLogs(k1, logs[1..]) == AfterLogs(k2, [logs[2]]);
  }

  // ----- stops between two writes of a round

  /** The database when the driver stops after `n` writes of a round. */
  function StoppedAfter(chain: Chain, s: State, latest: nat, step: nat, n: nat): Database
    requires |s.events.verified| <= |s.events.committed| && n <= |Writes(chain, s, latest, step)|
  {
    if n == 0 then s.db else Writes(chain, s, latest, step)[n - 1]
  }

  /** The condition on such a database: it holds events or no block waits for its verification, and the stop
      was not between two blocks of one batch. */
  predicate Resumable(chain: Chain, s: State, latest: nat, step: nat, n: nat)
    requires Lawful(chain) && |s.events.verified| <= |s.events.committed| && n <= |Writes(chain, s, latest, step)|
  {
    var db := StoppedAfter(chain, s, latest, step, n);
    var k := ContractAt(chain, db.watched);
    && (db.events != NO_EVENTS || k.verified == |k.committed|)
    && (n > 2 ==> n == |Writes(chain, s, latest, step)|)
  }

  lemma {:induction false} NothingWaits(chain: Chain, s: State)
    requires Lawful(chain) && Restored(chain, s) && s.events.verified == []
    ensures s.events.committed == [] <==> ContractAt(chain, s.watched).verified == |ContractAt(chain, s.watched).committed|
  {
    hide ContractAt, Lawful, VerifiedBlocks;
    var k := ContractAt(chain, s.watched);
    assert |CommitEvents(k, k.verified)| == |k.committed| - k.verified;
  }

  /** A restored state whose events were forgotten. */
  lemma {:induction false} ForgottenIsRestoredIff(chain: Chain, s: State, r: State)
    requires Lawful(chain) && Restored(chain, s)
    requires r.events == NO_EVENTS && r.watched == s.watched && r.treeBlocks == s.treeBlocks
    ensures Restored(chain, r) <==> ContractAt(chain, s.watched).verified == |ContractAt(chain, s.watched).committed|
  {
    hide ContractAt, Lawful, VerifiedBlocks;
    var k := ContractAt(chain, s.watched);
    assert |CommitEvents(k, k.verified)| == |k.committed| - k.verified;
    assert Drained(NO_EVENTS) == NO_EVENTS;
  }

  /** The restart after this stop leaves a restored state. */
  predicate RecoversTo(chain: Chain, db: Database, restored: bool)
    requires Lawful(chain)
  {
    && (Recovered(db).Some? <==> db.blocks != [])
    && (db.blocks != [] ==> (Restored(chain, Recovered(db).value) <==> restored))
  }

  lemma {:induction false} FirstWrite(chain: Chain, s: State, latest: nat, step: nat, n: nat)
    requires |s.events.verified| <= |s.events.committed| && 0 < n <= |Writes(chain, s, latest, step)|
    requires StoppedAfter(chain, s, latest, step, n).events == NO_EVENTS && Round(chain, s, latest, step).Some?
    ensures var next, db := Round(chain, s, latest, step).value, StoppedAfter(chain, s, latest, step, n);
            && n == 1 && next.treeBlocks == s.treeBlocks && db == SaveEventsState(s.db, NO_EVENTS, next.watched)
  {
    hide LogsBetween, WindowEnd, ApplyLogs;
  }

  lemma {:induction false} StopWithoutEvents(chain: Chain, s: State, latest: nat, step: nat, n: nat)
    requires Lawful(chain) && Restored(chain, s) && Saved(s) && HeadHolds(chain, s.watched, latest)
    requires 0 < n <= |Writes(chain, s, latest, step)| && StoppedAfter(chain, s, latest, step, n).events == NO_EVENTS
    ensures RecoversTo(chain, StoppedAfter(chain, s, latest, step, n), Resumable(chain, s, latest, step, n))
  {
    RoundRestoresIff(chain, s, latest, step);
    assert |s.events.verified| <= |s.events.committed|;
    hide Round, Writes, StoppedAfter, InOrder, ContractAt, Lawful, Restored, HeadHolds;
    FirstWrite(chain, s, latest, step, n);
    var next, db := Round(chain, s, latest, step).value, StoppedAfter(chain, s, latest, step, n);
    if db.blocks != [] {
      assert s.treeBlocks + [] == s.treeBlocks;
      ForgottenIsRestoredIff(chain, next, Recovered(db).value);
    }
  }

  lemma {:induction false} LaterWrites(chain: Chain, s: State, latest: nat, step: nat, n: nat)
    requires |s.events.verified| <= |s.events.committed| && 0 < n <= |Writes(chain, s, latest, step)|
    requires StoppedAfter(chain, s, latest, step, n).events != NO_EVENTS && Round(chain, s, latest, step).Some?
    ensures var next, db := Round(chain, s, latest, step).value, StoppedAfter(chain, s, latest, step, n);
            && |next.events.verified| <= |next.events.committed| && db.events == next.events && db.watched == next.watched
            && var blocks := Processable(next.events);
               && next.treeBlocks == s.treeBlocks + blocks && |Writes(chain, s, latest, step)| == 2 + |blocks|
               && (n == 1 ==> db.state == EventsSaved && db.blocks == s.db.blocks)
               && (n == 2 ==> db.state == OperationsSaved && db.ops == blocks && db.blocks == s.db.blocks)
               && (n > 2 ==> db.state == Nothing && db.blocks == s.db.blocks + blocks[..n - 2])
  {
    hide LogsBetween, WindowEnd, ApplyLogs;
  }

  lemma {:induction false} StopWithEvents(chain: Chain, s: State, latest: nat, step: nat, n: nat)
    requires Lawful(chain) && Restored(chain, s) && Saved(s) && HeadHolds(chain, s.watched, latest)
    requires 0 < n <= |Writes(chain, s, latest, step)| && StoppedAfter(chain, s, latest, step, n).events != NO_EVENTS
    ensures RecoversTo(chain, StoppedAfter(chain, s, latest, step, n), Resumable(chain, s, latest, step, n))
  {
    RoundRestoresIff(chain, s, latest, step);
    assert |s.events.verified| <= |s.events.committed|;
    hide Round, Writes, StoppedAfter, InOrder, ContractAt, Lawful, HeadHolds, CommitEvents, VerifiedBlocks, SaveBlocks, SaveRollupOps;
    LaterWrites(chain, s, latest, step, n);
    var blocks := Processable(Round(chain, s, latest, step).value.events);
    assert blocks[..|blocks|] == blocks;
  }

  lemma {:induction false} StopInOrder(chain: Chain, s: State, latest: nat, step: nat, n: nat)
    requires Lawful(chain) && Restored(chain, s) && Saved(s) && HeadHolds(chain, s.watched, latest)
    requires n <= |Writes(chain, s, latest, step)|
    ensures InOrder(StoppedAfter(chain, s, latest, step, n).events)
  {
    RoundRestoresIff(chain, s, latest, step);
    RoundSaves(chain, s, latest, step);
    var next := Round(chain, s, latest, step).value;
    hide ContractAt, Lawful, LogsBetween, WindowEnd, ApplyLogs, HeadHolds, Restored;
    assert n > 0 ==> StoppedAfter(chain, s, latest, step, n).events == next.db.events;
    hide InOrder;
  }

  /** The recovery theorem. A restart after a stop between any two writes of a round is refused without a
      saved block, and otherwise it is safe in every future if and only if the database is resumable. */
  lemma {:induction false} StopIsSafeIff(chain: Chain, s: State, latest: nat, step: nat, n: nat)
    requires Lawful(chain) && Restored(chain, s) && Saved(s) && HeadHolds(chain, s.watched, latest)
    requires n <= |Writes(chain, s, latest, step)|
    ensures var db := StoppedAfter(chain, s, latest, step, n);
            && InOrder(db.events) && (Recovered(db).Some? <==> db.blocks != [])
            && (db.blocks != [] ==> (Safe(chain, Recovered(db).value) <==> Resumable(chain, s, latest, step, n)))
  {
    var db := StoppedAfter(chain, s, latest, step, n);
    StopInOrder(chain, s, latest, step, n);
    if n == 0 {
      RestartIsSafeIff(chain, s);
      if s.db.events == NO_EVENTS {
        NothingWaits(chain, s);
      }
    } else {
      RoundRestoresIff(chain, s, latest, step);
      var next := Round(chain, s, latest, step).value;
      if db.events == NO_EVENTS {
        StopWithoutEvents(chain, s, latest, step, n);
      } else {
        StopWithEvents(chain, s, latest, step, n);
      }
      if db.blocks != [] {
        SafeIffRestored(chain, Recovered(db).value);
      }
    }
  }

  // ----- any number of rounds and stops

  /** What the driver does with one head: a whole round, or a round that stops after so many writes, or at its
      end if it makes fewer, and a restart. */
  datatype Turn = Goes(latest: nat) | Stops(latest: nat, writes: nat)

  function WritesDone(chain: Chain, s: State, latest: nat, step: nat, writes: nat): (n: nat)
    requires |s.events.verified| <= |s.events.committed|
    ensures n <= |Writes(chain, s, latest, step)|
  {
    if writes <= |Writes(chain, s, latest, step)| then writes else |Writes(chain, s, latest, step)|
  }

  function OneTurn(chain: Chain, s: State, turn: Turn, step: nat): Option<State> {
    match turn
    case Goes(latest) => Round(chain, s, latest, step)
    case Stops(latest, writes) =>
      if |s.events.verified| > |s.events.committed| then None
      else Recovered(StoppedAfter(chain, s, latest, step, WritesDone(chain, s, latest, step, writes)))
  }

  /** No result stands for a panic or a refused restart. */
  function Turns(chain: Chain, s: State, turns: seq<Turn>, step: nat): Option<State>
    decreases |turns|
  {
    if turns == [] then Some(s)
    else
      var next := OneTurn(chain, s, turns[0], step);
      if next.None? then None else Turns(chain, next.value, turns[1..], step)
  }

  /** No head falls back to an older contract. */
  predicate TurnsHold(chain: Chain, s: State, turns: seq<Turn>, step: nat)
    requires Lawful(chain)
    decreases |turns|
  {
    turns != [] ==>
      && HeadHolds(chain, s.watched, turns[0].latest)
      && var next := OneTurn(chain, s, turns[0], step);
         (next.Some? ==> TurnsHold(chain, next.value, turns[1..], step))
  }

  /** A stop leaves blocks in the database and is resumable. */
  predicate TurnIsResumable(chain: Chain, s: State, turn: Turn, step: nat)
    requires Lawful(chain)
  {
    turn.Stops? ==>
      && |s.events.verified| <= |s.events.committed|
      && var n := WritesDone(chain, s, turn.latest, step, turn.writes);
         StoppedAfter(chain, s, turn.latest, step, n).blocks != [] && Resumable(chain, s, turn.latest, step, n)
  }

  predicate AllResumable(chain: Chain, s: State, turns: seq<Turn>, step: nat)
    requires Lawful(chain)
    decreases |turns|
  {
    turns != [] ==>
      && TurnIsResumable(chain, s, turns[0], step)
      && var next := OneTurn(chain, s, turns[0], step);
         (next.Some? ==> AllResumable(chain, next.value, turns[1..], step))
  }

  ghost predicate EndsSafe(chain: Chain, s: State, turns: seq<Turn>, step: nat) {
    Turns(chain, s, turns, step).Some? && Safe(chain, Turns(chain, s, turns, step).value)
  }

  /** After every turn, every lawful future is restored exactly. */
  ghost predicate AlwaysSafe(chain: Chain, s: State, turns: seq<Turn>, step: nat) {
    forall n :: 0 <= n <= |turns| ==> EndsSafe(chain, s, turns[..n], step)
  }

  /** One turn from a restored state: it ends, and safely, exactly if it is resumable, and then the next turn
      starts from a state like this one. */
  lemma {:induction false} TurnIsSafeIff(chain: Chain, s: State, turn: Turn, step: nat)
    requires Lawful(chain) && Restored(chain, s) && Saved(s) && HeadHolds(chain, s.watched, turn.latest)
    ensures OneTurn(chain, s, turn, step).Some? && Safe(chain, OneTurn(chain, s, turn, step).value)
       <==> TurnIsResumable(chain, s, turn, step)
    ensures TurnIsResumable(chain, s, turn, step) ==>
              Restored(chain, OneTurn(chain, s, turn, step).value) && Saved(OneTurn(chain, s, turn, step).value)
  {
    assert |s.events.verified| <= |s.events.committed|;
    hide Round, Restored, Saved, Safe, Lawful, HeadHolds, Resumable, Recovered, StoppedAfter, Writes, InOrder;
    match turn {
      case Goes(latest) =>
        RoundRestoresIff(chain, s, latest, step);
        SavedBlocks(s);
        RoundSaves(chain, s, latest, step);
      case Stops(latest, writes) =>
        var n := WritesDone(chain, s, latest, step, writes);
        StopIsSafeIff(chain, s, latest, step, n);
        var db := StoppedAfter(chain, s, latest, step, n);
        if db.blocks != [] {
          RecoveredIsSaved(db);
        }
    }
    if OneTurn(chain, s, turn, step).Some? {
      SafeIffRestored(chain, OneTurn(chain, s, turn, step).value);
    }
  }

  lemma {:induction false} SavedBlocks(s: State)
    requires Saved(s)
    ensures s.db.blocks == s.treeBlocks
  {
  }

  lemma {:induction false} TurnsShift(chain: Chain, s: State, turns: seq<Turn>, step: nat)
    requires turns != [] && Safe(chain, s)
    ensures var next := OneTurn(chain, s, turns[0], step);
            AlwaysSafe(chain, s, turns, step) <==> next.Some? && AlwaysSafe(chain, next.value, turns[1..], step)
  {
    hide Safe, OneTurn;
    var next, rest := OneTurn(chain, s, turns[0], step), turns[1..];
    assert turns[..0] == [] && EndsSafe(chain, s, turns[..0], step);
    forall n | 0 <= n <= |rest|
      ensures EndsSafe(chain, s, turns[..n + 1], step) <==> next.Some? && EndsSafe(chain, next.value, rest[..n], step)
    {
      assert turns[..n + 1][0] == turns[0] && turns[..n + 1][1..] == rest[..n];
    }
    hide EndsSafe;
    if next.Some? && AlwaysSafe(chain, next.value, rest, step) {
      forall n | 0 < n <= |turns|
        ensures EndsSafe(chain, s, turns[..n], step)
      {
        assert EndsSafe(chain, next.value, rest[..n - 1], step);
      }
    }
    if AlwaysSafe(chain, s, turns, step) {
      assert EndsSafe(chain, s, turns[..0 + 1], step);
      forall n | 0 <= n <= |rest|
        ensures EndsSafe(chain, next.value, rest[..n], step)
      {
        assert EndsSafe(chain, s, turns[..n + 1], step);
      }
    }
  }

  /** The theorem on whole lives of the driver. Over any number of rounds, stops and restarts, the restoration
      stays exact, whatever the contract does next, if and only if every stop was resumable. */
  lemma {:induction false} TurnsAreSafeIff(chain: Chain, s: State, turns: seq<Turn>, step: nat)
    requires Lawful(chain) && Restored(chain, s) && Saved(s) && TurnsHold(chain, s, turns, step)
    ensures AlwaysSafe(chain, s, turns, step) <==> AllResumable(chain, s, turns, step)
    decreases |turns|
  {
    hide Safe, Restored, Saved, Lawful, HeadHolds, OneTurn, TurnIsResumable, AlwaysSafe;
    SafeIffRestored(chain, s);
    if turns == [] {
      NoTurns(chain, s, turns, step);
    } else {
      TurnIsSafeIff(chain, s, turns[0], step);
      TurnsShift(chain, s, turns, step);
      var next := OneTurn(chain, s, turns[0], step);
      if next.Some? && TurnIsResumable(chain, s, turns[0], step) {
        TurnsAreSafeIff(chain, next.value, turns[1..], step);
      } else if next.Some? {
        StartsSafe(chain, next.value, turns[1..], step);
      }
    }
  }

  lemma {:induction false} NoTurns(chain: Chain, s: State, turns: seq<Turn>, step: nat)
    requires turns == [] && Safe(chain, s)
    ensures AlwaysSafe(chain, s, turns, step)
  {
    hide Safe;
    assert turns[..0] == [];
  }

  lemma {:induction false} StartsSafe(chain: Chain, s: State, turns: seq<Turn>, step: nat)
    ensures AlwaysSafe(chain, s, turns, step) ==> Safe(chain, s)
  {
    hide Safe;
    if AlwaysSafe(chain, s, turns, step) {
      assert turns[..0] == [] && EndsSafe(chain, s, turns[..0], step);
    }
  }

  predicate HeadsAscend(turns: seq<Turn>) {
    forall i, j :: 0 <= i < j < |turns| ==> turns[i].latest <= turns[j].latest
  }

  lemma {:induction false} TurnWatches(chain: Chain, s: State, turn: Turn, step: nat)
    requires s.db.watched == s.watched && OneTurn(chain, s, turn, step).Some?
    ensures var next := OneTurn(chain, s, turn, step).value;
            next.db.watched == next.watched && (next.watched == s.watched || next.watched == WindowEnd(s.watched, turn.latest, step))
  {
    hide WindowEnd, WindowLogs, ApplyLogs;
  }

  /** Heads that never decrease hold, with stops as without. */
  lemma {:induction false} MonotoneTurnsHold(chain: Chain, s: State, turns: seq<Turn>, step: nat)
    requires Lawful(chain) && HeadsAscend(turns) && s.db.watched == s.watched
    requires LogsUpTo(chain, s.watched) == [] || turns == [] || s.watched <= turns[0].latest
    ensures TurnsHold(chain, s, turns, step)
    decreases |turns|
  {
    if turns != [] {
      var latest := turns[0].latest;
      if latest < s.watched {
        NoLogsBefore(chain, latest, s.watched);
      }
      assert HeadHolds(chain, s.watched, latest);
      var next := OneTurn(chain, s, turns[0], step);
      if next.Some? {
        hide LogsUpTo, Lawful, OneTurn, HeadHolds;
        TurnWatches(chain, s, turns[0], step);
        MonotoneTurnsHold(chain, next.value, turns[1..], step);
      }
    }
  }

  /** From genesis on: resumable stops and heads that do not fall back leave exactly the verified blocks
      processed. */
  lemma {:induction false} TurnsAreExact(chain: Chain, genesis: nat, turns: seq<Turn>, step: nat)
    requires Lawful(chain) && LogsUpTo(chain, genesis) == []
    requires TurnsHold(chain, Started(genesis), turns, step) && AllResumable(chain, Started(genesis), turns, step)
    ensures Turns(chain, Started(genesis), turns, step).Some?
    ensures var s := Turns(chain, Started(genesis), turns, step).value;
            s.treeBlocks == VerifiedBlocks(ContractAt(chain, s.watched))
  {
    StartIsRestored(chain, genesis);
    assert Saved(Started(genesis));
    hide Saved, Restored, Lawful, LogsUpTo, TurnsHold, AllResumable, Turns, Safe, Started;
    TurnsAreSafeIff(chain, Started(genesis), turns, step);
    assert turns[..|turns|] == turns && EndsSafe(chain, Started(genesis), turns[..|turns|], step);
    SafeNow(chain, Turns(chain, Started(genesis), turns, step).value);
  }
}
