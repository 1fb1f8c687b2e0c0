/** What becomes of the restoration when a head falls back and the logs behind it are read again. */
module HeadFalls {
  import opened BlockEvents
  import opened Common
  import opened DataRestore

  // ----- reading a window

  lemma {:induction false} ApplyConcat(es: Events, x: seq<Log>, y: seq<Log>)
    ensures ApplyLogs(es, x + y) == ApplyLogs(ApplyLogs(es, x), y)
    decreases |x|
  {
    hide ApplyLog;
    if x == [] {
      assert x + y == y;
    } else {
      assert (x + y)[0] == x[0] && (x + y)[1..] == x[1..] + y;
      ApplyConcat(ApplyLog(es, x[0]), x[1..], y);
    }
  }

  lemma {:induction false} LogsBetweenSplit(chain: Chain, from: nat, mid: nat, until: nat)
    requires from <= mid + 1 && mid <= until
    ensures LogsBetween(chain, from, until) == LogsBetween(chain, from, mid) + LogsBetween(chain, mid + 1, until)
    decreases until
  {
    hide LogsAt;
    if until > mid {
      LogsBetweenSplit(chain, from, mid, until - 1);
      Regroup(LogsBetween(chain, from, mid), LogsBetween(chain, mid + 1, until - 1), LogsAt(chain, until));
    }
  }

  /** The verifications that were read are those of blocks the contract has verified. */
  predicate VerifiedBy(es: Events, k: Contract) {
    forall i :: 0 <= i < |es.verified| ==> es.verified[i].blockNum <= k.verified
  }

  lemma {:induction false} RetainedAll(events: seq<BlockEvent>, bound: nat)
    requires forall i :: 0 <= i < |events| ==> events[i].blockNum <= bound
    ensures Retained(events, bound) == events
  {
    if events != [] {
      RetainedAll(events[1..], bound);
      assert events == [events[0]] + events[1..];
    }
  }

  /** Reverts keep the verifications, so a window adds as many as the contract emitted. */
  lemma {:induction false} WindowCounts(es: Events, k: Contract, logs: seq<Log>)
    requires EmitsAll(k, logs) && VerifiedBy(es, k)
    ensures AfterLogs(k, logs).verified >= k.verified
    ensures |ApplyLogs(es, logs).verified| == |es.verified| + AfterLogs(k, logs).verified - k.verified
    decreases |logs|
  {
    if logs != [] {
      if logs[0].BlocksRevert? {
        RetainedAll(es.verified, k.verified);
      }
      WindowCounts(ApplyLog(es, logs[0]), AfterLog(k, logs[0]), logs[1..]);
    }
  }

  // ----- rounds over logs that were read before

  predicate Forward(watched: nat, latests: seq<nat>, step: nat)
    decreases |latests|
  {
    latests == [] || (latests[0] >= watched && Forward(WindowEnd(watched, latests[0], step), latests[1..], step))
  }

  lemma {:induction false} ForwardAdvances(watched: nat, latests: seq<nat>, step: nat)
    requires Forward(watched, latests, step)
    ensures Watched(watched, latests, step) >= watched
    decreases |latests|
  {
    if latests != [] {
      ForwardAdvances(WindowEnd(watched, latests[0], step), latests[1..], step);
    }
  }

  /** One forward round from any events: unless it panics it reads its window on top of what was left,
      and processes as many blocks as the contract verified in the window. */
  lemma {:induction false} RoundReads(chain: Chain, s: State, latest: nat, step: nat)
    requires Lawful(chain) && latest >= s.watched && |s.events.verified| <= |s.events.committed|
    ensures var until := WindowEnd(s.watched, latest, step);
            var es := ApplyLogs(Drained(s.events), LogsBetween(chain, s.watched + 1, until));
            && ContractAt(chain, until).verified >= ContractAt(chain, s.watched).verified
            && |es.verified| == ContractAt(chain, until).verified - ContractAt(chain, s.watched).verified
            && (es.verified == [] ==> Round(chain, s, latest, step).Some?)
            && (Round(chain, s, latest, step).Some? ==>
                  var next := Round(chain, s, latest, step).value;
                  && next.watched == until && next.events == es
                  && |next.treeBlocks| == |s.treeBlocks| + |es.verified| && s.treeBlocks <= next.treeBlocks)
  {
    var until := WindowEnd(s.watched, latest, step);
    hide ContractAt, Lawful, LogsBetween;
    ContractMoves(chain, s.watched, until);
    WindowCounts(Drained(s.events), ContractAt(chain, s.watched), WindowLogs(chain, s.watched, latest, step));
  }

  lemma {:induction false} RunCounts(chain: Chain, s: State, latests: seq<nat>, step: nat)
    requires Lawful(chain) && Forward(s.watched, latests, step) && Rounds(chain, s, latests, step).Some?
    ensures |Rounds(chain, s, latests, step).value.treeBlocks|
         == |s.treeBlocks| + ContractAt(chain, Watched(s.watched, latests, step)).verified - ContractAt(chain, s.watched).verified
    decreases |latests|
  {
    if latests != [] {
      assert Round(chain, s, latests[0], step).Some?;
      hide Round, ContractAt, Lawful, LogsBetween, WindowEnd, ApplyLogs;
      InRange(chain, s, latests[0], step);
      RoundReads(chain, s, latests[0], step);
      RunCounts(chain, Round(chain, s, latests[0], step).value, latests[1..], step);
    }
  }

  lemma {:induction false} InRange(chain: Chain, s: State, latest: nat, step: nat)
    requires Round(chain, s, latest, step).Some?
    ensures |s.events.verified| <= |s.events.committed|
  {
  }

  /** Windows in which nothing is verified are read one after the other on top of what was left. */
  lemma {:induction false} QuietRun(chain: Chain, s: State, latests: seq<nat>, step: nat)
    requires Lawful(chain) && Forward(s.watched, latests, step) && s.events.verified == []
    requires ContractAt(chain, Watched(s.watched, latests, step)).verified == ContractAt(chain, s.watched).verified
    ensures Rounds(chain, s, latests, step).Some?
    ensures var r := Rounds(chain, s, latests, step).value;
            && r.treeBlocks == s.treeBlocks && r.events.verified == []
            && r.events == ApplyLogs(s.events, LogsBetween(chain, s.watched + 1, r.watched))
            && r.watched == Watched(s.watched, latests, step)
    decreases |latests|
  {
    hide Round, ContractAt, Lawful, LogsBetween, WindowEnd, ApplyLogs;
    if latests == [] {
      NothingBehind(chain, s.watched + 1, s.watched);
      NoLogsNoChange(s.events, LogsBetween(chain, s.watched + 1, s.watched));
    } else {
      var until, end := WindowEnd(s.watched, latests[0], step), Watched(s.watched, latests, step);
      assert Forward(until, latests[1..], step) && Watched(until, latests[1..], step) == end;
      RoundReads(chain, s, latests[0], step);
      WindowAdvances(s.watched, latests[0], step);
      ForwardAdvances(until, latests[1..], step);
      VerifiedGrows(chain, until, end);
      assert Drained(s.events) == s.events;
      var next := Round(chain, s, latests[0], step).value;
      hide CommitEvents, VerifiedBlocks, Restored, Forward, Drained, Watched;
      QuietRun(chain, next, latests[1..], step);
      JoinWindows(chain, s.events, s.watched, until, end);
    }
  }

  lemma {:induction false} JoinWindows(chain: Chain, es: Events, from: nat, mid: nat, until: nat)
    requires from <= mid <= until
    ensures ApplyLogs(ApplyLogs(es, LogsBetween(chain, from + 1, mid)), LogsBetween(chain, mid + 1, until))
         == ApplyLogs(es, LogsBetween(chain, from + 1, until))
  {
    hide ApplyLogs, LogsBetween;
    LogsBetweenSplit(chain, from + 1, mid, until);
    ApplyConcat(es, LogsBetween(chain, from + 1, mid), LogsBetween(chain, mid + 1, until));
  }

  lemma {:induction false} WindowAdvances(watched: nat, latest: nat, step: nat)
    requires latest >= watched
    ensures WindowEnd(watched, latest, step) >= watched
  {
  }

  lemma {:induction false} VerifiedGrows(chain: Chain, mid: nat, until: nat)
    requires Lawful(chain) && mid <= until
    ensures ContractAt(chain, mid).verified <= ContractAt(chain, until).verified
  {
    ContractMoves(chain, mid, until);
    DoneCount(ContractAt(chain, mid));
    DoneCount(ContractAt(chain, until));
    hide ContractAt, VerifiedBlocks, Lawful, LogsBetween;
  }

  // ----- reading logs twice

  function Min(a: nat, b: nat): nat {
    if a <= b then a else b
  }

  /** The lowest height a revert goes back to. */
  function Lowest(logs: seq<Log>, bound: nat): (r: nat)
    ensures r <= bound
    decreases |logs|
  {
    if logs == [] then bound
    else Lowest(logs[1..], if logs[0].BlocksRevert? then Min(bound, logs[0].totalCommitted) else bound)
  }

  lemma {:induction false} RetainedConcat(x: seq<BlockEvent>, y: seq<BlockEvent>, bound: nat)
    ensures Retained(x + y, bound) == Retained(x, bound) + Retained(y, bound)
  {
    if x == [] {
      assert x + y == y;
    } else {
      var head := if x[0].blockNum <= bound then [x[0]] else [];
      assert (x + y)[0] == x[0] && (x + y)[1..] == x[1..] + y;
      assert Retained(x + y, bound) == head + Retained(x[1..] + y, bound);
      assert Retained(x, bound) == head + Retained(x[1..], bound);
      hide Retained;
      RetainedConcat(x[1..], y, bound);
      Regroup(head, Retained(x[1..], bound), Retained(y, bound));
    }
  }

  lemma {:induction false} RetainedTwice(events: seq<BlockEvent>, a: nat, b: nat)
    ensures Retained(Retained(events, a), b) == Retained(events, Min(a, b))
  {
    if events != [] {
      var head, rest := if events[0].blockNum <= a then [events[0]] else [], Retained(events[1..], a);
      RetainedTwice(events[1..], a, b);
      RetainedConcat(head, rest, b);
      assert head != [] ==> head[1..] == [];
    }
  }

  /** Commit events that were left from before stay below the lowest revert; above it, and above the height
      `h` at the start, there are the events of the contract. */
  lemma {:induction false} Overlay(left: seq<BlockEvent>, es: Events, k: Contract, r: nat, h: nat, logs: seq<Log>)
    requires EmitsAll(k, logs) && Min(h, r) <= |k.committed|
    requires es.committed == Retained(left, r) + CommitEvents(k, Min(h, r))
    ensures Min(h, Lowest(logs, r)) <= |AfterLogs(k, logs).committed|
    ensures ApplyLogs(es, logs).committed == Retained(left, Lowest(logs, r)) + CommitEvents(AfterLogs(k, logs), Min(h, Lowest(logs, r)))
    decreases |logs|
  {
    if logs != [] {
      var log := logs[0];
      var r' := if log.BlocksRevert? then Min(r, log.totalCommitted) else r;
      OverlayStep(left, es, k, r, h, log);
      Overlay(left, ApplyLog(es, log), AfterLog(k, log), r', h, logs[1..]);
    }
  }

  lemma {:induction false} OverlayStep(left: seq<BlockEvent>, es: Events, k: Contract, r: nat, h: nat, log: Log)
    requires Emits(k, log) && Min(h, r) <= |k.committed|
    requires es.committed == Retained(left, r) + CommitEvents(k, Min(h, r))
    ensures var r' := if log.BlocksRevert? then Min(r, log.totalCommitted) else r;
            && Min(h, r') <= |AfterLog(k, log).committed|
            && ApplyLog(es, log).committed == Retained(left, r') + CommitEvents(AfterLog(k, log), Min(h, r'))
  {
    var b := Min(h, r);
    match log {
      case BlockCommit(n, tx) =>
        assert CommitEvents(AfterLog(k, log), b) == CommitEvents(k, b) + [BlockEvent(n, tx, Committed)];
        hide CommitEvents, Retained;
      case BlockVerification(_, _) =>
        assert CommitEvents(AfterLog(k, log), b) == CommitEvents(k, b);
        hide CommitEvents, Retained;
      case BlocksRevert(_, c) =>
        RevertedCommits(k, b, log);
        RetainedConcat(Retained(left, r), CommitEvents(k, b), c);
        RetainedTwice(left, r, c);
        assert Min(h, Min(r, c)) == Min(b, c);
        hide CommitEvents, Retained;
    }
  }

  lemma {:induction false} RevertedCommits(k: Contract, b: nat, log: Log)
    requires log.BlocksRevert? && Emits(k, log) && b <= |k.committed|
    ensures Min(b, log.totalCommitted) <= |AfterLog(k, log).committed|
    ensures Retained(CommitEvents(k, b), log.totalCommitted) == CommitEvents(AfterLog(k, log), Min(b, log.totalCommitted))
  {
    RetainedOfPrefix(CommitEvents(k, b), b, log.totalCommitted);
  }

  /** Some revert goes back to at most this height. */
  predicate RevertsTo(logs: seq<Log>, height: nat) {
    exists i :: 0 <= i < |logs| && logs[i].BlocksRevert? && logs[i].totalCommitted <= height
  }

  lemma {:induction false} LowestReverts(logs: seq<Log>, bound: nat, height: nat)
    requires height < bound
    ensures Lowest(logs, bound) <= height <==> RevertsTo(logs, height)
    decreases |logs|
  {
    if logs != [] {
      var log, rest := logs[0], logs[1..];
      if log.BlocksRevert? && log.totalCommitted <= height {
        assert RevertsTo(logs, height);
      } else {
        LowestReverts(rest, if log.BlocksRevert? then Min(bound, log.totalCommitted) else bound, height);
        if RevertsTo(rest, height) {
          var i :| 0 <= i < |rest| && rest[i].BlocksRevert? && rest[i].totalCommitted <= height;
          assert logs[i + 1] == rest[i];
        }
        if RevertsTo(logs, height) {
          var i :| 0 <= i < |logs| && logs[i].BlocksRevert? && logs[i].totalCommitted <= height;
          assert rest[i - 1] == logs[i];
        }
      }
    }
  }

  /** Without such a revert the contract stays above the height. */
  lemma {:induction false} StaysAbove(k: Contract, logs: seq<Log>, bound: nat, height: nat)
    requires EmitsAll(k, logs) && Lowest(logs, bound) > height && |k.committed| > height
    ensures |AfterLogs(k, logs).committed| > height
    decreases |logs|
  {
    if logs != [] {
      StaysAbove(AfterLog(k, logs[0]), logs[1..], if logs[0].BlocksRevert? then Min(bound, logs[0].totalCommitted) else bound, height);
    }
  }

  /** Logs that verify nothing and do not revert to the height at the start end above it. */
  lemma {:induction false} GrowsAbove(k: Contract, logs: seq<Log>, bound: nat)
    requires EmitsAll(k, logs) && logs != [] && Lowest(logs, bound) > |k.committed|
    requires AfterLogs(k, logs).verified == k.verified
    ensures |AfterLogs(k, logs).committed| > |k.committed|
  {
    var next, rest := AfterLog(k, logs[0]), logs[1..];
    WindowCounts(NO_EVENTS, next, rest);
    if logs[0].BlockCommit? {
      StaysAbove(next, rest, bound, |k.committed|);
    }
  }

  // ----- falling back and reading again

  /** Reading the logs after `latest` again leads to the events they led to before: no block was verified
      in them and, unless there are none, some revert goes back to the height the contract had at `latest`
      or below. */
  predicate Harmless(chain: Chain, latest: nat, watched: nat)
    requires Lawful(chain)
  {
    var older, logs := ContractAt(chain, latest), LogsBetween(chain, latest + 1, watched);
    && older.verified == ContractAt(chain, watched).verified
    && (logs == [] || RevertsTo(logs, |older.committed|))
  }

  /** The commit events of the blocks up to a height, then those above a lower one: nothing is doubled
      exactly if the two are the same, or both are the top. */
  lemma {:induction false} NothingDoubled(m: Contract, left: seq<BlockEvent>, r: nat, h: nat)
    requires m.verified <= |m.committed| && left == CommitEvents(m, m.verified)
    requires m.verified <= r && m.verified <= h && Min(h, r) <= |m.committed|
    ensures Retained(left, r) + CommitEvents(m, Min(h, r)) == left <==> r <= h || |m.committed| == h
  {
    RetainedOfPrefix(left, m.verified, r);
    hide Retained;
    var b, kept := Min(h, r), Min(r, |m.committed|);
    assert Retained(left, r) == left[..kept - m.verified];
    assert |left[..kept - m.verified] + CommitEvents(m, b)| == kept - m.verified + |m.committed| - b;
    if kept == b {
      assert left[..kept - m.verified] + CommitEvents(m, b) == left;
    }
  }

  /** The events that were left, after the logs that led to them were read once more. */
  lemma {:induction false} ReadTwice(k: Contract, logs: seq<Log>, es: Events)
    requires EmitsAll(k, logs) && k.verified <= |k.committed|
    requires var m := AfterLogs(k, logs); m.verified == k.verified && es.committed == CommitEvents(m, m.verified)
    ensures ApplyLogs(es, logs).committed == es.committed <==> logs == [] || RevertsTo(logs, |k.committed|)
  {
    var m, h := AfterLogs(k, logs), |k.committed|;
    var top := h + |m.committed| + 1;
    RetainedAll(es.committed, top);
    assert es.committed + CommitEvents(k, h) == es.committed;
    hide ApplyLogs, Retained, EmitsAll, AfterLogs, Lowest, RevertsTo, CommitEvents;
    Overlay(es.committed, es, k, top, h, logs);
    LowestReverts(logs, top, h);
    LowestIsVerified(k, logs, top, k.verified);
    NothingDoubled(m, es.committed, Lowest(logs, top), h);
    if logs == [] {
      NoLogsNoChange(es, logs);
    } else if Lowest(logs, top) > h {
      GrowsAbove(k, logs, top);
    }
  }

  /** Reverts never go below the verified blocks. */
  lemma {:induction false} LowestIsVerified(k: Contract, logs: seq<Log>, bound: nat, verified: nat)
    requires EmitsAll(k, logs) && verified <= bound && verified <= k.verified
    ensures Lowest(logs, bound) >= verified
    decreases |logs|
  {
    if logs != [] {
      LowestIsVerified(AfterLog(k, logs[0]), logs[1..], if logs[0].BlocksRevert? then Min(bound, logs[0].totalCommitted) else bound,
                       verified);
    }
  }

  /** The state after a head that fell back. */
  function Fallen(s: State, latest: nat): State
    requires |s.events.verified| <= |s.events.committed|
  {
    State(Drained(s.events), latest, s.treeBlocks, SaveEventsState(s.db, NO_EVENTS, latest))
  }

  lemma {:induction false} FallenRun(chain: Chain, s: State, latest: nat, latests: seq<nat>, step: nat)
    requires |s.events.verified| <= |s.events.committed| && latest < s.watched
    ensures Rounds(chain, s, [latest] + latests, step) == Rounds(chain, Fallen(s, latest), latests, step)
  {
    NothingBehind(chain, s.watched + 1, latest);
    assert Round(chain, s, latest, step) == Some(Fallen(s, latest));
    hide Round;
    assert ([latest] + latests)[0] == latest && ([latest] + latests)[1..] == latests;
  }

  /** Behind a verified block a fall is never repaired: the blocks are processed twice, or a drain or slice
      is out of range. */
  lemma {:induction false} FallRepeatsBlocks(chain: Chain, s: State, latest: nat, latests: seq<nat>, step: nat)
    requires Lawful(chain) && Restored(chain, s) && latest < s.watched
    requires Forward(latest, latests, step) && Watched(latest, latests, step) == s.watched
    ensures var run, again := Rounds(chain, s, [latest] + latests, step),
                ContractAt(chain, s.watched).verified - ContractAt(chain, latest).verified;
            again >= 0 && (run.Some? ==> |run.value.treeBlocks| == |VerifiedBlocks(ContractAt(chain, s.watched))| + again)
  {
    hide Round, ContractAt, Lawful, LogsBetween, WindowEnd, ApplyLogs, VerifiedBlocks, CommitEvents;
    FallenRun(chain, s, latest, latests, step);
    VerifiedGrows(chain, latest, s.watched);
    if Rounds(chain, Fallen(s, latest), latests, step).Some? {
      RunCounts(chain, Fallen(s, latest), latests, step);
    }
  }

  lemma {:induction false} BackWhereItWas(latest: nat, watched: nat, latests: seq<nat>, step: nat)
    requires latest < watched
    ensures Watched(watched, [latest] + latests, step) == Watched(latest, latests, step)
  {
    assert ([latest] + latests)[0] == latest && ([latest] + latests)[1..] == latests;
  }

  /** Where nothing was verified, the events decide. */
  lemma {:induction false} QuietFall(chain: Chain, s: State, latest: nat, latests: seq<nat>, step: nat)
    requires Lawful(chain) && Restored(chain, s) && latest < s.watched
    requires Forward(latest, latests, step) && Watched(latest, latests, step) == s.watched
    requires ContractAt(chain, latest).verified == ContractAt(chain, s.watched).verified
    ensures RunIsRestored(chain, s, [latest] + latests, step)
       <==> ApplyLogs(Drained(s.events), LogsBetween(chain, latest + 1, s.watched)).committed == Drained(s.events).committed
  {
    hide Round, ContractAt, Lawful, LogsBetween, WindowEnd, ApplyLogs, VerifiedBlocks, CommitEvents;
    FallenRun(chain, s, latest, latests, step);
    QuietRun(chain, Fallen(s, latest), latests, step);
    var r := Rounds(chain, Fallen(s, latest), latests, step).value;
    assert Drained(r.events).committed == r.events.committed;
  }

  /** The fall theorem. Once forward windows came back to where a head fell from, the restoration is as it
      should be if and only if reading these logs again was harmless. */
  lemma {:induction false} FallHealsIff(chain: Chain, s: State, latest: nat, latests: seq<nat>, step: nat)
    requires Lawful(chain) && Restored(chain, s) && latest < s.watched
    requires Forward(latest, latests, step) && Watched(latest, latests, step) == s.watched
    ensures RunIsRestored(chain, s, [latest] + latests, step) <==> Harmless(chain, latest, s.watched)
  {
    hide Round, Rounds, ContractAt, Lawful, LogsBetween, WindowEnd, ApplyLogs, CommitEvents, RevertsTo, Forward, Watched, EmitsAll, AfterLogs;
    if ContractAt(chain, latest).verified != ContractAt(chain, s.watched).verified {
      FallRepeatsBlocks(chain, s, latest, latests, step);
      if Rounds(chain, s, [latest] + latests, step).Some? {
        RoundsWatch(chain, s, [latest] + latests, step);
        BackWhereItWas(latest, s.watched, latests, step);
      }
    } else {
      QuietFall(chain, s, latest, latests, step);
      ContractMoves(chain, latest, s.watched);
      ReadTwice(ContractAt(chain, latest), LogsBetween(chain, latest + 1, s.watched), Drained(s.events));
    }
  }

  /** Here the only block is processed twice. */
  lemma {:induction false} BackwardHeadRepeatsABlock(tx: TxHash, proof: TxHash)
    ensures var chain := [[], [BlockCommit(1, tx), BlockVerification(1, proof)]];
            var event := BlockEvent(1, tx, Committed);
            Lawful(chain) && Rounds(chain, Started(0), [1, 0, 1], 0).Some?
            && Rounds(chain, Started(0), [1, 0, 1], 0).value.treeBlocks == [event, event]
  {
    var chain := [[], [BlockCommit(1, tx), BlockVerification(1, proof)]];
    TwoLogs(chain, tx, proof);
    var es := Events([BlockEvent(1, tx, Committed)], [BlockEvent(1, proof, Verified)]);
    var s1 := Round(chain, Started(0), 1, 0).value;
    assert s1.events == es && s1.watched == 1 && s1.treeBlocks == [BlockEvent(1, tx, Committed)];
    var s2 := Round(chain, s1, 0, 0).value;
    assert s2.events == NO_EVENTS && s2.watched == 0 && s2.treeBlocks == [BlockEvent(1, tx, Committed)];
    var s3 := Round(chain, s2, 1, 0).value;
    assert s3.treeBlocks == [BlockEvent(1, tx, Committed)] + [BlockEvent(1, tx, Committed)];
    assert Rounds(chain, s2, [1], 0) == Some(s3);
    assert Rounds(chain, s1, [0, 1], 0) == Some(s3);
  }

  lemma {:induction false} TwoLogs(chain: Chain, tx: TxHash, proof: TxHash)
    requires chain == [[], [BlockCommit(1, tx), BlockVerification(1, proof)]]
    ensures Lawful(chain) && LogsBetween(chain, 1, 1) == chain[1]
    ensures ApplyLogs(NO_EVENTS, chain[1]) == Events([BlockEvent(1, tx, Committed)], [BlockEvent(1, proof, Verified)])
  {
    assert LogsUpTo(chain, 1) == [] + chain[1] == chain[1];
    assert LogsUpTo(chain, 2) == chain[1] + [] == chain[1];
    assert chain[1][1..] == [BlockVerification(1, proof)] && chain[1][1..][1..] == [];
    assert EmitsAll(AfterLog(DEPLOYED, chain[1][0]), chain[1][1..]);
    var es := ApplyLog(NO_EVENTS, chain[1][0]);
    assert ApplyLogs(es, chain[1][1..]) == ApplyLog(es, chain[1][1]);
  }
}
