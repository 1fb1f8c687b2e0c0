/** What a run of the Ethereum sender adds up to: every operation that was loaded is queued, in flight or confirmed,
    each confirmed verification with withdrawals asks for one completion, and attempts are spaced as configured. */
module SenderRuns {
  import opened Common
  import opened TxQueue
  import opened EthSender

  // ----- what is held

  function TxsOf(ops: seq<ETHOperation>): (txs: seq<TxData>)
    ensures |txs| == |ops| && forall i :: 0 <= i < |ops| ==> txs[i] == ops[i].tx
  {
    seq(|ops|, i requires 0 <= i < |ops| => ops[i].tx)
  }

  function TxsLeft(confirmed: seq<(ETHOperation, Hash)>): (txs: seq<TxData>)
    ensures |txs| == |confirmed| && forall i :: 0 <= i < |confirmed| ==> txs[i] == confirmed[i].0.tx
  {
    seq(|confirmed|, i requires 0 <= i < |confirmed| => confirmed[i].0.tx)
  }

  /** How often a transaction waits in the queue. */
  function Queued(q: Queue, tx: TxData): nat {
    multiset(q.commits)[tx] + multiset(q.withdraws)[tx] + if tx.block in q.verifies && q.verifies[tx.block] == tx then 1 else 0
  }

  /** How often it waits, is in flight or was confirmed. */
  function Held(s: State, kept: seq<ETHOperation>, tx: TxData): nat {
    Queued(s.queue, tx) + multiset(TxsOf(InFlight(kept, s)))[tx] + multiset(TxsLeft(s.confirmed))[tx]
  }

  /** The confirmed verifications of blocks with withdrawals. */
  function Completed(confirmed: seq<(ETHOperation, Hash)>): nat {
    if confirmed == [] then 0
    else
      var tx := confirmed[|confirmed| - 1].0.tx;
      Completed(confirmed[..|confirmed| - 1]) + if tx.opType == Verify && tx.withdrawals then 1 else 0
  }

  /** Verifications wait under their own block. */
  predicate Keyed(q: Queue) {
    WellTyped(q) && forall n :: n in q.verifies ==> q.verifies[n].block == n
  }

  /** The completions that are due: one for each confirmed verification with withdrawals. */
  function Due(confirmed: seq<(ETHOperation, Hash)>, tx: TxData): nat {
    if tx == COMPLETE_WITHDRAWALS then Completed(confirmed) else 0
  }

  // ----- one step

  lemma {:induction false} PopTakesOne(q: Queue, tx: TxData)
    requires Keyed(q) && Chosen(q).Some?
    ensures Keyed(Popped(q)) && Queued(q, tx) == Queued(Popped(q), tx) + if tx == Front(q) then 1 else 0
  {
    match Chosen(q).value
    case Commit =>
      assert q.commits == [q.commits[0]] + q.commits[1..];
    case Withdraw =>
      assert q.withdraws == [q.withdraws[0]] + q.withdraws[1..];
    case Verify =>
  }

  lemma {:induction false} TxsAppend(ops: seq<ETHOperation>, op: ETHOperation)
    ensures TxsOf(ops + [op]) == TxsOf(ops) + [op.tx]
  {
  }

  lemma {:induction false} InitializeHolds(s: State, env: InitEnv, opts: Options, tx: TxData)
    requires Keyed(s.queue) && Chosen(s.queue).Some?
    ensures var next := Initialize(s, env, opts);
            Keyed(next.queue) && Held(next, [], tx) == Held(s, [], tx) && next.confirmed == s.confirmed
  {
    var next := Initialize(s, env, opts);
    PopTakesOne(s.queue, tx);
    hide Keyed, Queued, Chosen, Front, Popped, TxsOf, TxsLeft;
    if next != s {
      var op := next.ongoing[|s.ongoing|];
      assert InFlight([], next) == InFlight([], s) + [op];
      TxsAppend(InFlight([], s), op);
    }
  }

  lemma {:induction false} InitializeAllHolds(s: State, envs: seq<InitEnv>, opts: Options, tx: TxData)
    requires Keyed(s.queue)
    ensures var next := InitializeAll(s, envs, opts);
            Keyed(next.queue) && Held(next, [], tx) == Held(s, [], tx) && next.confirmed == s.confirmed
    decreases |envs|
  {
    hide Keyed, Held, Chosen, Initialize;
    if envs != [] && Chosen(s.queue).Some? {
      InitializeHolds(s, envs[0], opts, tx);
      InitializeAllHolds(Initialize(s, envs[0], opts), envs[1..], opts, tx);
    }
  }

  lemma {:induction false} TxsOfStays(kept: seq<ETHOperation>, op: ETHOperation, later: ETHOperation, rest: seq<ETHOperation>)
    requires later.tx == op.tx
    ensures TxsOf(kept + [later] + rest) == TxsOf(kept + ([op] + rest))
  {
  }

  lemma {:induction false} OneLess(kept: seq<ETHOperation>, op: ETHOperation, rest: seq<ETHOperation>, tx: TxData)
    ensures multiset(TxsOf(kept + ([op] + rest)))[tx] == multiset(TxsOf(kept + rest))[tx] + if tx == op.tx then 1 else 0
  {
    var a, b := TxsOf(kept), TxsOf(rest);
    assert TxsOf(kept + rest) == a + b;
    assert TxsOf(kept + ([op] + rest)) == a + [op.tx] + b;
  }

  /** The queue after a confirmation holds one completion more exactly for a verification with withdrawals. */
  lemma {:induction false} ReportAdds(q: Queue, op: ETHOperation, tx: TxData)
    requires Keyed(q) && q.sentPendingTxs > 0
    ensures Keyed(Reported(q, op))
    ensures Queued(Reported(q, op), tx)
         == Queued(q, tx) + if tx == COMPLETE_WITHDRAWALS && op.tx.opType == Verify && op.tx.withdrawals then 1 else 0
  {
  }

  lemma {:induction false} LeftAppend(confirmed: seq<(ETHOperation, Hash)>, op: ETHOperation, hash: Hash)
    ensures TxsLeft(confirmed + [(op, hash)]) == TxsLeft(confirmed) + [op.tx]
    ensures Completed(confirmed + [(op, hash)]) == Completed(confirmed) + if op.tx.opType == Verify && op.tx.withdrawals then 1 else 0
  {
    assert (confirmed + [(op, hash)])[..|confirmed|] == confirmed;
  }

  lemma {:induction false} LookHolds(s: State, kept: seq<ETHOperation>, outcome: Outcome, tx: TxData)
    requires Keyed(s.queue) && s.ongoing != [] && (outcome.Confirmed? ==> s.queue.sentPendingTxs > 0)
    ensures var next, kept' := AfterLook(s, outcome), KeptAfter(kept, s.ongoing[0], outcome);
            Keyed(next.queue) && Held(next, kept', tx) + Due(s.confirmed, tx) == Held(s, kept, tx) + Due(next.confirmed, tx)
  {
    var op, rest := s.ongoing[0], s.ongoing[1..];
    assert s.ongoing == [op] + rest;
    if outcome.Confirmed? {
      OneLess(kept, op, rest, tx);
      ReportAdds(s.queue, op, tx);
      LeftAppend(s.confirmed, op, outcome.hash);
      hide Keyed, Queued, Reported, TxsOf, TxsLeft, Completed;
    } else {
      TxsOfStays(kept, op, Updated(op, outcome), rest);
      hide Keyed, Queued, Reported, TxsOf, TxsLeft, Completed, SentBy, Updated;
    }
  }

  lemma {:induction false} SiftHolds(s: State, kept: seq<ETHOperation>, steps: nat -> StepEnv, opts: Options, i: nat, tx: TxData)
    requires Keyed(s.queue) && Sift(s, kept, steps, opts, i).Some?
    ensures var r := Sift(s, kept, steps, opts, i).value;
            Keyed(r.queue) && Held(r, [], tx) + Due(s.confirmed, tx) == Held(s, kept, tx) + Due(r.confirmed, tx)
    decreases |s.ongoing|
  {
    hide Keyed, Queued, Step, AfterLook, KeptAfter, TxsOf, TxsLeft, Completed, Due;
    if s.ongoing == [] {
      assert InFlight(kept, s) == kept == InFlight([], s.(ongoing := kept));
    } else {
      var outcome := Step(s.ongoing[0], steps(i), opts);
      LookHolds(s, kept, outcome, tx);
      SiftHolds(AfterLook(s, outcome), KeptAfter(kept, s.ongoing[0], outcome), steps, opts, i + 1, tx);
    }
  }

  // ----- loading

  /** No two commits and no two verifications are for one block. */
  predicate DistinctBlocks(txs: seq<TxData>) {
    forall i, j :: 0 <= i < j < |txs| && txs[i].opType == txs[j].opType && txs[i].opType != Withdraw ==> txs[i].block != txs[j].block
  }

  /** What waits was loaded. */
  predicate Seen(q: Queue, seen: seq<TxData>) {
    (forall i :: 0 <= i < |q.commits| ==> q.commits[i] in seen) && (forall n :: n in q.verifies ==> q.verifies[n] in seen)
  }

  lemma {:induction false} CommitHolds(q: Queue, seen: seq<TxData>, added: TxData, tx: TxData)
    requires added.opType == Commit && Keyed(q)
    requires tx.opType == Withdraw || (Seen(q, seen) && DistinctBlocks(seen + [added]))
    ensures Keyed(Add(q, added).value) && Queued(Add(q, added).value, tx) == Queued(q, tx) + if tx == added then 1 else 0
  {
    if tx.opType != Withdraw {
      NewBlock(q, seen, added);
    }
    hide Seen, DistinctBlocks;
    var next := Add(q, added).value;
    assert next.commits == q.commits || next.commits == q.commits + [added];
    assert tx.opType == Withdraw ==> tx !in multiset(next.commits) && tx !in multiset(q.commits);
  }

  lemma {:induction false} VerifyHolds(q: Queue, seen: seq<TxData>, added: TxData, tx: TxData)
    requires added.opType == Verify && Keyed(q) && Add(q, added).Some?
    requires tx.opType == Withdraw || (Seen(q, seen) && DistinctBlocks(seen + [added]))
    ensures Keyed(Add(q, added).value) && Queued(Add(q, added).value, tx) == Queued(q, tx) + if tx == added then 1 else 0
  {
    if tx.opType != Withdraw {
      NewBlock(q, seen, added);
    }
    hide Seen, DistinctBlocks;
  }

  lemma {:induction false} WithdrawHolds(q: Queue, added: TxData, tx: TxData)
    requires added.opType == Withdraw && Keyed(q)
    ensures Keyed(Add(q, added).value) && Queued(Add(q, added).value, tx) == Queued(q, tx) + if tx == added then 1 else 0
  {
    assert Add(q, added).value.withdraws == q.withdraws + [added];
  }

  lemma {:induction false} AddHolds(q: Queue, seen: seq<TxData>, added: TxData, tx: TxData)
    requires Keyed(q) && Add(q, added).Some?
    requires tx.opType == Withdraw || (Seen(q, seen) && DistinctBlocks(seen + [added]))
    ensures Keyed(Add(q, added).value) && Queued(Add(q, added).value, tx) == Queued(q, tx) + if tx == added then 1 else 0
  {
    hide *;
    match added.opType
    case Commit => CommitHolds(q, seen, added, tx);
    case Verify => VerifyHolds(q, seen, added, tx);
    case Withdraw => WithdrawHolds(q, added, tx);
  }

  /** A new block waits nowhere. */
  lemma {:induction false} NewBlock(q: Queue, seen: seq<TxData>, added: TxData)
    requires Keyed(q) && Seen(q, seen) && DistinctBlocks(seen + [added]) && added.opType != Withdraw
    ensures added.opType == Commit ==> forall i :: 0 <= i < |q.commits| ==> q.commits[i].block != added.block
    ensures added.opType == Verify ==> added.block !in q.verifies
  {
    var all := seen + [added];
    assert forall i :: 0 <= i < |seen| ==> all[i] == seen[i];
    assert all[|seen|] == added;
  }

  lemma {:induction false} AddIsSeen(q: Queue, seen: seq<TxData>, added: TxData)
    requires Add(q, added).Some? && Seen(q, seen)
    ensures Seen(Add(q, added).value, seen + [added])
  {
  }

  /** The state after more operations were loaded. */
  lemma {:induction false} AddAllHolds(s: State, seen: seq<TxData>, added: seq<TxData>, tx: TxData)
    requires Keyed(s.queue) && AddAll(s.queue, added).Some?
    requires tx.opType == Withdraw || (Seen(s.queue, seen) && DistinctBlocks(seen + added))
    ensures var q := AddAll(s.queue, added).value;
            && Keyed(q) && Queued(q, tx) == Queued(s.queue, tx) + multiset(added)[tx]
            && (Seen(s.queue, seen) ==> Seen(q, seen + added))
    decreases |added|
  {
    if added == [] {
      assert seen + added == seen;
    } else {
      var first, rest := added[0], added[1..];
      assert added == [first] + rest && seen + added == seen + [first] + rest;
      if tx.opType != Withdraw {
        DistinctFront(seen + [first], rest);
      }
      AddHolds(s.queue, seen, first, tx);
      if Seen(s.queue, seen) {
        AddIsSeen(s.queue, seen, first);
      }
      hide Keyed, Queued, Seen, DistinctBlocks, Add;
      AddAllHolds(s.(queue := Add(s.queue, first).value), seen + [first], rest, tx);
    }
  }

  lemma {:induction false} DistinctFront(front: seq<TxData>, rest: seq<TxData>)
    requires DistinctBlocks(front + rest)
    ensures DistinctBlocks(front)
  {
    assert forall i :: 0 <= i < |front| ==> (front + rest)[i] == front[i];
  }

  /** A pass loads nothing. */
  lemma {:induction false} PassIsSeen(s: State, envs: seq<InitEnv>, opts: Options, seen: seq<TxData>)
    requires Seen(s.queue, seen)
    ensures Seen(InitializeAll(s, envs, opts).queue, seen)
    decreases |envs|
  {
    if envs != [] && Chosen(s.queue).Some? {
      PassIsSeen(Initialize(s, envs[0], opts), envs[1..], opts, seen);
    }
  }

  lemma {:induction false} SiftIsSeen(s: State, kept: seq<ETHOperation>, steps: nat -> StepEnv, opts: Options, i: nat, seen: seq<TxData>)
    requires Seen(s.queue, seen) && Sift(s, kept, steps, opts, i).Some?
    ensures Seen(Sift(s, kept, steps, opts, i).value.queue, seen)
    decreases |s.ongoing|
  {
    hide Step, KeptAfter;
    if s.ongoing != [] {
      var outcome := Step(s.ongoing[0], steps(i), opts);
      SiftIsSeen(AfterLook(s, outcome), KeptAfter(kept, s.ongoing[0], outcome), steps, opts, i + 1, seen);
    }
  }

  // ----- whole runs

  /** All operations that were loaded, in order. */
  function Loaded(rounds: seq<Round>): seq<TxData> {
    if rounds == [] then [] else rounds[0].newOperations + Loaded(rounds[1..])
  }

  lemma {:induction false} RoundHolds(s: State, seen: seq<TxData>, round: Round, opts: Options, tx: TxData)
    requires Keyed(s.queue) && RunRound(s, round, opts).Some?
    requires tx.opType == Withdraw || (Seen(s.queue, seen) && DistinctBlocks(seen + round.newOperations))
    ensures var r := RunRound(s, round, opts).value;
            && Keyed(r.queue)
            && Held(r, [], tx) + Due(s.confirmed, tx) == Held(s, [], tx) + multiset(round.newOperations)[tx] + Due(r.confirmed, tx)
            && (Seen(s.queue, seen) ==> Seen(r.queue, seen + round.newOperations))
  {
    AddAllHolds(s, seen, round.newOperations, tx);
    var s1 := s.(queue := AddAll(s.queue, round.newOperations).value);
    assert InFlight([], s1) == InFlight([], s);
    InitializeAllHolds(s1, round.inits, opts, tx);
    SiftHolds(InitializeAll(s1, round.inits, opts), [], round.steps, opts, 0, tx);
    if Seen(s.queue, seen) {
      PassIsSeen(s1, round.inits, opts, seen + round.newOperations);
      SiftIsSeen(InitializeAll(s1, round.inits, opts), [], round.steps, opts, 0, seen + round.newOperations);
    }
    hide Keyed, Queued, Seen, DistinctBlocks, AddAll, InitializeAll, Sift, TxsOf, TxsLeft, Completed;
  }

  lemma {:induction false} RunHolds(s: State, seen: seq<TxData>, rounds: seq<Round>, opts: Options, tx: TxData)
    requires Keyed(s.queue) && RunAll(s, rounds, opts).Some?
    requires tx.opType == Withdraw || (Seen(s.queue, seen) && DistinctBlocks(seen + Loaded(rounds)))
    ensures var r := RunAll(s, rounds, opts).value;
            Held(r, [], tx) + Due(s.confirmed, tx) == Held(s, [], tx) + multiset(Loaded(rounds))[tx] + Due(r.confirmed, tx)
    decreases |rounds|
  {
    if rounds != [] {
      var first, rest := rounds[0].newOperations, Loaded(rounds[1..]);
      assert seen + Loaded(rounds) == seen + first + rest;
      if tx.opType != Withdraw {
        DistinctFront(seen + first, rest);
      }
      RoundHolds(s, seen, rounds[0], opts, tx);
      hide Keyed, Held, Seen, DistinctBlocks, RunRound, Due;
      RunHolds(RunRound(s, rounds[0], opts).value, seen + first, rounds[1..], opts, tx);
    }
  }

  lemma {:induction false} FreshHoldsNothing(maxPendingTxs: nat, tx: TxData)
    ensures Keyed(Fresh(maxPendingTxs).queue) && Held(Fresh(maxPendingTxs), [], tx) == 0 && Due(Fresh(maxPendingTxs).confirmed, tx) == 0
    ensures Seen(Fresh(maxPendingTxs).queue, [])
  {
    assert TxsOf(InFlight([], Fresh(maxPendingTxs))) == [];
  }

  /** Completions. Over any run a withdrawal transaction waits, is in flight or was confirmed exactly as often as it
      was loaded, and the completion of withdrawals once more for each confirmed verification with withdrawals. */
  lemma {:induction false} CompletionsAreCounted(maxPendingTxs: nat, rounds: seq<Round>, opts: Options, tx: TxData)
    requires RunAll(Fresh(maxPendingTxs), rounds, opts).Some? && tx.opType == Withdraw
    ensures var s := RunAll(Fresh(maxPendingTxs), rounds, opts).value;
            Held(s, [], tx) == multiset(Loaded(rounds))[tx] + if tx == COMPLETE_WITHDRAWALS then Completed(s.confirmed) else 0
  {
    FreshHoldsNothing(maxPendingTxs, tx);
    RunHolds(Fresh(maxPendingTxs), [], rounds, opts, tx);
    hide Held, Keyed, Completed;
  }

  /** Conservation. When no block is loaded twice, nothing that was loaded is lost, repeated or made up: every
      transaction waits, is in flight or was confirmed exactly as often as it was loaded, the due completions apart. */
  lemma {:induction false} EveryOperationIsHeld(maxPendingTxs: nat, rounds: seq<Round>, opts: Options, tx: TxData)
    requires RunAll(Fresh(maxPendingTxs), rounds, opts).Some? && DistinctBlocks(Loaded(rounds))
    ensures var s := RunAll(Fresh(maxPendingTxs), rounds, opts).value;
            Held(s, [], tx) == multiset(Loaded(rounds))[tx] + if tx == COMPLETE_WITHDRAWALS then Completed(s.confirmed) else 0
  {
    FreshHoldsNothing(maxPendingTxs, tx);
    assert [] + Loaded(rounds) == Loaded(rounds);
    RunHolds(Fresh(maxPendingTxs), [], rounds, opts, tx);
    hide Held, Keyed, Completed;
  }

  // ----- nonces

  /** As many nonces were given out as there are operations in flight or confirmed. */
  predicate NoncesCount(s: State, kept: seq<ETHOperation>) {
    s.nextNonce == |InFlight(kept, s)| + |s.confirmed|
  }

  lemma {:induction false} InitializeAllCounts(s: State, envs: seq<InitEnv>, opts: Options)
    requires NoncesCount(s, [])
    ensures NoncesCount(InitializeAll(s, envs, opts), [])
    decreases |envs|
  {
    hide Chosen, Front, Popped;
    if envs != [] && Chosen(s.queue).Some? {
      InitializeAllCounts(Initialize(s, envs[0], opts), envs[1..], opts);
    }
  }

  lemma {:induction false} SiftCounts(s: State, kept: seq<ETHOperation>, steps: nat -> StepEnv, opts: Options, i: nat)
    requires NoncesCount(s, kept) && Sift(s, kept, steps, opts, i).Some?
    ensures NoncesCount(Sift(s, kept, steps, opts, i).value, [])
    decreases |s.ongoing|
  {
    hide Step, Updated, SentBy, Reported;
    if s.ongoing != [] {
      var outcome := Step(s.ongoing[0], steps(i), opts);
      SiftCounts(AfterLook(s, outcome), KeptAfter(kept, s.ongoing[0], outcome), steps, opts, i + 1);
    }
  }

  lemma {:induction false} RunCounts(s: State, rounds: seq<Round>, opts: Options)
    requires NoncesCount(s, []) && RunAll(s, rounds, opts).Some?
    ensures NoncesCount(RunAll(s, rounds, opts).value, [])
    decreases |rounds|
  {
    if rounds != [] {
      var s1 := s.(queue := AddAll(s.queue, rounds[0].newOperations).value);
      InitializeAllCounts(s1, rounds[0].inits, opts);
      SiftCounts(InitializeAll(s1, rounds[0].inits, opts), [], rounds[0].steps, opts, 0);
      hide NoncesCount, InitializeAll, Sift, AddAll;
      RunCounts(RunRound(s, rounds[0], opts).value, rounds[1..], opts);
    }
  }

  /** Nonces are given out without gaps: over any run there are as many as operations in flight and confirmed, which
      all have different ones. */
  lemma {:induction false} NoncesHaveNoGaps(maxPendingTxs: nat, rounds: seq<Round>, opts: Options)
    requires RunAll(Fresh(maxPendingTxs), rounds, opts).Some?
    ensures var s := RunAll(Fresh(maxPendingTxs), rounds, opts).value;
            && s.nextNonce == |s.ongoing| + |s.confirmed|
            && NoncesAscend(s.ongoing) && LeftOnce(s.ongoing, s.confirmed, s.nextNonce)
  {
    assert NoncesCount(Fresh(maxPendingTxs), []);
    RunCounts(Fresh(maxPendingTxs), rounds, opts);
    SenderIsSafe(maxPendingTxs, rounds, opts);
  }

  // ----- attempts

  /** The last attempt under a nonce. */
  function LastAttempt(sent: seq<SentTx>, nonce: nat): Option<SentTx>
    decreases |sent|
  {
    if sent == [] then None
    else
      var t := sent[|sent| - 1];
      if t.nonce == nonce then Some(t) else LastAttempt(sent[..|sent| - 1], nonce)
  }

  /** The operation remembers the hash and the gas price of its last attempt. */
  predicate Remembers(op: ETHOperation, sent: seq<SentTx>) {
    var last := LastAttempt(sent, op.nonce);
    && last.Some? && op.usedTxHashes != [] && last.value.hash == op.usedTxHashes[|op.usedTxHashes| - 1]
    && last.value.gasPrice == op.lastUsedGasPrice && last.value.raw == op.tx.raw
  }

  predicate AllRemember(ops: seq<ETHOperation>, sent: seq<SentTx>) {
    forall i :: 0 <= i < |ops| ==> Remembers(ops[i], sent)
  }

  lemma {:induction false} AttemptAppend(sent: seq<SentTx>, tx: SentTx, nonce: nat)
    ensures LastAttempt(sent + [tx], nonce) == if tx.nonce == nonce then Some(tx) else LastAttempt(sent, nonce)
  {
    assert (sent + [tx])[..|sent|] == sent;
  }

  lemma {:induction false} InitializeRemembers(s: State, env: InitEnv, opts: Options)
    requires Sound(s, []) && Chosen(s.queue).Some? && AllRemember(s.ongoing, s.sent)
    ensures AllRemember(Initialize(s, env, opts).ongoing, Initialize(s, env, opts).sent)
  {
    var next := Initialize(s, env, opts);
    if next != s {
      var op, tx := next.ongoing[|s.ongoing|], next.sent[|s.sent|];
      assert next.sent == s.sent + [tx] && next.ongoing == s.ongoing + [op];
      assert InFlight([], s) == s.ongoing;
      forall i | 0 <= i < |next.ongoing|
        ensures Remembers(next.ongoing[i], next.sent)
      {
        AttemptAppend(s.sent, tx, next.ongoing[i].nonce);
        if i < |s.ongoing| {
          assert Remembers(s.ongoing[i], s.sent) && Recorded(s.ongoing[i], s.sent, s.nextNonce);
        }
      }
    }
  }

  lemma {:induction false} InitializeAllRemembers(s: State, envs: seq<InitEnv>, opts: Options)
    requires Sound(s, []) && AllRemember(s.ongoing, s.sent)
    ensures var next := InitializeAll(s, envs, opts); AllRemember(next.ongoing, next.sent)
    decreases |envs|
  {
    hide Sound, AllRemember, Initialize, Chosen;
    if envs != [] && Chosen(s.queue).Some? {
      InitializeIsSound(s, envs[0], opts);
      InitializeRemembers(s, envs[0], opts);
      InitializeAllRemembers(Initialize(s, envs[0], opts), envs[1..], opts);
    }
  }

  lemma {:induction false} UpdatedRemembers(ops: seq<ETHOperation>, sent: seq<SentTx>, k: nat, outcome: Outcome)
    requires k < |ops| && NoncesAscend(ops) && AllRemember(ops, sent)
    ensures AllRemember(ops[k := Updated(ops[k], outcome)], sent + SentBy(ops[k], outcome))
  {
    var op, later, all := ops[k], ops[k := Updated(ops[k], outcome)], sent + SentBy(ops[k], outcome);
    forall i | 0 <= i < |later|
      ensures Remembers(later[i], all)
    {
      assert Remembers(ops[i], sent);
      assert i < k ==> ops[i].nonce < op.nonce;
      assert i > k ==> op.nonce < ops[i].nonce;
      if outcome.Replaced? {
        AttemptAppend(sent, SentBy(op, outcome)[0], ops[i].nonce);
      } else {
        assert all == sent;
      }
    }
  }

  lemma {:induction false} LookRemembers(s: State, kept: seq<ETHOperation>, outcome: Outcome)
    requires Sound(s, kept) && s.ongoing != [] && AllRemember(InFlight(kept, s), s.sent)
    ensures s.queue.sentPendingTxs > 0
    ensures var next := AfterLook(s, outcome); AllRemember(InFlight(KeptAfter(kept, s.ongoing[0], outcome), next), next.sent)
  {
    var ops, op := InFlight(kept, s), s.ongoing[0];
    LookIsSound(s, kept, outcome);
    var next, kept' := AfterLook(s, outcome), KeptAfter(kept, op, outcome);
    if outcome.Confirmed? {
      assert forall i :: 0 <= i < |InFlight(kept', next)| ==> InFlight(kept', next)[i] == ops[if i < |kept| then i else i + 1];
      hide Remembers;
    } else {
      UpdatedRemembers(ops, s.sent, |kept|, outcome);
      hide AllRemember, Updated, SentBy;
      assert InFlight(kept', next) == ops[|kept| := Updated(op, outcome)];
    }
  }

  lemma {:induction false} SiftRemembers(s: State, kept: seq<ETHOperation>, steps: nat -> StepEnv, opts: Options, i: nat)
    requires Sound(s, kept) && AllRemember(InFlight(kept, s), s.sent) && Sift(s, kept, steps, opts, i).Some?
    ensures var r := Sift(s, kept, steps, opts, i).value; AllRemember(r.ongoing, r.sent)
    decreases |s.ongoing|
  {
    hide Sound, Step, AllRemember, AfterLook, KeptAfter;
    if s.ongoing == [] {
      assert InFlight(kept, s) == kept;
    } else {
      var outcome := Step(s.ongoing[0], steps(i), opts);
      LookIsSound(s, kept, outcome);
      LookRemembers(s, kept, outcome);
      SiftRemembers(AfterLook(s, outcome), KeptAfter(kept, s.ongoing[0], outcome), steps, opts, i + 1);
    }
  }

  lemma {:induction false} RunRemembers(s: State, rounds: seq<Round>, opts: Options)
    requires Sound(s, []) && AllRemember(s.ongoing, s.sent) && RunAll(s, rounds, opts).Some?
    ensures var r := RunAll(s, rounds, opts).value; AllRemember(r.ongoing, r.sent)
    decreases |rounds|
  {
    if rounds != [] {
      var round := rounds[0];
      AddAllOrdered(s.queue, round.newOperations);
      var s1 := s.(queue := AddAll(s.queue, round.newOperations).value);
      assert InFlight([], s1) == InFlight([], s);
      RoundIsSound(s, round, opts);
      InitializeAllIsSound(s1, round.inits, opts);
      InitializeAllRemembers(s1, round.inits, opts);
      var s2 := InitializeAll(s1, round.inits, opts);
      assert InFlight([], s2) == s2.ongoing;
      SiftRemembers(s2, [], round.steps, opts, 0);
      hide Sound, AllRemember, InitializeAll, Sift;
      RunRemembers(RunRound(s, round, opts).value, rounds[1..], opts);
    }
  }

  /** Over any run, each operation in flight remembers the hash and the gas price of its last attempt. */
  lemma {:induction false} LastAttemptIsRemembered(maxPendingTxs: nat, rounds: seq<Round>, opts: Options)
    requires RunAll(Fresh(maxPendingTxs), rounds, opts).Some?
    ensures var s := RunAll(Fresh(maxPendingTxs), rounds, opts).value; AllRemember(s.ongoing, s.sent)
  {
    assert Sound(Fresh(maxPendingTxs), []);
    RunRemembers(Fresh(maxPendingTxs), rounds, opts);
  }

  // ----- the time between attempts

  /** The step in this environment makes another attempt, with this hash and gas price. */
  predicate Attempts(op: ETHOperation, env: StepEnv, opts: Options) {
    Step(op, env, opts).Replaced?
  }

  /** The next attempt is made exactly with the answers of the network, and after it the next one is due the
      configured number of blocks later: not earlier, and from then on whenever no hash is included. */
  lemma {:induction false} AttemptsAreSpaced(op: ETHOperation, env: StepEnv, later: StepEnv, opts: Options)
    requires Attempts(op, env, opts)
    ensures var next := Updated(op, Step(op, env, opts));
            && env.block.Got? && env.supplement.Got?
            && next.usedTxHashes == op.usedTxHashes + [env.supplement.value.0] && next.lastUsedGasPrice == env.supplement.value.1
            && (Attempts(next, later, opts) <==>
                  && later.block.Got? && later.block.value >= env.block.value + opts.expectedWaitTimeBlock
                  && NoneIncluded(next, later, |next.usedTxHashes|) && later.supplement.Got?)
    ensures SentBy(op, Step(op, env, opts)) == [SentTx(env.supplement.value.0, op.nonce, env.supplement.value.1, op.tx.raw, env.delivered)]
  {
    ReplacedIff(op, env, opts);
    ReplacedWith(op, env, opts, 0);
    ReplacedIff(Updated(op, Step(op, env, opts)), later, opts);
    hide NoneIncluded;
  }

  lemma {:induction false} ReplacedWith(op: ETHOperation, env: StepEnv, opts: Options, i: nat)
    requires i <= |op.usedTxHashes| && Look(op, env, opts, i).Replaced?
    ensures env.block.Got? && env.supplement.Got?
    ensures Look(op, env, opts, i)
         == Replaced(env.supplement.value.0, env.supplement.value.1, env.block.value + opts.expectedWaitTimeBlock, env.delivered)
    decreases |op.usedTxHashes| - i
  {
    if i < |op.usedTxHashes| {
      ReplacedWith(op, env, opts, i + 1);
    }
  }

  /** The first attempt of an operation, and when the second one is due. */
  lemma {:induction false} FirstAttempt(s: State, env: InitEnv, later: StepEnv, opts: Options)
    requires Chosen(s.queue).Some? && Initialize(s, env, opts) != s
    ensures var next := Initialize(s, env, opts);
            && next.sent == s.sent + [SentTx(env.signed.value, s.nextNonce, env.gasPrice.value, Front(s.queue).raw, true)]
            && |next.ongoing| == |s.ongoing| + 1
            && var op := next.ongoing[|s.ongoing|];
               && op.tx == Front(s.queue) && op.nonce == s.nextNonce && op.usedTxHashes == [env.signed.value]
               && (Attempts(op, later, opts) <==>
                     && later.block.Got? && later.block.value >= env.block.value + opts.expectedWaitTimeBlock
                     && later.status(env.signed.value) == Got(NotIncluded) && later.supplement.Got?)
  {
    var op := Initialize(s, env, opts).ongoing[|s.ongoing|];
    ReplacedIff(op, later, opts);
    hide Front, Popped, Chosen;
    assert NoneIncluded(op, later, 1) <==> later.status(op.usedTxHashes[0]) == Got(NotIncluded);
  }

  // ----- the queue gives what it can

  /** Something may be sent: a verification whose commit was sent, a withdrawal behind the verifications, or a
      commit. */
  predicate CanVerify(q: Queue) {
    q.nextVerify in q.verifies && q.nextVerify <= q.commitCount
  }

  predicate CanWithdraw(q: Queue) {
    q.withdraws != [] && q.withdrawCount + 2 <= q.nextVerify
  }

  /** With a free slot the queue gives an operation whenever one may be sent, a verification before a withdrawal
      before a commit, each kind in its order. */
  lemma {:induction false} QueueGives(q: Queue)
    ensures Chosen(q).Some? <==> q.sentPendingTxs < q.maxPendingTxs && (CanVerify(q) || CanWithdraw(q) || q.commits != [])
    ensures Chosen(q).Some? ==>
              && (CanVerify(q) ==> Front(q) == q.verifies[q.nextVerify])
              && (!CanVerify(q) && CanWithdraw(q) ==> Front(q) == q.withdraws[0])
              && (!CanVerify(q) && !CanWithdraw(q) ==> q.commits != [] && Front(q) == q.commits[0])
  {
  }

  predicate Answered(env: InitEnv) {
    env.block.Got? && env.gasPrice.Got? && env.signed.Got?
  }

  function AnswerCount(envs: seq<InitEnv>): nat {
    if envs == [] then 0 else (if Answered(envs[0]) then 1 else 0) + AnswerCount(envs[1..])
  }

  /** A pass goes on after failures, until no slot is free or nothing may be sent: with as many answers as there are
      free slots, wherever they come, nothing is left over. */
  lemma {:induction false} PassSendsAll(s: State, envs: seq<InitEnv>, opts: Options)
    requires s.queue.sentPendingTxs + AnswerCount(envs) >= s.queue.maxPendingTxs
    ensures Chosen(InitializeAll(s, envs, opts).queue).None?
    decreases |envs|
  {
    if envs != [] && Chosen(s.queue).Some? {
      PopCounts(s.queue);
      assert Answered(envs[0]) || Initialize(s, envs[0], opts) == s;
      hide Chosen, Front, Popped, Answered;
      PassSendsAll(Initialize(s, envs[0], opts), envs[1..], opts);
    }
  }
}
