/** The Ethereum sender: every operation gets one nonce, a transaction that stays unmined past its
    deadline is replaced under the same nonce, and an operation leaves only when confirmed. The database
    answers every call; Ethereum may fail to answer any of them. */
module EthSender {
  import opened Common
  import opened TxQueue

  type Hash = nat

  datatype Reply<T> = Got(value: T) | NetworkError

  datatype TxStatus = NotIncluded | Executed(success: bool, confirmations: nat)

  datatype ETHOperation = ETHOperation(
    tx: TxData, nonce: nat, lastDeadlineBlock: nat, lastUsedGasPrice: nat, usedTxHashes: seq<Hash>)

  /** A transaction the sender tried to hand to the network, and whether the database keeps its record. */
  datatype SentTx = SentTx(hash: Hash, nonce: nat, gasPrice: nat, raw: nat, recorded: bool)

  datatype Options = Options(waitConfirmations: nat, expectedWaitTimeBlock: nat)

  /** What Ethereum answers while one operation is initialized; a failed sending is only logged. */
  datatype InitEnv = InitEnv(block: Reply<nat>, gasPrice: Reply<nat>, signed: Reply<Hash>)

  /** What Ethereum answers while one ongoing operation is looked at. `supplement` holds the hash and
      the gas price of the replacement, if one is made, and `delivered` says whether the network took it. */
  datatype StepEnv = StepEnv(block: Reply<nat>, status: Hash -> Reply<TxStatus>, supplement: Reply<(Hash, nat)>, delivered: bool)

  // ----- one look at one operation

  datatype Outcome =
    | Waits
    | Confirmed(hash: Hash)
    | Replaced(hash: Hash, gasPrice: nat, deadline: nat, delivered: bool)
    | Panics

  datatype TxCheckMode = Latest | Old

  datatype TxCheckOutcome = Committed | Pending | Stuck | Failed

  function IsStuck(op: ETHOperation, currentBlock: nat): bool {
    currentBlock >= op.lastDeadlineBlock
  }

  /** `check_transaction_state` on the status that was reported. */
  function CheckTransactionState(mode: TxCheckMode, op: ETHOperation, status: TxStatus, currentBlock: nat, opts: Options): TxCheckOutcome {
    match status
    case Executed(success, confirmations) =>
      if !success then Failed else if confirmations >= opts.waitConfirmations then Committed else Pending
    case NotIncluded =>
      if IsStuck(op, currentBlock) || mode == Old then Stuck else Pending
  }

  /** The hashes before `n` are all reported as not included. */
  predicate NoneIncluded(op: ETHOperation, env: StepEnv, n: nat)
    requires n <= |op.usedTxHashes|
  {
    forall i :: 0 <= i < n ==> env.status(op.usedTxHashes[i]) == Got(NotIncluded)
  }

  /** The outcome is decided by the first hash that is included, or whose status is unknown; if there is
      none, by the deadline. */
  function Look(op: ETHOperation, env: StepEnv, opts: Options, i: nat): Outcome
    requires i <= |op.usedTxHashes|
    decreases |op.usedTxHashes| - i
  {
    if env.block.NetworkError? then Waits
    else if i == |op.usedTxHashes| then
      if !IsStuck(op, env.block.value) || env.supplement.NetworkError? then Waits
      else Replaced(env.supplement.value.0, env.supplement.value.1, env.block.value + opts.expectedWaitTimeBlock, env.delivered)
    else
      match env.status(op.usedTxHashes[i])
      case NetworkError => Waits
      case Got(NotIncluded) => Look(op, env, opts, i + 1)
      case Got(Executed(success, confirmations)) =>
        if !success then Panics
        else if confirmations >= opts.waitConfirmations then Confirmed(op.usedTxHashes[i])
        else Waits
  }

  function Step(op: ETHOperation, env: StepEnv, opts: Options): Outcome {
    Look(op, env, opts, 0)
  }

  lemma {:induction false} LookDecides(op: ETHOperation, env: StepEnv, opts: Options, i: nat)
    requires i <= |op.usedTxHashes| && env.block.Got?
    ensures Look(op, env, opts, i).Replaced? <==>
              && (forall j :: i <= j < |op.usedTxHashes| ==> env.status(op.usedTxHashes[j]) == Got(NotIncluded))
              && IsStuck(op, env.block.value) && env.supplement.Got?
    ensures forall h :: Look(op, env, opts, i) == Confirmed(h) <==>
              exists k :: && i <= k < |op.usedTxHashes| && op.usedTxHashes[k] == h
                          && (forall j :: i <= j < k ==> env.status(op.usedTxHashes[j]) == Got(NotIncluded))
                          && env.status(h).Got? && env.status(h).value.Executed?
                          && env.status(h).value.success && env.status(h).value.confirmations >= opts.waitConfirmations
    decreases |op.usedTxHashes| - i
  {
    if i < |op.usedTxHashes| {
      LookDecides(op, env, opts, i + 1);
    }
  }

  /** A replacement is made if and only if the block number is known to have reached the deadline, none
      of the hashes is included, and the replacement could be signed. */
  lemma {:induction false} ReplacedIff(op: ETHOperation, env: StepEnv, opts: Options)
    ensures Step(op, env, opts).Replaced? <==>
              && env.block.Got? && env.block.value >= op.lastDeadlineBlock
              && NoneIncluded(op, env, |op.usedTxHashes|) && env.supplement.Got?
  {
    if env.block.Got? {
      LookDecides(op, env, opts, 0);
    }
  }

  /** The operation after the step; the one field that never changes is what it is sent with. */
  function Updated(op: ETHOperation, outcome: Outcome): ETHOperation {
    if outcome.Replaced?
    then op.(lastDeadlineBlock := outcome.deadline, lastUsedGasPrice := outcome.gasPrice,
             usedTxHashes := op.usedTxHashes + [outcome.hash])
    else op
  }

  /** The record of a replacement is rolled back when the network does not take it. */
  function SentBy(op: ETHOperation, outcome: Outcome): seq<SentTx> {
    if outcome.Replaced? then [SentTx(outcome.hash, op.nonce, outcome.gasPrice, op.tx.raw, outcome.delivered)] else []
  }

  // ----- the whole sender

  /** `sent` and `confirmed` are the transactions the sender tried to hand to the network and the operations
      that left. */
  datatype State = State(
    queue: Queue, ongoing: seq<ETHOperation>, nextNonce: nat, sent: seq<SentTx>, confirmed: seq<(ETHOperation, Hash)>)

  /** One operation is taken from the queue and sent for the first time, or returned to the queue. */
  function Initialize(s: State, env: InitEnv, opts: Options): State
    requires Chosen(s.queue).Some?
  {
    if env.block.NetworkError? || env.gasPrice.NetworkError? || env.signed.NetworkError? then s
    else
      var tx, hash := Front(s.queue), env.signed.value;
      var op := ETHOperation(tx, s.nextNonce, env.block.value + opts.expectedWaitTimeBlock, env.gasPrice.value, [hash]);
      State(Popped(s.queue), s.ongoing + [op], s.nextNonce + 1,
            s.sent + [SentTx(hash, op.nonce, env.gasPrice.value, tx.raw, true)], s.confirmed)
  }

  function InitializeAll(s: State, envs: seq<InitEnv>, opts: Options): State
    decreases |envs|
  {
    if envs == [] || Chosen(s.queue).None? then s else InitializeAll(Initialize(s, envs[0], opts), envs[1..], opts)
  }

  /** The queue after one of its operations was confirmed: a slot is free, and a verified block with
      withdrawals asks for their completion. */
  function Reported(q: Queue, op: ETHOperation): Queue
    requires q.sentPendingTxs > 0
  {
    var r := q.(sentPendingTxs := q.sentPendingTxs - 1);
    if op.tx.opType == Verify && op.tx.withdrawals then r.(withdraws := r.withdraws + [COMPLETE_WITHDRAWALS]) else r
  }

  /** The state and the operations that stay, after a look at the first ongoing operation. */
  function AfterLook(s: State, outcome: Outcome): (r: State)
    requires s.ongoing != [] && (outcome.Confirmed? ==> s.queue.sentPendingTxs > 0)
    ensures r.ongoing == s.ongoing[1..]
  {
    var op, rest := s.ongoing[0], s.(ongoing := s.ongoing[1..]);
    if outcome.Confirmed? then rest.(queue := Reported(s.queue, op), confirmed := s.confirmed + [(op, outcome.hash)])
    else rest.(sent := s.sent + SentBy(op, outcome))
  }

  function KeptAfter(kept: seq<ETHOperation>, op: ETHOperation, outcome: Outcome): seq<ETHOperation> {
    if outcome.Confirmed? then kept else kept + [Updated(op, outcome)]
  }

  /** The ongoing operations from number `i` on, in order; `kept` are those before that stay. */
  function Sift(s: State, kept: seq<ETHOperation>, steps: nat -> StepEnv, opts: Options, i: nat): Option<State>
    decreases |s.ongoing|
  {
    if s.ongoing == [] then Some(s.(ongoing := kept))
    else
      var outcome := Step(s.ongoing[0], steps(i), opts);
      if outcome.Panics? || (outcome.Confirmed? && s.queue.sentPendingTxs == 0) then None
      else Sift(AfterLook(s, outcome), KeptAfter(kept, s.ongoing[0], outcome), steps, opts, i + 1)
  }

  const COMPLETE_WITHDRAWALS: TxData := TxData(Withdraw, 0, 0, false)

  /** `proceed_next_operations` */
  function Proceed(s: State, envs: seq<InitEnv>, steps: nat -> StepEnv, opts: Options): Option<State> {
    Sift(InitializeAll(s, envs, opts), [], steps, opts, 0)
  }

  // ----- what every round keeps

  /** Two transactions under one nonce carry the same payload. */
  predicate OnePayloadPerNonce(sent: seq<SentTx>) {
    forall i, j :: 0 <= i < |sent| && 0 <= j < |sent| && sent[i].nonce == sent[j].nonce ==> sent[i].raw == sent[j].raw
  }

  predicate NoncesAscend(ops: seq<ETHOperation>) {
    forall i, j :: 0 <= i < j < |ops| ==> ops[i].nonce < ops[j].nonce
  }

  /** The hashes of the transactions under a nonce, in order. */
  function HashesOf(sent: seq<SentTx>, nonce: nat): seq<Hash>
    decreases |sent|
  {
    if sent == [] then []
    else
      var n := |sent| - 1;
      HashesOf(sent[..n], nonce) + if sent[n].nonce == nonce then [sent[n].hash] else []
  }

  /** Those the database keeps. */
  function RecordedHashes(sent: seq<SentTx>, nonce: nat): seq<Hash>
    decreases |sent|
  {
    if sent == [] then []
    else
      var n := |sent| - 1;
      RecordedHashes(sent[..n], nonce) + if sent[n].nonce == nonce && sent[n].recorded then [sent[n].hash] else []
  }

  lemma {:induction false} HashesAppend(sent: seq<SentTx>, tx: SentTx, nonce: nat)
    ensures HashesOf(sent + [tx], nonce) == HashesOf(sent, nonce) + if tx.nonce == nonce then [tx.hash] else []
  {
    assert (sent + [tx])[..|sent|] == sent;
  }

  lemma {:induction false} NoHashes(sent: seq<SentTx>, nonce: nat)
    requires forall i :: 0 <= i < |sent| ==> sent[i].nonce != nonce
    ensures HashesOf(sent, nonce) == []
    decreases |sent|
  {
    if sent != [] {
      NoHashes(sent[..|sent| - 1], nonce);
    }
  }

  predicate Recorded(op: ETHOperation, sent: seq<SentTx>, nextNonce: nat) {
    && op.nonce < nextNonce && op.usedTxHashes != [] && HashesOf(sent, op.nonce) == op.usedTxHashes
    && forall i :: 0 <= i < |sent| && sent[i].nonce == op.nonce ==> sent[i].raw == op.tx.raw
  }

  predicate AllRecorded(ops: seq<ETHOperation>, sent: seq<SentTx>, nextNonce: nat) {
    && OnePayloadPerNonce(sent)
    && (forall i :: 0 <= i < |sent| ==> sent[i].nonce < nextNonce)
    && (forall i :: 0 <= i < |ops| ==> Recorded(ops[i], sent, nextNonce))
  }

  /** Every operation left at most once, and what left is not in flight. */
  predicate LeftOnce(ops: seq<ETHOperation>, confirmed: seq<(ETHOperation, Hash)>, nextNonce: nat) {
    && (forall i :: 0 <= i < |confirmed| ==> confirmed[i].0.nonce < nextNonce)
    && (forall i, j :: 0 <= i < j < |confirmed| ==> confirmed[i].0.nonce != confirmed[j].0.nonce)
    && (forall i, j :: 0 <= i < |ops| && 0 <= j < |confirmed| ==> ops[i].nonce != confirmed[j].0.nonce)
  }

  /** The operations in flight in the middle of a round. */
  function InFlight(kept: seq<ETHOperation>, s: State): seq<ETHOperation> {
    kept + s.ongoing
  }

  /** The invariant of the protocol. */
  predicate Sound(s: State, kept: seq<ETHOperation>) {
    var ops := InFlight(kept, s);
    && Ordered(s.queue) && s.queue.sentPendingTxs == |ops|
    && NoncesAscend(ops)
    && AllRecorded(ops, s.sent, s.nextNonce)
    && LeftOnce(ops, s.confirmed, s.nextNonce)
  }

  lemma {:induction false} NewOperation(ops: seq<ETHOperation>, s: State, op: ETHOperation, tx: SentTx)
    requires NoncesAscend(ops) && AllRecorded(ops, s.sent, s.nextNonce) && LeftOnce(ops, s.confirmed, s.nextNonce)
    requires op.nonce == tx.nonce == s.nextNonce && tx.raw == op.tx.raw && op.usedTxHashes == [tx.hash]
    ensures NoncesAscend(ops + [op]) && LeftOnce(ops + [op], s.confirmed, s.nextNonce + 1)
    ensures AllRecorded(ops + [op], s.sent + [tx], s.nextNonce + 1)
  {
    RecordedStays(ops, s.sent, s.nextNonce, tx);
    NoHashes(s.sent, op.nonce);
    HashesAppend(s.sent, tx, op.nonce);
  }

  lemma {:induction false} RecordedStays(ops: seq<ETHOperation>, sent: seq<SentTx>, nextNonce: nat, tx: SentTx)
    requires AllRecorded(ops, sent, nextNonce) && tx.nonce == nextNonce
    ensures AllRecorded(ops, sent + [tx], nextNonce + 1)
  {
    forall k | 0 <= k < |ops|
      ensures Recorded(ops[k], sent + [tx], nextNonce + 1)
    {
      assert Recorded(ops[k], sent, nextNonce);
      HashesAppend(sent, tx, ops[k].nonce);
    }
  }

  lemma {:induction false} InitializeIsSound(s: State, env: InitEnv, opts: Options)
    requires Sound(s, []) && Chosen(s.queue).Some?
    ensures Sound(Initialize(s, env, opts), [])
  {
    var next := Initialize(s, env, opts);
    if next != s {
      QueueStaysOrdered(s.queue, COMPLETE_WITHDRAWALS);
      PopCounts(s.queue);
      hide NoncesAscend, AllRecorded, LeftOnce, Ordered, Popped, Front, Chosen;
      var op := next.ongoing[|s.ongoing|];
      assert InFlight([], s) == s.ongoing && InFlight([], next) == s.ongoing + [op];
      NewOperation(s.ongoing, s, op, SentTx(op.usedTxHashes[0], op.nonce, op.lastUsedGasPrice, op.tx.raw, true));
    }
  }

  lemma {:induction false} PopCounts(q: Queue)
    requires Chosen(q).Some?
    ensures Popped(q).sentPendingTxs == q.sentPendingTxs + 1
  {
  }

  lemma {:induction false} InitializeAllIsSound(s: State, envs: seq<InitEnv>, opts: Options)
    requires Sound(s, [])
    ensures Sound(InitializeAll(s, envs, opts), [])
    decreases |envs|
  {
    hide Sound, Initialize, Chosen;
    if envs != [] && Chosen(s.queue).Some? {
      InitializeIsSound(s, envs[0], opts);
      InitializeAllIsSound(Initialize(s, envs[0], opts), envs[1..], opts);
    }
  }

  lemma {:induction false} OperationUpdates(ops: seq<ETHOperation>, s: State, k: nat, outcome: Outcome)
    requires NoncesAscend(ops) && AllRecorded(ops, s.sent, s.nextNonce) && LeftOnce(ops, s.confirmed, s.nextNonce)
    requires k < |ops|
    ensures var later := ops[k := Updated(ops[k], outcome)];
            && NoncesAscend(later) && LeftOnce(later, s.confirmed, s.nextNonce)
            && AllRecorded(later, s.sent + SentBy(ops[k], outcome), s.nextNonce)
  {
    var op, sent := ops[k], s.sent + SentBy(ops[k], outcome);
    var later := ops[k := Updated(op, outcome)];
    assert Recorded(op, s.sent, s.nextNonce);
    forall i | 0 <= i < |later|
      ensures Recorded(later[i], sent, s.nextNonce)
    {
      assert Recorded(ops[i], s.sent, s.nextNonce);
      assert i < k ==> ops[i].nonce < op.nonce;
      assert i > k ==> op.nonce < ops[i].nonce;
      if outcome.Replaced? {
        HashesAppend(s.sent, SentBy(op, outcome)[0], ops[i].nonce);
      } else {
        assert sent == s.sent;
      }
    }
  }

  lemma {:induction false} OperationLeaves(ops: seq<ETHOperation>, s: State, k: nat, hash: Hash)
    requires NoncesAscend(ops) && AllRecorded(ops, s.sent, s.nextNonce) && LeftOnce(ops, s.confirmed, s.nextNonce)
    requires k < |ops|
    ensures var later := ops[..k] + ops[k + 1..];
            && NoncesAscend(later) && LeftOnce(later, s.confirmed + [(ops[k], hash)], s.nextNonce)
            && AllRecorded(later, s.sent, s.nextNonce)
  {
    var later := ops[..k] + ops[k + 1..];
    assert Recorded(ops[k], s.sent, s.nextNonce);
    forall i | 0 <= i < |later|
      ensures later[i] == ops[if i < k then i else i + 1] && later[i].nonce != ops[k].nonce
      ensures Recorded(later[i], s.sent, s.nextNonce)
    {
      assert Recorded(ops[if i < k then i else i + 1], s.sent, s.nextNonce);
    }
  }

  lemma {:induction false} ReportedIsOrdered(q: Queue, op: ETHOperation)
    requires Ordered(q) && q.sentPendingTxs > 0
    ensures Ordered(Reported(q, op)) && Reported(q, op).sentPendingTxs == q.sentPendingTxs - 1
  {
    QueueStaysOrdered(q, COMPLETE_WITHDRAWALS);
    QueueStaysOrdered(q.(sentPendingTxs := q.sentPendingTxs - 1), COMPLETE_WITHDRAWALS);
  }

  lemma {:induction false} UpdatedContinues(op: ETHOperation, outcome: Outcome)
    ensures Continues(op, Updated(op, outcome))
  {
  }

  /** One look keeps the invariant. */
  lemma {:induction false} LookIsSound(s: State, kept: seq<ETHOperation>, outcome: Outcome)
    requires Sound(s, kept) && s.ongoing != []
    ensures s.queue.sentPendingTxs > 0
    ensures Sound(AfterLook(s, outcome), KeptAfter(kept, s.ongoing[0], outcome))
  {
    var ops, op := InFlight(kept, s), s.ongoing[0];
    ReportedIsOrdered(s.queue, op);
    hide NoncesAscend, AllRecorded, LeftOnce, Ordered, Updated, SentBy, Reported;
    var next, kept' := AfterLook(s, outcome), KeptAfter(kept, op, outcome);
    if outcome.Confirmed? {
      OperationLeaves(ops, s, |kept|, outcome.hash);
      assert InFlight(kept', next) == ops[..|kept|] + ops[|kept| + 1..];
    } else {
      OperationUpdates(ops, s, |kept|, outcome);
      assert InFlight(kept', next) == ops[|kept| := Updated(op, outcome)];
    }
  }

  /** An operation that is still in flight: same payload, same nonce, its old hashes kept. */
  predicate Continues(op: ETHOperation, later: ETHOperation) {
    later.nonce == op.nonce && later.tx == op.tx && op.usedTxHashes <= later.usedTxHashes
  }

  /** What became of one operation in a round: it left because a step confirmed one of its hashes, or it
      is still in flight as its step left it. */
  predicate Settled(op: ETHOperation, env: StepEnv, opts: Options, r: State) {
    var outcome := Step(op, env, opts);
    if outcome.Confirmed? then (op, outcome.hash) in r.confirmed
    else Updated(op, outcome) in r.ongoing && Continues(op, Updated(op, outcome))
  }

  predicate AllSettled(ops: seq<ETHOperation>, steps: nat -> StepEnv, opts: Options, i: nat, r: State) {
    forall j :: 0 <= j < |ops| ==> Settled(ops[j], steps(i + j), opts, r)
  }

  /** Some operation has a failed transaction. */
  predicate AnyFails(ops: seq<ETHOperation>, steps: nat -> StepEnv, opts: Options, i: nat) {
    exists j :: 0 <= j < |ops| && Step(ops[j], steps(i + j), opts).Panics?
  }

  predicate Extends(s: State, kept: seq<ETHOperation>, r: State) {
    && kept <= r.ongoing && s.confirmed <= r.confirmed && s.sent <= r.sent
    && |r.ongoing| + |r.confirmed| == |kept| + |s.ongoing| + |s.confirmed|
  }

  /** A round settles every operation, panics only on a failed transaction, and keeps the invariant. */
  lemma {:induction false} SiftIsSound(s: State, kept: seq<ETHOperation>, steps: nat -> StepEnv, opts: Options, i: nat)
    requires Sound(s, kept)
    ensures Sift(s, kept, steps, opts, i).None? <==> AnyFails(s.ongoing, steps, opts, i)
    ensures Sift(s, kept, steps, opts, i).Some? ==>
              var r := Sift(s, kept, steps, opts, i).value;
              Sound(r, []) && Extends(s, kept, r) && AllSettled(s.ongoing, steps, opts, i, r)
    decreases |s.ongoing|
  {
    hide Sound, Step, AllSettled, AnyFails, Extends, AfterLook, KeptAfter;
    if s.ongoing == [] {
      EndOfRound(s, kept, steps, opts, i);
    } else {
      var op, outcome := s.ongoing[0], Step(s.ongoing[0], steps(i), opts);
      FailsFirst(s.ongoing, steps, opts, i);
      LookIsSound(s, kept, outcome);
      if !outcome.Panics? {
        var next, kept' := AfterLook(s, outcome), KeptAfter(kept, op, outcome);
        SiftIsSound(next, kept', steps, opts, i + 1);
        if Sift(next, kept', steps, opts, i + 1).Some? {
          var r := Sift(next, kept', steps, opts, i + 1).value;
          ExtendsOneMore(s, kept, outcome, r);
          SettlesOneMore(s, kept, steps, opts, i, r);
        }
      }
    }
  }

  lemma {:induction false} FailsFirst(ops: seq<ETHOperation>, steps: nat -> StepEnv, opts: Options, i: nat)
    requires ops != []
    ensures AnyFails(ops, steps, opts, i) <==> Step(ops[0], steps(i), opts).Panics? || AnyFails(ops[1..], steps, opts, i + 1)
  {
    hide Step;
    if j :| 0 <= j < |ops| && Step(ops[j], steps(i + j), opts).Panics? {
      if j > 0 {
        assert ops[1..][j - 1] == ops[j] && i + 1 + (j - 1) == i + j;
      }
    }
    if j :| 0 <= j < |ops[1..]| && Step(ops[1..][j], steps(i + 1 + j), opts).Panics? {
      assert ops[j + 1] == ops[1..][j] && i + (j + 1) == i + 1 + j;
    }
    assert steps(i + 0) == steps(i);
  }

  lemma {:induction false} ExtendsOneMore(s: State, kept: seq<ETHOperation>, outcome: Outcome, r: State)
    requires s.ongoing != [] && (outcome.Confirmed? ==> s.queue.sentPendingTxs > 0)
    requires Extends(AfterLook(s, outcome), KeptAfter(kept, s.ongoing[0], outcome), r)
    ensures Extends(s, kept, r)
  {
    hide Updated, SentBy, Reported;
  }

  lemma {:induction false} SettlesOneMore(s: State, kept: seq<ETHOperation>, steps: nat -> StepEnv, opts: Options, i: nat, r: State)
    requires s.ongoing != [] && s.queue.sentPendingTxs > 0
    requires var outcome := Step(s.ongoing[0], steps(i), opts);
             && Extends(AfterLook(s, outcome), KeptAfter(kept, s.ongoing[0], outcome), r)
             && AllSettled(s.ongoing[1..], steps, opts, i + 1, r)
    ensures AllSettled(s.ongoing, steps, opts, i, r)
  {
    hide Step, Updated, SentBy, Reported, Continues;
    var op, outcome := s.ongoing[0], Step(s.ongoing[0], steps(i), opts);
    UpdatedContinues(op, outcome);
    if outcome.Confirmed? {
      assert r.confirmed[|s.confirmed|] == (op, outcome.hash);
    } else {
      assert r.ongoing[|kept|] == Updated(op, outcome);
    }
    forall j | 0 <= j < |s.ongoing|
      ensures Settled(s.ongoing[j], steps(i + j), opts, r)
    {
      if j > 0 {
        assert i + 1 + (j - 1) == i + j && s.ongoing[j] == s.ongoing[1..][j - 1];
      } else {
        assert i + j == i;
      }
    }
  }

  lemma {:induction false} EndOfRound(s: State, kept: seq<ETHOperation>, steps: nat -> StepEnv, opts: Options, i: nat)
    requires Sound(s, kept) && s.ongoing == []
    ensures var r := s.(ongoing := kept); Sound(r, []) && Extends(s, kept, r) && AllSettled(s.ongoing, steps, opts, i, r)
    ensures !AnyFails(s.ongoing, steps, opts, i)
  {
    assert InFlight(kept, s) == kept == InFlight([], s.(ongoing := kept));
  }

  // ----- whole runs

  /** One round of the main loop: operations loaded from the database, then one pass. */
  datatype Round = Round(newOperations: seq<TxData>, inits: seq<InitEnv>, steps: nat -> StepEnv)

  function AddAll(q: Queue, txs: seq<TxData>): Option<Queue>
    decreases |txs|
  {
    if txs == [] then Some(q)
    else
      var next := Add(q, txs[0]);
      if next.None? then None else AddAll(next.value, txs[1..])
  }

  function RunRound(s: State, round: Round, opts: Options): Option<State> {
    var q := AddAll(s.queue, round.newOperations);
    if q.None? then None else Proceed(s.(queue := q.value), round.inits, round.steps, opts)
  }

  function RunAll(s: State, rounds: seq<Round>, opts: Options): Option<State>
    decreases |rounds|
  {
    if rounds == [] then Some(s)
    else
      var next := RunRound(s, rounds[0], opts);
      if next.None? then None else RunAll(next.value, rounds[1..], opts)
  }

  lemma {:induction false} AddAllOrdered(q: Queue, txs: seq<TxData>)
    requires Ordered(q) && AddAll(q, txs).Some?
    ensures Ordered(AddAll(q, txs).value) && AddAll(q, txs).value.sentPendingTxs == q.sentPendingTxs
    decreases |txs|
  {
    if txs != [] {
      QueueStaysOrdered(q, txs[0]);
      AddAllOrdered(Add(q, txs[0]).value, txs[1..]);
    }
  }

  lemma {:induction false} RoundIsSound(s: State, round: Round, opts: Options)
    requires Sound(s, []) && RunRound(s, round, opts).Some?
    ensures Sound(RunRound(s, round, opts).value, [])
  {
    AddAllOrdered(s.queue, round.newOperations);
    var s1 := s.(queue := AddAll(s.queue, round.newOperations).value);
    assert InFlight([], s1) == InFlight([], s);
    InitializeAllIsSound(s1, round.inits, opts);
    SiftIsSound(InitializeAll(s1, round.inits, opts), [], round.steps, opts, 0);
  }

  lemma {:induction false} RunIsSound(s: State, rounds: seq<Round>, opts: Options)
    requires Sound(s, []) && RunAll(s, rounds, opts).Some?
    ensures Sound(RunAll(s, rounds, opts).value, [])
    decreases |rounds|
  {
    hide Sound, RunRound;
    if rounds != [] {
      RoundIsSound(s, rounds[0], opts);
      RunIsSound(RunRound(s, rounds[0], opts).value, rounds[1..], opts);
    }
  }

  function Fresh(maxPendingTxs: nat): State {
    State(EmptyQueue(maxPendingTxs), [], 0, [], [])
  }

  /** Over any run without a panic: never more operations in flight than allowed, in the order of their
      nonces; one payload per nonce; every operation confirmed at most once and not in flight any more. */
  lemma {:induction false} SenderIsSafe(maxPendingTxs: nat, rounds: seq<Round>, opts: Options)
    requires RunAll(Fresh(maxPendingTxs), rounds, opts).Some?
    ensures var s := RunAll(Fresh(maxPendingTxs), rounds, opts).value;
            && |s.ongoing| <= s.queue.maxPendingTxs && NoncesAscend(s.ongoing)
            && OnePayloadPerNonce(s.sent) && LeftOnce(s.ongoing, s.confirmed, s.nextNonce)
            && s.queue.nextVerify <= s.queue.commitCount + 1
  {
    assert Sound(Fresh(maxPendingTxs), []);
    RunIsSound(Fresh(maxPendingTxs), rounds, opts);
    var s := RunAll(Fresh(maxPendingTxs), rounds, opts).value;
    assert InFlight([], s) == s.ongoing;
  }

  /** Every attempt under a nonce was recorded. */
  predicate AllDelivered(sent: seq<SentTx>, nonce: nat) {
    forall i :: 0 <= i < |sent| && sent[i].nonce == nonce ==> sent[i].recorded
  }

  lemma {:induction false} AllHashesRecordedIff(sent: seq<SentTx>, nonce: nat)
    ensures if AllDelivered(sent, nonce) then RecordedHashes(sent, nonce) == HashesOf(sent, nonce)
            else |RecordedHashes(sent, nonce)| < |HashesOf(sent, nonce)|
    decreases |sent|
  {
    if sent != [] {
      var n := |sent| - 1;
      AllHashesRecordedIff(sent[..n], nonce);
      assert AllDelivered(sent, nonce) <==> AllDelivered(sent[..n], nonce) && (sent[n].nonce == nonce ==> sent[n].recorded) by {
        assert forall i :: 0 <= i < n ==> sent[..n][i] == sent[i];
      }
    }
  }

  /** What the database knows about an operation in flight: its hashes in memory are those of all attempts
      under its nonce, and the database keeps all of them if and only if the network took every replacement. */
  lemma {:induction false} DatabaseKnowsIff(maxPendingTxs: nat, rounds: seq<Round>, opts: Options, k: nat)
    requires RunAll(Fresh(maxPendingTxs), rounds, opts).Some?
    requires k < |RunAll(Fresh(maxPendingTxs), rounds, opts).value.ongoing|
    ensures var s := RunAll(Fresh(maxPendingTxs), rounds, opts).value;
            && s.ongoing[k].usedTxHashes == HashesOf(s.sent, s.ongoing[k].nonce)
            && (RecordedHashes(s.sent, s.ongoing[k].nonce) == s.ongoing[k].usedTxHashes <==> AllDelivered(s.sent, s.ongoing[k].nonce))
  {
    assert Sound(Fresh(maxPendingTxs), []);
    RunIsSound(Fresh(maxPendingTxs), rounds, opts);
    var s := RunAll(Fresh(maxPendingTxs), rounds, opts).value;
    assert InFlight([], s) == s.ongoing;
    assert Recorded(s.ongoing[k], s.sent, s.nextNonce);
    AllHashesRecordedIff(s.sent, s.ongoing[k].nonce);
  }

  // ----- the sender itself

  class ETHSender {
    var ongoingOps: seq<ETHOperation>
    const txQueue: TxQueue
    const options: Options
    var nextNonce: nat
    var sent: seq<SentTx>
    var confirmed: seq<(ETHOperation, Hash)>

    constructor (queue: Queue, opts: Options)
      ensures fresh(txQueue) && options == opts
      ensures Contents() == State(queue, [], 0, [], [])
    {
      txQueue := new TxQueue(queue);
      ongoingOps, options, nextNonce, sent, confirmed := [], opts, 0, [], [];
    }

    function Contents(): State
      reads this, txQueue
    {
      State(txQueue.Contents(), ongoingOps, nextNonce, sent, confirmed)
    }

    /** `initialize_operation`: an error before the sending leaves no trace. */
    method InitializeOperation(tx: TxData, env: InitEnv) returns (ok: bool)
      modifies this`ongoingOps, this`nextNonce, this`sent
      ensures ok <==> env.block.Got? && env.gasPrice.Got? && env.signed.Got?
      ensures !ok ==> ongoingOps == old(ongoingOps) && nextNonce == old(nextNonce) && sent == old(sent)
      ensures ok ==>
                var op := ETHOperation(tx, old(nextNonce), env.block.value + options.expectedWaitTimeBlock,
                                       env.gasPrice.value, [env.signed.value]);
                && ongoingOps == old(ongoingOps) + [op] && nextNonce == old(nextNonce) + 1
                && sent == old(sent) + [SentTx(env.signed.value, op.nonce, op.lastUsedGasPrice, tx.raw, true)]
    {
      if env.block.NetworkError? {
        return false;
      }
      var deadlineBlock := env.block.value + options.expectedWaitTimeBlock;
      if env.gasPrice.NetworkError? {
        return false;
      }
      var newOp := ETHOperation(tx, nextNonce, deadlineBlock, env.gasPrice.value, []);
      if env.signed.NetworkError? {
        return false;
      }
      newOp := newOp.(usedTxHashes := newOp.usedTxHashes + [env.signed.value]);
      assert newOp.usedTxHashes == [env.signed.value];
      nextNonce := nextNonce + 1;
      ongoingOps := ongoingOps + [newOp];
      sent := sent + [SentTx(env.signed.value, newOp.nonce, newOp.lastUsedGasPrice, tx.raw, true)];
      ok := true;
    }

    /** `perform_commitment_step`; without a result the failure handler panicked, and an error of the
        network counts as pending. */
    method PerformCommitmentStep(op: ETHOperation, env: StepEnv) returns (commitment: Option<bool>, newOp: ETHOperation)
      requires op.usedTxHashes != []
      modifies this`sent, this`confirmed
      ensures var outcome := Step(op, env, options);
              && (commitment.None? <==> outcome.Panics?)
              && (commitment == Some(true) <==> outcome.Confirmed?)
              && newOp == Updated(op, outcome)
              && sent == old(sent) + SentBy(op, outcome)
              && confirmed == old(confirmed) + (if outcome.Confirmed? then [(op, outcome.hash)] else [])
    {
      newOp := op;
      if env.block.NetworkError? {
        return Some(false), op;
      }
      var currentBlock := env.block.value;
      for idx := 0 to |op.usedTxHashes|
        invariant Step(op, env, options) == Look(op, env, options, idx)
        invariant idx == |op.usedTxHashes| ==> IsStuck(op, currentBlock)
        invariant sent == old(sent) && confirmed == old(confirmed)
      {
        var txHash := op.usedTxHashes[idx];
        var mode := if idx == |op.usedTxHashes| - 1 then Latest else Old;
        var status := env.status(txHash);
        if status.NetworkError? {
          return Some(false), op;
        }
        match CheckTransactionState(mode, op, status.value, currentBlock, options) {
          case Pending =>
            assert mode == Latest && status.value.NotIncluded? ==> Look(op, env, options, idx + 1) == Waits;
            return Some(false), op;
          case Committed =>
            confirmed := confirmed + [(op, txHash)];
            return Some(true), op;
          case Failed =>
            return None, op;
          case Stuck =>
        }
      }
      if env.supplement.NetworkError? {
        return Some(false), op;
      }
      var deadlineBlock := currentBlock + options.expectedWaitTimeBlock;
      var (hash, gasPrice) := env.supplement.value;
      newOp := op.(lastDeadlineBlock := deadlineBlock, lastUsedGasPrice := gasPrice, usedTxHashes := op.usedTxHashes + [hash]);
      sent := sent + [SentTx(hash, op.nonce, gasPrice, op.tx.raw, env.delivered)];
      commitment := Some(false);
    }

    /** Takes operations from the queue as long as there are any and the network is asked again. */
    method InitializeOperations(inits: seq<InitEnv>)
      requires Sound(Contents(), [])
      modifies this`ongoingOps, this`nextNonce, this`sent, txQueue
      ensures Contents() == InitializeAll(old(Contents()), inits, options)
    {
      var n, open := 0, true;
      while n < |inits| && open
        invariant n <= |inits| && Sound(Contents(), [])
        invariant InitializeAll(Contents(), inits[n..], options) == InitializeAll(old(Contents()), inits, options)
        invariant !open ==> Chosen(Contents().queue).None?
        decreases |inits| - n, open
      {
        ghost var s := Contents();
        hide AllRecorded, NoncesAscend, LeftOnce;
        assert WellTyped(s.queue);
        hide Sound, Chosen, Front, Popped, WellTyped;
        var tx := txQueue.PopFront();
        if tx.None? {
          open := false;
        } else {
          InitializeIsSound(s, inits[n], options);
          ReturnUndoesPop(s.queue);
          var ok := InitializeOperation(tx.value, inits[n]);
          if !ok {
            txQueue.ReturnPopped(tx.value);
          }
          assert Contents() == Initialize(s, inits[n], options);
          assert inits[n..][0] == inits[n] && inits[n..][1..] == inits[n + 1..];
          n := n + 1;
        }
      }
      assert n == |inits| ==> inits[n..] == [];
    }

    /** One operation is taken off the list, looked at, and kept or reported. */
    method ProceedFirst(newOngoingOps: seq<ETHOperation>, env: StepEnv) returns (ok: bool, kept: seq<ETHOperation>)
      requires Sound(Contents(), newOngoingOps) && ongoingOps != []
      modifies this, txQueue
      ensures var outcome := Step(old(ongoingOps[0]), env, options);
              && (ok <==> !outcome.Panics?)
              && (ok ==> old(Contents()).queue.sentPendingTxs > 0
                         && Contents() == AfterLook(old(Contents()), outcome) && Sound(Contents(), kept)
                         && kept == KeptAfter(newOngoingOps, old(ongoingOps[0]), outcome))
    {
      kept := newOngoingOps;
      ghost var s := Contents();
      ghost var outcome := Step(s.ongoing[0], env, options);
      FirstHasHash(s, kept);
      LookIsSound(s, kept, outcome);
      hide Sound, Step, SentBy;
      var currentOp := ongoingOps[0];
      ongoingOps := ongoingOps[1..];
      var commitment, newOp := PerformCommitmentStep(currentOp, env);
      if commitment.None? {
        return false, kept;
      }
      if commitment.value {
        txQueue.ReportCommitment();
        if currentOp.tx.opType == Verify && currentOp.tx.withdrawals {
          var added := txQueue.AddOperation(COMPLETE_WITHDRAWALS);
        }
      } else {
        kept := kept + [newOp];
      }
      ok := true;
    }

    /** `proceed_next_operations`; without `ok` the failure handler panicked. */
    method ProceedNextOperations(inits: seq<InitEnv>, steps: nat -> StepEnv) returns (ok: bool)
      requires Sound(Contents(), [])
      modifies this, txQueue
      ensures ok <==> Proceed(old(Contents()), inits, steps, options).Some?
      ensures ok ==> Contents() == Proceed(old(Contents()), inits, steps, options).value && Sound(Contents(), [])
    {
      InitializeAllIsSound(Contents(), inits, options);
      InitializeOperations(inits);
      var newOngoingOps: seq<ETHOperation> := [];
      var i := 0;
      SiftIsSound(Contents(), [], steps, options, 0);
      while ongoingOps != []
        invariant Sound(Contents(), newOngoingOps)
        invariant Sift(Contents(), newOngoingOps, steps, options, i) == Proceed(old(Contents()), inits, steps, options)
        decreases |ongoingOps|
      {
        hide Sound, Step, AfterLook, KeptAfter;
        ok, newOngoingOps := ProceedFirst(newOngoingOps, steps(i));
        if !ok {
          return;
        }
        i := i + 1;
      }
      ongoingOps := newOngoingOps;
      ok := true;
    }
  }

  lemma {:induction false} FirstHasHash(s: State, kept: seq<ETHOperation>)
    requires Sound(s, kept) && s.ongoing != []
    ensures s.ongoing[0].usedTxHashes != []
  {
    assert Recorded(InFlight(kept, s)[|kept|], s.sent, s.nextNonce);
  }
}
