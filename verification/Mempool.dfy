/** The mempool: a first-in first-out queue of transactions and batches, cut into blocks by chunks. The
    cost of a transfer depends on which accounts exist, so it can change while the transfer waits. */
module Mempool {
  import opened Common
  import opened Params

  type Address = nat
  type Nonce = nat
  type AccountId = nat

  datatype ZkSyncTx =
    | Transfer(account: Address, nonce: Nonce, receiver: Address)
    | Withdraw(account: Address, nonce: Nonce)
    | Close(account: Address, nonce: Nonce)
    | ChangePubKey(account: Address, nonce: Nonce)
    | ForcedExit(account: Address, nonce: Nonce)

  datatype TxVariant = Single(tx: ZkSyncTx) | Batch(txs: seq<ZkSyncTx>, batchId: nat)

  datatype AccountUpdate =
    | Create(address: Address, nonce: Nonce)
    | Delete(address: Address)
    | UpdateBalance(newNonce: Nonce)
    | ChangePubKeyHash(newNonce: Nonce)

  datatype TxAddError = NonceMismatch | BatchTooBig | BatchWithdrawalsOverload | DbError

  datatype AddResult = Added | Refused(error: TxAddError)

  /** What the database answers to an insertion: it stores it, fails, or cannot be reached at all. */
  datatype DbReply = Stored(batchId: nat) | Failed | Unreachable

  datatype State = State(accountNonces: map<Address, Nonce>, accountIds: map<AccountId, Address>, readyTxs: seq<TxVariant>)

  datatype Limits = Limits(chunks: nat, withdrawals: nat)

  // ----- cost

  function ChunksForTx(accounts: set<Address>, tx: ZkSyncTx): nat {
    match tx
    case Transfer(_, _, receiver) => if receiver in accounts then Chunks(TRANSFER) else Chunks(TRANSFER_TO_NEW)
    case Withdraw(_, _) => Chunks(WITHDRAW)
    case Close(_, _) => Chunks(CLOSE)
    case ChangePubKey(_, _) => Chunks(CHANGE_PUBKEY)
    case ForcedExit(_, _) => Chunks(FORCED_EXIT)
  }

  function ChunksForBatch(accounts: set<Address>, txs: seq<ZkSyncTx>): nat {
    if txs == [] then 0 else ChunksForTx(accounts, txs[0]) + ChunksForBatch(accounts, txs[1..])
  }

  function RequiredChunks(accounts: set<Address>, element: TxVariant): nat {
    match element
    case Single(tx) => ChunksForTx(accounts, tx)
    case Batch(txs, _) => ChunksForBatch(accounts, txs)
  }

  function TotalChunks(accounts: set<Address>, elements: seq<TxVariant>): nat {
    if elements == [] then 0 else RequiredChunks(accounts, elements[0]) + TotalChunks(accounts, elements[1..])
  }

  /** More accounts never make an element dearer. */
  lemma {:induction false} BatchGetsCheaper(accounts: set<Address>, more: set<Address>, txs: seq<ZkSyncTx>)
    requires accounts <= more
    ensures ChunksForBatch(more, txs) <= ChunksForBatch(accounts, txs)
  {
    if txs != [] {
      BatchGetsCheaper(accounts, more, txs[1..]);
    }
  }

  lemma {:induction false} ElementGetsCheaper(accounts: set<Address>, more: set<Address>, element: TxVariant)
    requires accounts <= more
    ensures RequiredChunks(more, element) <= RequiredChunks(accounts, element)
  {
    if element.Batch? {
      BatchGetsCheaper(accounts, more, element.txs);
    }
  }

  // ----- requests

  function NonceOf(s: State, address: Address): Nonce {
    if address in s.accountNonces then s.accountNonces[address] else 0
  }

  predicate Timely(s: State, tx: ZkSyncTx) {
    tx.nonce >= NonceOf(s, tx.account)
  }

  predicate AllTimely(s: State, txs: seq<ZkSyncTx>) {
    forall i :: 0 <= i < |txs| ==> Timely(s, txs[i])
  }

  function Withdrawals(txs: seq<ZkSyncTx>): nat {
    if txs == [] then 0 else (if txs[0].Withdraw? || txs[0].ForcedExit? then 1 else 0) + Withdrawals(txs[1..])
  }

  function TxAnswer(s: State, tx: ZkSyncTx, db: DbReply): AddResult {
    if !db.Stored? then Refused(DbError) else if Timely(s, tx) then Added else Refused(NonceMismatch)
  }

  /** The order of the checks: access to the database, size, withdrawals, insertion, nonces. */
  function BatchAnswer(s: State, limits: Limits, txs: seq<ZkSyncTx>, db: DbReply): AddResult {
    if db.Unreachable? then Refused(DbError)
    else if ChunksForBatch(s.accountNonces.Keys, txs) > limits.chunks then Refused(BatchTooBig)
    else if Withdrawals(txs) > limits.withdrawals then Refused(BatchWithdrawalsOverload)
    else if db.Failed? then Refused(DbError)
    else if AllTimely(s, txs) then Added else Refused(NonceMismatch)
  }

  function ApplyUpdate(s: State, id: AccountId, update: AccountUpdate): State {
    match update
    case Create(address, nonce) =>
      s.(accountIds := s.accountIds[id := address], accountNonces := s.accountNonces[address := nonce])
    case Delete(address) => s.(accountIds := s.accountIds - {id}, accountNonces := s.accountNonces - {address})
    case _ =>
      if id in s.accountIds && s.accountIds[id] in s.accountNonces
      then s.(accountNonces := s.accountNonces[s.accountIds[id] := update.newNonce]) else s
  }

  function ApplyUpdates(s: State, updates: seq<(AccountId, AccountUpdate)>): State
    decreases |updates|
  {
    if updates == [] then s else ApplyUpdates(ApplyUpdate(s, updates[0].0, updates[0].1), updates[1..])
  }

  /** How many elements of the queue fit, taken from the front without skipping any. */
  function Fitting(accounts: set<Address>, queue: seq<TxVariant>, chunks: nat): (n: nat)
    ensures n <= |queue|
    decreases |queue|
  {
    if queue == [] || RequiredChunks(accounts, queue[0]) > chunks then 0
    else 1 + Fitting(accounts, queue[1..], chunks - RequiredChunks(accounts, queue[0]))
  }

  /** A request, with what the outside world answers to it. `GetBlock` carries the chunks that priority
      operations take of the block. */
  datatype Request =
    | NewTx(tx: ZkSyncTx, txReply: DbReply)
    | NewTxsBatch(txs: seq<ZkSyncTx>, batchReply: DbReply)
    | UpdateNonces(updates: seq<(AccountId, AccountUpdate)>)
    | GetBlock(priorityChunks: nat)

  /** The chunks a block has left for transactions; priority operations never take more than there are. */
  function ChunksLeft(limits: Limits, priorityChunks: nat): nat {
    if priorityChunks <= limits.chunks then limits.chunks - priorityChunks else 0
  }

  function NewlyAccepted(s: State, limits: Limits, r: Request): seq<TxVariant> {
    match r
    case NewTx(tx, reply) => if TxAnswer(s, tx, reply).Added? then [Single(tx)] else []
    case NewTxsBatch(txs, reply) => if BatchAnswer(s, limits, txs, reply).Added? then [Batch(txs, reply.batchId)] else []
    case _ => []
  }

  function NewlyProposed(s: State, limits: Limits, r: Request): (txs: seq<TxVariant>)
    ensures txs <= s.readyTxs
  {
    if r.GetBlock?
    then s.readyTxs[..Fitting(s.accountNonces.Keys, s.readyTxs, ChunksLeft(limits, r.priorityChunks))]
    else []
  }

  function Next(s: State, limits: Limits, r: Request): State {
    match r
    case UpdateNonces(updates) => ApplyUpdates(s, updates)
    case GetBlock(_) => s.(readyTxs := s.readyTxs[|NewlyProposed(s, limits, r)|..])
    case _ => s.(readyTxs := s.readyTxs + NewlyAccepted(s, limits, r))
  }

  function After(s: State, limits: Limits, requests: seq<Request>): State
    decreases |requests|
  {
    if requests == [] then s else After(Next(s, limits, requests[0]), limits, requests[1..])
  }

  /** The elements accepted by a list of requests. */
  function Accepted(s: State, limits: Limits, requests: seq<Request>): seq<TxVariant>
    decreases |requests|
  {
    if requests == [] then []
    else NewlyAccepted(s, limits, requests[0]) + Accepted(Next(s, limits, requests[0]), limits, requests[1..])
  }

  /** The transactions of all proposed blocks, one block after the other. */
  function Proposed(s: State, limits: Limits, requests: seq<Request>): seq<TxVariant>
    decreases |requests|
  {
    if requests == [] then []
    else NewlyProposed(s, limits, requests[0]) + Proposed(Next(s, limits, requests[0]), limits, requests[1..])
  }

  // ----- conservation

  lemma {:induction false} UpdatesKeepQueue(s: State, updates: seq<(AccountId, AccountUpdate)>)
    ensures ApplyUpdates(s, updates).readyTxs == s.readyTxs
    decreases |updates|
  {
    if updates != [] {
      UpdatesKeepQueue(ApplyUpdate(s, updates[0].0, updates[0].1), updates[1..]);
    }
  }

  lemma {:induction false} OneRequest(s: State, limits: Limits, r: Request)
    ensures s.readyTxs + NewlyAccepted(s, limits, r) == NewlyProposed(s, limits, r) + Next(s, limits, r).readyTxs
  {
    if r.UpdateNonces? {
      UpdatesKeepQueue(s, r.updates);
    }
  }

  /** Nothing is lost, repeated, reordered or split: what waited before and what was accepted since is
      what was proposed, followed by what still waits. */
  lemma {:induction false} Conservation(s: State, limits: Limits, requests: seq<Request>)
    ensures s.readyTxs + Accepted(s, limits, requests)
         == Proposed(s, limits, requests) + After(s, limits, requests).readyTxs
    decreases |requests|
  {
    if requests != [] {
      var next := Next(s, limits, requests[0]);
      OneRequest(s, limits, requests[0]);
      Conservation(next, limits, requests[1..]);
      hide NewlyAccepted, NewlyProposed, Next;
      var added, out := NewlyAccepted(s, limits, requests[0]), NewlyProposed(s, limits, requests[0]);
      var more, rest := Accepted(next, limits, requests[1..]), Proposed(next, limits, requests[1..]);
      Regroup(s.readyTxs, added, more);
      Regroup(out, next.readyTxs, more);
      Regroup(out, rest, After(next, limits, requests[1..]).readyTxs);
    }
  }

  // ----- what a block takes

  /** A proposal is the longest prefix of the queue that fits. */
  lemma {:induction false} FittingIsLongest(accounts: set<Address>, queue: seq<TxVariant>, chunks: nat)
    ensures var n := Fitting(accounts, queue, chunks);
            && TotalChunks(accounts, queue[..n]) <= chunks
            && forall m :: n < m <= |queue| ==> TotalChunks(accounts, queue[..m]) > chunks
    decreases |queue|
  {
    if queue != [] {
      var cost := RequiredChunks(accounts, queue[0]);
      forall m | 0 < m <= |queue|
        ensures TotalChunks(accounts, queue[..m]) == cost + TotalChunks(accounts, queue[1..][..m - 1])
      {
        assert queue[..m][1..] == queue[1..][..m - 1];
      }
      if cost <= chunks {
        FittingIsLongest(accounts, queue[1..], chunks - cost);
        var n := Fitting(accounts, queue[1..], chunks - cost);
        forall m | n + 1 < m <= |queue|
          ensures TotalChunks(accounts, queue[..m]) > chunks
        {
          assert TotalChunks(accounts, queue[1..][..m - 1]) > chunks - cost;
        }
      }
    }
  }

  // ----- progress

  predicate NoDeletes(updates: seq<(AccountId, AccountUpdate)>) {
    forall i :: 0 <= i < |updates| ==> !updates[i].1.Delete?
  }

  predicate NobodyDeleted(requests: seq<Request>) {
    forall i :: 0 <= i < |requests| ==> requests[i].UpdateNonces? ==> NoDeletes(requests[i].updates)
  }

  lemma {:induction false} UpdatesAddAccounts(s: State, updates: seq<(AccountId, AccountUpdate)>)
    requires NoDeletes(updates)
    ensures s.accountNonces.Keys <= ApplyUpdates(s, updates).accountNonces.Keys
    decreases |updates|
  {
    if updates != [] {
      UpdatesAddAccounts(ApplyUpdate(s, updates[0].0, updates[0].1), updates[1..]);
    }
  }

  /** Every element of the queue fits an empty block. */
  predicate AllFit(accounts: set<Address>, queue: seq<TxVariant>, chunks: nat) {
    forall i :: 0 <= i < |queue| ==> RequiredChunks(accounts, queue[i]) <= chunks
  }

  lemma {:induction false} RequestKeepsFit(s: State, limits: Limits, r: Request)
    requires limits.chunks >= 6 && AllFit(s.accountNonces.Keys, s.readyTxs, limits.chunks)
    requires r.UpdateNonces? ==> NoDeletes(r.updates)
    ensures s.accountNonces.Keys <= Next(s, limits, r).accountNonces.Keys
    ensures AllFit(Next(s, limits, r).accountNonces.Keys, Next(s, limits, r).readyTxs, limits.chunks)
  {
    if r.UpdateNonces? {
      UpdatesKeepQueue(s, r.updates);
      UpdatesAddAccounts(s, r.updates);
      var accounts, more := s.accountNonces.Keys, ApplyUpdates(s, r.updates).accountNonces.Keys;
      forall i | 0 <= i < |s.readyTxs|
        ensures RequiredChunks(more, s.readyTxs[i]) <= limits.chunks
      {
        ElementGetsCheaper(accounts, more, s.readyTxs[i]);
      }
    }
  }

  /** Admission is enough: as long as no account is deleted, whatever was admitted fits an empty block
      for as long as it waits. */
  lemma {:induction false} QueueAlwaysFits(s: State, limits: Limits, requests: seq<Request>)
    requires limits.chunks >= 6 && AllFit(s.accountNonces.Keys, s.readyTxs, limits.chunks) && NobodyDeleted(requests)
    ensures var last := After(s, limits, requests); AllFit(last.accountNonces.Keys, last.readyTxs, limits.chunks)
    decreases |requests|
  {
    hide Next, AllFit;
    if requests != [] {
      RequestKeepsFit(s, limits, requests[0]);
      forall i | 0 <= i < |requests[1..]| && requests[1..][i].UpdateNonces?
        ensures NoDeletes(requests[1..][i].updates)
      {
        assert requests[1..][i] == requests[i + 1];
      }
      QueueAlwaysFits(Next(s, limits, requests[0]), limits, requests[1..]);
    }
  }

  /** Blocks without priority operations. */
  function EmptyBlocks(n: nat): (requests: seq<Request>)
    ensures |requests| == n
  {
    seq(n, _ => GetBlock(0))
  }

  /** Full-size blocks empty a queue of `n` elements within `n` proposals if and only if each of its
      elements fits a block. */
  lemma {:induction false} BlocksEmptyTheQueueIff(s: State, limits: Limits, n: nat)
    requires n >= |s.readyTxs|
    ensures After(s, limits, EmptyBlocks(n)).readyTxs == []
       <==> AllFit(s.accountNonces.Keys, s.readyTxs, limits.chunks)
    decreases n
  {
    if n > 0 {
      var accounts, queue := s.accountNonces.Keys, s.readyTxs;
      var k := Fitting(accounts, queue, limits.chunks);
      FittingFits(accounts, queue, limits.chunks);
      FitSplit(accounts, queue, k, limits.chunks);
      OneEmptyBlock(s, limits, n);
      if k == 0 && queue != [] {
        StuckForever(s, limits, n);
      } else {
        hide AllFit, Fitting, EmptyBlocks, After;
        BlocksEmptyTheQueueIff(s.(readyTxs := queue[k..]), limits, n - 1);
      }
    }
  }

  lemma {:induction false} OneEmptyBlock(s: State, limits: Limits, n: nat)
    requires n > 0
    ensures var k := Fitting(s.accountNonces.Keys, s.readyTxs, limits.chunks);
            After(s, limits, EmptyBlocks(n)) == After(s.(readyTxs := s.readyTxs[k..]), limits, EmptyBlocks(n - 1))
  {
    hide Fitting;
    assert EmptyBlocks(n)[0] == GetBlock(0) && EmptyBlocks(n)[1..] == EmptyBlocks(n - 1);
  }

  lemma {:induction false} FitSplit(accounts: set<Address>, queue: seq<TxVariant>, k: nat, chunks: nat)
    requires k <= |queue|
    ensures AllFit(accounts, queue, chunks) <==> AllFit(accounts, queue[..k], chunks) && AllFit(accounts, queue[k..], chunks)
  {
    hide RequiredChunks;
    if AllFit(accounts, queue[..k], chunks) && AllFit(accounts, queue[k..], chunks) {
      forall i | 0 <= i < |queue|
        ensures RequiredChunks(accounts, queue[i]) <= chunks
      {
        if i < k {
          assert queue[i] == queue[..k][i];
        } else {
          assert queue[i] == queue[k..][i - k];
        }
      }
    }
  }

  lemma {:induction false} FittingFits(accounts: set<Address>, queue: seq<TxVariant>, chunks: nat)
    ensures forall i :: 0 <= i < Fitting(accounts, queue, chunks) ==> RequiredChunks(accounts, queue[i]) <= chunks
    ensures Fitting(accounts, queue, chunks) == 0 && queue != [] ==> RequiredChunks(accounts, queue[0]) > chunks
    decreases |queue|
  {
    if queue != [] && RequiredChunks(accounts, queue[0]) <= chunks {
      FittingFits(accounts, queue[1..], chunks - RequiredChunks(accounts, queue[0]));
      assert forall i :: 1 <= i < |queue| ==> queue[i] == queue[1..][i - 1];
    }
  }

  /** An element that fits no block at the head of the queue blocks everything behind it. */
  lemma {:induction false} StuckForever(s: State, limits: Limits, n: nat)
    requires s.readyTxs != [] && RequiredChunks(s.accountNonces.Keys, s.readyTxs[0]) > limits.chunks
    ensures After(s, limits, EmptyBlocks(n)) == s
    decreases n
  {
    if n > 0 {
      assert EmptyBlocks(n)[1..] == EmptyBlocks(n - 1);
      assert s.readyTxs[0..] == s.readyTxs;
      StuckForever(s, limits, n - 1);
    }
  }

  /** Any admitted run without deletions is emptied by enough blocks. */
  lemma {:induction false} MempoolDrains(s: State, limits: Limits, requests: seq<Request>)
    requires s.readyTxs == [] && limits.chunks >= 6 && NobodyDeleted(requests)
    ensures var last := After(s, limits, requests);
            After(last, limits, EmptyBlocks(|last.readyTxs|)).readyTxs == []
  {
    QueueAlwaysFits(s, limits, requests);
    var last := After(s, limits, requests);
    BlocksEmptyTheQueueIff(last, limits, |last.readyTxs|);
  }

  /** Deleting the receiver of a waiting batch makes the batch too big for any block. */
  lemma {:induction false} DeletionBlocksTheQueue(sender: Address, receiver: Address, n: nat)
    requires sender != receiver
    ensures var limits := Limits(6, 1);
            var s := State(map[receiver := 0], map[0 := receiver], []);
            var transfer := Transfer(sender, 0, receiver);
            var requests := [NewTxsBatch([transfer, transfer, transfer], Stored(1)), UpdateNonces([(0, Delete(receiver))])];
            var last := After(s, limits, requests);
            last.readyTxs != [] && After(last, limits, EmptyBlocks(n)) == last
  {
    var limits, s, transfer := Limits(6, 1), State(map[receiver := 0], map[0 := receiver], []), Transfer(sender, 0, receiver);
    var txs := [transfer, transfer, transfer];
    ThreeTransfers({receiver}, transfer);
    ThreeTransfers({}, transfer);
    assert Withdrawals(txs) == 0 by {
      assert Withdrawals([transfer]) == 0;
      assert [transfer, transfer][1..] == [transfer];
      assert txs[1..] == [transfer, transfer];
    }
    assert s.accountNonces.Keys == {receiver};
    var s1 := s.(readyTxs := [Batch(txs, 1)]);
    var r1, r2 := NewTxsBatch(txs, Stored(1)), UpdateNonces([(0, Delete(receiver))]);
    assert Next(s, limits, r1) == s1;
    var s2 := State(map[], map[], [Batch(txs, 1)]);
    assert Next(s1, limits, r2) == s2 by {
      var updates := [(0, Delete(receiver))];
      assert ApplyUpdate(s1, 0, Delete(receiver)) == s2;
      assert updates[1..] == [] && updates[0] == (0, Delete(receiver));
      assert ApplyUpdates(s1, updates) == ApplyUpdates(s2, []);
    }
    assert After(s1, limits, [r2]) == s2;
    assert [r1, r2][1..] == [r2];
    assert s2.accountNonces.Keys == {};
    StuckForever(s2, limits, n);
  }

  lemma {:induction false} ThreeTransfers(accounts: set<Address>, transfer: ZkSyncTx)
    requires transfer.Transfer?
    ensures ChunksForBatch(accounts, [transfer, transfer, transfer]) == if transfer.receiver in accounts then 6 else 18
  {
    var txs := [transfer, transfer, transfer];
    assert ChunksForBatch(accounts, [transfer]) == ChunksForTx(accounts, transfer);
    assert [transfer, transfer][1..] == [transfer];
    assert txs[1..] == [transfer, transfer];
  }

  // ----- the actor

  class Mempool {
    var accountNonces: map<Address, Nonce>
    var accountIds: map<AccountId, Address>
    var readyTxs: seq<TxVariant>
    const maxBlockSizeChunks: nat
    const maxNumberOfWithdrawalsPerBlock: nat

    constructor (nonces: map<Address, Nonce>, ids: map<AccountId, Address>, ready: seq<TxVariant>, limits: Limits)
      ensures Contents() == State(nonces, ids, ready) && GetLimits() == limits
    {
      accountNonces, accountIds, readyTxs := nonces, ids, ready;
      maxBlockSizeChunks, maxNumberOfWithdrawalsPerBlock := limits.chunks, limits.withdrawals;
    }

    function Contents(): State
      reads this
    {
      State(accountNonces, accountIds, readyTxs)
    }

    function GetLimits(): Limits {
      Limits(maxBlockSizeChunks, maxNumberOfWithdrawalsPerBlock)
    }

    method AddTx(tx: ZkSyncTx, reply: DbReply) returns (result: AddResult)
      modifies this`readyTxs
      ensures result == TxAnswer(old(Contents()), tx, reply)
      ensures Contents() == old(Next(Contents(), GetLimits(), NewTx(tx, reply)))
    {
      if !reply.Stored? {
        return Refused(DbError);
      }
      var known := if tx.account in accountNonces then accountNonces[tx.account] else 0;
      if tx.nonce >= known {
        readyTxs := readyTxs + [Single(tx)];
        return Added;
      }
      result := Refused(NonceMismatch);
    }

    method CountWithdrawals(txs: seq<ZkSyncTx>) returns (count: nat)
      ensures count == Withdrawals(txs)
    {
      count := 0;
      for i := 0 to |txs|
        invariant count + Withdrawals(txs[i..]) == Withdrawals(txs)
      {
        assert txs[i..][1..] == txs[i + 1..];
        if txs[i].Withdraw? || txs[i].ForcedExit? {
          count := count + 1;
        }
      }
    }

    /** The checks of both `add_batch` methods, in their order. */
    method AddBatch(txs: seq<ZkSyncTx>, reply: DbReply) returns (result: AddResult)
      modifies this`readyTxs
      ensures result == BatchAnswer(old(Contents()), GetLimits(), txs, reply)
      ensures Contents() == old(Next(Contents(), GetLimits(), NewTxsBatch(txs, reply)))
    {
      if reply.Unreachable? {
        return Refused(DbError);
      }
      if ChunksForBatch(accountNonces.Keys, txs) > maxBlockSizeChunks {
        return Refused(BatchTooBig);
      }
      var numberOfWithdrawals := CountWithdrawals(txs);
      if numberOfWithdrawals > maxNumberOfWithdrawalsPerBlock {
        return Refused(BatchWithdrawalsOverload);
      }
      if reply.Failed? {
        return Refused(DbError);
      }
      for i := 0 to |txs|
        invariant forall j :: 0 <= j < i ==> Timely(Contents(), txs[j])
      {
        var known := if txs[i].account in accountNonces then accountNonces[txs[i].account] else 0;
        if txs[i].nonce < known {
          assert !Timely(Contents(), txs[i]);
          return Refused(NonceMismatch);
        }
      }
      readyTxs := readyTxs + [Batch(txs, reply.batchId)];
      result := Added;
    }

    method UpdateNoncesOf(updates: seq<(AccountId, AccountUpdate)>)
      modifies this`accountNonces, this`accountIds
      ensures Contents() == ApplyUpdates(old(Contents()), updates)
    {
      for i := 0 to |updates|
        invariant ApplyUpdates(Contents(), updates[i..]) == ApplyUpdates(old(Contents()), updates)
      {
        assert updates[i..][0] == updates[i] && updates[i..][1..] == updates[i + 1..];
        var (id, update) := updates[i];
        match update {
          case Create(address, nonce) =>
            accountIds := accountIds[id := address];
            accountNonces := accountNonces[address := nonce];
          case Delete(address) =>
            accountIds := accountIds - {id};
            accountNonces := accountNonces - {address};
          case UpdateBalance(newNonce) =>
            if id in accountIds && accountIds[id] in accountNonces {
              accountNonces := accountNonces[accountIds[id] := newNonce];
            }
          case ChangePubKeyHash(newNonce) =>
            if id in accountIds && accountIds[id] in accountNonces {
              accountNonces := accountNonces[accountIds[id] := newNonce];
            }
        }
      }
    }

    /** `prepare_tx_for_block`: elements are taken from the front; the first that does not fit is put back. */
    method PrepareTxForBlock(chunks: nat) returns (chunksLeft: nat, txsForCommit: seq<TxVariant>)
      modifies this`readyTxs
      ensures var n := Fitting(old(accountNonces.Keys), old(readyTxs), chunks);
              txsForCommit == old(readyTxs)[..n] && readyTxs == old(readyTxs)[n..]
      ensures chunksLeft + TotalChunks(accountNonces.Keys, txsForCommit) == chunks
    {
      chunksLeft, txsForCommit := chunks, [];
      hide RequiredChunks, TotalChunks;
      assert TotalChunks(accountNonces.Keys, []) == 0 by { NoChunks(accountNonces.Keys); }
      var accounts := accountNonces.Keys;
      var open := true;
      while open && readyTxs != []
        invariant txsForCommit + readyTxs == old(readyTxs)
        invariant chunksLeft + TotalChunks(accounts, txsForCommit) == chunks
        invariant open ==> |txsForCommit| + Fitting(accounts, readyTxs, chunksLeft) == Fitting(accounts, old(readyTxs), chunks)
        invariant !open ==> |txsForCommit| == Fitting(accounts, old(readyTxs), chunks)
        decreases |readyTxs|, open
      {
        var tx := readyTxs[0];
        readyTxs := readyTxs[1..];
        var chunksForTx := RequiredChunks(accounts, tx);
        if chunksLeft >= chunksForTx {
          TotalAppend(accounts, txsForCommit, tx);
          assert txsForCommit + ([tx] + readyTxs) == txsForCommit + [tx] + readyTxs;
          txsForCommit := txsForCommit + [tx];
          chunksLeft := chunksLeft - chunksForTx;
        } else {
          readyTxs := [tx] + readyTxs;
          open := false;
        }
      }
    }

    /** The request loop, over any list of requests. */
    method Run(requests: seq<Request>) returns (proposed: seq<TxVariant>)
      requires forall i :: 0 <= i < |requests| ==> requests[i].GetBlock? ==> requests[i].priorityChunks <= maxBlockSizeChunks
      modifies this
      ensures Contents() == old(After(Contents(), GetLimits(), requests))
      ensures proposed == old(Proposed(Contents(), GetLimits(), requests))
    {
      proposed := [];
      for i := 0 to |requests|
        invariant After(Contents(), GetLimits(), requests[i..]) == old(After(Contents(), GetLimits(), requests))
        invariant proposed + Proposed(Contents(), GetLimits(), requests[i..]) == old(Proposed(Contents(), GetLimits(), requests))
      {
        var r := requests[i];
        assert requests[i..][0] == r && requests[i..][1..] == requests[i + 1..];
        ghost var s := Contents();
        hide TxAnswer, BatchAnswer, ApplyUpdates, Fitting;
        ghost var before := proposed;
        match r {
          case NewTx(tx, reply) =>
            var result := AddTx(tx, reply);
          case NewTxsBatch(txs, reply) =>
            var result := AddBatch(txs, reply);
          case UpdateNonces(updates) =>
            UpdateNoncesOf(updates);
          case GetBlock(priorityChunks) =>
            var chunksLeft, txs := PrepareTxForBlock(maxBlockSizeChunks - priorityChunks);
            proposed := proposed + txs;
        }
        assert Contents() == Next(s, GetLimits(), r);
        assert proposed == before + NewlyProposed(s, GetLimits(), r);
        Regroup(before, NewlyProposed(s, GetLimits(), r), Proposed(Contents(), GetLimits(), requests[i + 1..]));
      }
    }
  }

  lemma {:induction false} NoChunks(accounts: set<Address>)
    ensures TotalChunks(accounts, []) == 0
  {
  }

  lemma {:induction false} TotalAppend(accounts: set<Address>, elements: seq<TxVariant>, element: TxVariant)
    ensures TotalChunks(accounts, elements + [element]) == TotalChunks(accounts, elements) + RequiredChunks(accounts, element)
  {
    if elements == [] {
      assert elements + [element] == [element];
    } else {
      TotalAppend(accounts, elements[1..], element);
      assert (elements + [element])[1..] == elements[1..] + [element];
    }
  }
}
