/** The mempool against what is around it: its two maps follow the account map that the committed updates move, it
    accepts exactly the nonces that map allows, and what it proposes fits a block of the circuit. */
module MempoolAccounts {
  import opened Common
  import opened Params
  import opened Mempool
  import Transactions
  import Prover
  import Completeness

  /** An account as far as the mempool is concerned. */
  datatype Account = Account(address: Address, nonce: Nonce)

  type Accounts = map<AccountId, Account>

  // ----- the committed accounts

  /** `Account::apply_update` */
  function Updated(account: Option<Account>, update: AccountUpdate): Option<Account> {
    match account
    case Some(a) =>
      if update.Delete? then None
      else if update.UpdateBalance? || update.ChangePubKeyHash? then Some(a.(nonce := update.newNonce))
      else account
    case None => if update.Create? then Some(Account(update.address, update.nonce)) else None
  }

  function Find(accounts: Accounts, id: AccountId): Option<Account> {
    if id in accounts then Some(accounts[id]) else None
  }

  /** One step of `apply_updates`: the account is taken out and, when one is left, put back. */
  function Move(accounts: Accounts, id: AccountId, update: AccountUpdate): Accounts {
    match Updated(Find(accounts, id), update)
    case Some(a) => accounts[id := a]
    case None => accounts - {id}
  }

  function MoveAll(accounts: Accounts, updates: seq<(AccountId, AccountUpdate)>): Accounts
    decreases |updates|
  {
    if updates == [] then accounts else MoveAll(Move(accounts, updates[0].0, updates[0].1), updates[1..])
  }

  /** `apply_updates` */
  method ApplyCommitted(accounts: Accounts, updates: seq<(AccountId, AccountUpdate)>) returns (r: Accounts)
    ensures r == MoveAll(accounts, updates)
  {
    r := accounts;
    for i := 0 to |updates|
      invariant MoveAll(r, updates[i..]) == MoveAll(accounts, updates)
    {
      assert updates[i..][0] == updates[i] && updates[i..][1..] == updates[i + 1..];
      var (id, update) := updates[i];
      var updated := Updated(Find(r, id), update);
      ghost var next := Move(r, id, update);
      r := r - {id};
      if updated.Some? {
        r := r[id := updated.value];
      }
      assert r == next;
    }
  }

  // ----- the mempool's maps

  function Addresses(accounts: Accounts): set<Address> {
    set id | id in accounts :: accounts[id].address
  }

  predicate Held(accounts: Accounts, address: Address) {
    address in Addresses(accounts)
  }

  predicate Distinct(accounts: Accounts) {
    forall x, y :: x in accounts && y in accounts && accounts[x].address == accounts[y].address ==> x == y
  }

  /** The maps hold the address of every account and the nonce of every address, and nothing else. */
  predicate Mirrors(s: State, accounts: Accounts) {
    && Distinct(accounts)
    && s.accountIds.Keys == accounts.Keys
    && (forall id :: id in accounts ==> s.accountIds[id] == accounts[id].address)
    && s.accountNonces.Keys == Addresses(accounts)
    && (forall id :: id in accounts ==> s.accountNonces[accounts[id].address] == accounts[id].nonce)
  }

  /** The update is meant for this account map: a new account has a new id and a new address, or repeats what is
      there; a deleted one has the address it is deleted with. */
  predicate Fits(accounts: Accounts, id: AccountId, update: AccountUpdate) {
    match update
    case Create(address, nonce) => if id in accounts then accounts[id] == Account(address, nonce) else !Held(accounts, address)
    case Delete(address) => if id in accounts then accounts[id].address == address else !Held(accounts, address)
    case _ => true
  }

  predicate AllFit(accounts: Accounts, updates: seq<(AccountId, AccountUpdate)>)
    decreases |updates|
  {
    updates == [] || (Fits(accounts, updates[0].0, updates[0].1) && AllFit(Move(accounts, updates[0].0, updates[0].1), updates[1..]))
  }

  lemma {:induction false} AddressesWith(accounts: Accounts, id: AccountId, a: Account)
    requires id !in accounts
    ensures Addresses(accounts[id := a]) == Addresses(accounts) + {a.address}
  {
    var after := accounts[id := a];
    assert after[id].address in Addresses(after);
    forall x | x in accounts
      ensures accounts[x].address in Addresses(after)
    {
      assert after[x] == accounts[x];
    }
  }

  lemma {:induction false} AddressesWithout(accounts: Accounts, id: AccountId)
    requires Distinct(accounts) && id in accounts
    ensures Addresses(accounts - {id}) == Addresses(accounts) - {accounts[id].address}
  {
    var after := accounts - {id};
    forall x | x in after
      ensures after[x] == accounts[x] && accounts[x].address != accounts[id].address && accounts[x].address in Addresses(accounts)
    {
    }
    forall x | x in accounts && accounts[x].address != accounts[id].address
      ensures accounts[x].address in Addresses(after)
    {
      assert after[x].address in Addresses(after);
    }
  }

  lemma {:induction false} AddressesMoved(accounts: Accounts, id: AccountId, a: Account)
    requires id in accounts && a.address == accounts[id].address
    ensures Addresses(accounts[id := a]) == Addresses(accounts)
  {
    var after := accounts[id := a];
    forall x | x in accounts
      ensures after[x].address == accounts[x].address && after[x].address in Addresses(after)
    {
    }
  }

  lemma {:induction false} StaysDistinctWith(accounts: Accounts, id: AccountId, a: Account)
    requires Distinct(accounts) && id !in accounts
    ensures Distinct(accounts[id := a]) <==> !Held(accounts, a.address)
  {
    var after := accounts[id := a];
    if Held(accounts, a.address) {
      var x :| x in accounts && accounts[x].address == a.address;
      assert after[x].address == after[id].address;
    } else {
      assert forall x :: x in accounts ==> accounts[x].address in Addresses(accounts);
    }
  }

  lemma {:induction false} CreateMirrors(s: State, accounts: Accounts, id: AccountId, update: AccountUpdate)
    requires Mirrors(s, accounts) && update.Create?
    ensures Mirrors(ApplyUpdate(s, id, update), Move(accounts, id, update)) <==> Fits(accounts, id, update)
  {
    hide Addresses, Distinct;
    var next, after := ApplyUpdate(s, id, update), Move(accounts, id, update);
    AllHeld(accounts);
    if id in accounts {
      assert after == accounts;
      assert Fits(accounts, id, update) ==> next == s;
    } else {
      AddressesWith(accounts, id, Account(update.address, update.nonce));
      StaysDistinctWith(accounts, id, Account(update.address, update.nonce));
    }
  }

  lemma {:induction false} AllHeld(accounts: Accounts)
    ensures forall id :: id in accounts ==> accounts[id].address in Addresses(accounts)
  {
  }

  lemma {:induction false} StaysDistinct(accounts: Accounts, id: AccountId)
    requires Distinct(accounts)
    ensures Distinct(accounts - {id})
    ensures forall x :: x in accounts && x != id && id in accounts ==> accounts[x].address != accounts[id].address
  {
  }

  lemma {:induction false} DeleteMirrors(s: State, accounts: Accounts, id: AccountId, update: AccountUpdate)
    requires Mirrors(s, accounts) && update.Delete?
    ensures Mirrors(ApplyUpdate(s, id, update), Move(accounts, id, update)) <==> Fits(accounts, id, update)
  {
    hide Addresses, Distinct;
    AllHeld(accounts);
    StaysDistinct(accounts, id);
    var next, after := ApplyUpdate(s, id, update), Move(accounts, id, update);
    assert next.accountNonces.Keys == Addresses(accounts) - {update.address};
    assert after == accounts - {id};
    if id in accounts {
      AddressesWithout(accounts, id);
      if accounts[id].address != update.address {
        assert accounts[id].address in next.accountNonces.Keys;
      } else {
        forall x | x in after
          ensures next.accountNonces[after[x].address] == after[x].nonce
        {
          assert accounts[x].address != update.address;
        }
      }
    } else {
      assert after == accounts && next.accountIds == s.accountIds;
      if !Held(accounts, update.address) {
        assert next.accountNonces == s.accountNonces;
      }
    }
  }

  lemma {:induction false} StaysDistinctMoved(accounts: Accounts, id: AccountId, a: Account)
    requires Distinct(accounts) && id in accounts && a.address == accounts[id].address
    ensures Distinct(accounts[id := a])
  {
  }

  lemma {:induction false} NonceMirrors(s: State, accounts: Accounts, id: AccountId, update: AccountUpdate)
    requires Mirrors(s, accounts) && (update.UpdateBalance? || update.ChangePubKeyHash?)
    ensures Mirrors(ApplyUpdate(s, id, update), Move(accounts, id, update))
  {
    hide Addresses, Distinct;
    AllHeld(accounts);
    StaysDistinct(accounts, id);
    if id in accounts {
      var a := accounts[id].(nonce := update.newNonce);
      AddressesMoved(accounts, id, a);
      StaysDistinctMoved(accounts, id, a);
      assert Move(accounts, id, update) == accounts[id := a];
      assert ApplyUpdate(s, id, update) == s.(accountNonces := s.accountNonces[a.address := a.nonce]);
    } else {
      assert Move(accounts, id, update) == accounts;
    }
  }

  /** The maps still follow the account map after an update if and only if the update fits it. */
  lemma {:induction false} UpdateMirrorsIff(s: State, accounts: Accounts, id: AccountId, update: AccountUpdate)
    requires Mirrors(s, accounts)
    ensures Mirrors(ApplyUpdate(s, id, update), Move(accounts, id, update)) <==> Fits(accounts, id, update)
  {
    hide Mirrors, ApplyUpdate, Move;
    if update.Create? {
      CreateMirrors(s, accounts, id, update);
    } else if update.Delete? {
      DeleteMirrors(s, accounts, id, update);
    } else {
      NonceMirrors(s, accounts, id, update);
    }
  }

  lemma {:induction false} UpdatesMirror(s: State, accounts: Accounts, updates: seq<(AccountId, AccountUpdate)>)
    requires Mirrors(s, accounts) && AllFit(accounts, updates)
    ensures Mirrors(ApplyUpdates(s, updates), MoveAll(accounts, updates))
    decreases |updates|
  {
    hide Mirrors, ApplyUpdate, Move, Fits;
    if updates != [] {
      UpdateMirrorsIff(s, accounts, updates[0].0, updates[0].1);
      UpdatesMirror(ApplyUpdate(s, updates[0].0, updates[0].1), Move(accounts, updates[0].0, updates[0].1), updates[1..]);
    }
  }

  // ----- over runs

  /** The committed accounts after these requests. */
  function Committed(accounts: Accounts, requests: seq<Request>): Accounts
    decreases |requests|
  {
    if requests == [] then accounts
    else Committed(if requests[0].UpdateNonces? then MoveAll(accounts, requests[0].updates) else accounts, requests[1..])
  }

  predicate RequestsFit(accounts: Accounts, requests: seq<Request>)
    decreases |requests|
  {
    requests == [] ||
    if requests[0].UpdateNonces? then AllFit(accounts, requests[0].updates) && RequestsFit(MoveAll(accounts, requests[0].updates), requests[1..])
    else RequestsFit(accounts, requests[1..])
  }

  lemma {:induction false} RunMirrors(s: State, accounts: Accounts, limits: Limits, requests: seq<Request>)
    requires Mirrors(s, accounts) && RequestsFit(accounts, requests)
    ensures Mirrors(After(s, limits, requests), Committed(accounts, requests))
    decreases |requests|
  {
    if requests != [] {
      var next := Next(s, limits, requests[0]);
      if requests[0].UpdateNonces? {
        UpdatesMirror(s, accounts, requests[0].updates);
        hide Mirrors, ApplyUpdates, MoveAll, AllFit;
        RunMirrors(next, MoveAll(accounts, requests[0].updates), limits, requests[1..]);
      } else {
        QueueIsNoMirror(s, accounts, next);
        hide Mirrors, NewlyAccepted, NewlyProposed;
        RunMirrors(next, accounts, limits, requests[1..]);
      }
    }
  }

  lemma {:induction false} QueueIsNoMirror(s: State, accounts: Accounts, next: State)
    requires Mirrors(s, accounts) && next.accountNonces == s.accountNonces && next.accountIds == s.accountIds
    ensures Mirrors(next, accounts)
  {
  }

  /** The transaction's nonce is not below the committed one of its account; an address without an account has
      used none. */
  predicate NotUsed(accounts: Accounts, tx: ZkSyncTx) {
    forall id :: id in accounts && accounts[id].address == tx.account ==> accounts[id].nonce <= tx.nonce
  }

  lemma {:induction false} TimelyIff(s: State, accounts: Accounts, tx: ZkSyncTx)
    requires Mirrors(s, accounts)
    ensures Timely(s, tx) <==> NotUsed(accounts, tx)
  {
    assert forall id :: id in accounts ==> accounts[id].address in Addresses(accounts);
    if tx.account in s.accountNonces {
      var x :| x in accounts && accounts[x].address == tx.account;
      assert s.accountNonces[tx.account] == accounts[x].nonce;
    }
  }

  /** Over any run the mempool accepts a stored transaction, and a stored batch that fits a block, if and only if no
      nonce in it is below the one its account has in the committed accounts. */
  lemma {:induction false} AcceptsUnusedNonces(s: State, accounts: Accounts, limits: Limits, requests: seq<Request>)
    requires Mirrors(s, accounts) && RequestsFit(accounts, requests)
    ensures var now, committed := After(s, limits, requests), Committed(accounts, requests);
            && (forall tx, reply :: TxAnswer(now, tx, reply).Added? <==> reply.Stored? && NotUsed(committed, tx))
            && (forall txs, reply :: BatchAnswer(now, limits, txs, reply).Added? <==>
                  && reply.Stored? && ChunksForBatch(now.accountNonces.Keys, txs) <= limits.chunks && Withdrawals(txs) <= limits.withdrawals
                  && forall i :: 0 <= i < |txs| ==> NotUsed(committed, txs[i]))
  {
    RunMirrors(s, accounts, limits, requests);
    var now, committed := After(s, limits, requests), Committed(accounts, requests);
    forall tx
      ensures Timely(now, tx) <==> NotUsed(committed, tx)
    {
      TimelyIff(now, committed, tx);
    }
    hide Mirrors, NotUsed, Timely, ChunksForBatch, Withdrawals;
  }

  /** Why a batch is refused: each reason exactly, in terms of the committed accounts. */
  lemma {:induction false} BatchIsRefused(s: State, accounts: Accounts, limits: Limits, txs: seq<ZkSyncTx>, reply: DbReply)
    requires Mirrors(s, accounts)
    ensures var answer := BatchAnswer(s, limits, txs, reply);
            var big, many := ChunksForBatch(s.accountNonces.Keys, txs) > limits.chunks, Withdrawals(txs) > limits.withdrawals;
            && (answer == Refused(BatchTooBig) <==> !reply.Unreachable? && big)
            && (answer == Refused(BatchWithdrawalsOverload) <==> !reply.Unreachable? && !big && many)
            && (answer == Refused(DbError) <==> reply.Unreachable? || (reply.Failed? && !big && !many))
            && (answer == Refused(NonceMismatch) <==> reply.Stored? && !big && !many && exists i :: 0 <= i < |txs| && !NotUsed(accounts, txs[i]))
  {
    forall i | 0 <= i < |txs|
      ensures Timely(s, txs[i]) <==> NotUsed(accounts, txs[i])
    {
      TimelyIff(s, accounts, txs[i]);
    }
    hide Mirrors, NotUsed, Timely, ChunksForBatch, Withdrawals;
  }

  /** `restore_from_db`, over the committed accounts in any order. */
  method RestoreFromDb(accounts: Accounts, ready: seq<TxVariant>) returns (nonces: map<Address, Nonce>, ids: map<AccountId, Address>)
    requires Distinct(accounts)
    ensures Mirrors(State(nonces, ids, ready), accounts)
  {
    nonces, ids := map[], map[];
    hide Addresses, Distinct;
    var rest := accounts.Keys;
    NoneHeld();
    assert accounts - rest == map[];
    while rest != {}
      invariant rest <= accounts.Keys && Restored(nonces, ids, accounts - rest)
      decreases |rest|
    {
      var id :| id in rest;
      OneMoreRestored(nonces, ids, accounts - rest, id, accounts[id]) by {
        NoneShares(accounts, rest, id);
      }
      assert (accounts - rest)[id := accounts[id]] == accounts - (rest - {id});
      ids, nonces, rest := ids[id := accounts[id].address], nonces[accounts[id].address := accounts[id].nonce], rest - {id};
    }
    assert accounts - rest == accounts;
  }

  /** The maps hold these accounts. */
  predicate Restored(nonces: map<Address, Nonce>, ids: map<AccountId, Address>, accounts: Accounts) {
    && ids.Keys == accounts.Keys && nonces.Keys == Addresses(accounts)
    && forall id :: id in accounts ==> ids[id] == accounts[id].address && nonces[accounts[id].address] == accounts[id].nonce
  }

  lemma {:induction false} NoneHeld()
    ensures Addresses(map[]) == {}
  {
  }

  lemma {:induction false} NoneShares(accounts: Accounts, rest: set<AccountId>, id: AccountId)
    requires Distinct(accounts) && id in rest && rest <= accounts.Keys
    ensures forall x :: x in accounts - rest ==> (accounts - rest)[x].address != accounts[id].address
  {
  }

  lemma {:induction false} OneMoreRestored(nonces: map<Address, Nonce>, ids: map<AccountId, Address>, accounts: Accounts, id: AccountId, a: Account)
    requires Restored(nonces, ids, accounts) && id !in accounts
    requires forall x :: x in accounts ==> accounts[x].address != a.address
    ensures Restored(nonces[a.address := a.nonce], ids[id := a.address], accounts[id := a])
  {
    AddressesWith(accounts, id, a);
    hide Addresses;
  }

  // ----- counting

  /** The withdrawals of a batch: its withdrawals and forced exits. */
  lemma {:induction false} WithdrawalsAreCounted(txs: seq<ZkSyncTx>)
    ensures Withdrawals(txs) == |set i | 0 <= i < |txs| && (txs[i].Withdraw? || txs[i].ForcedExit?)|
  {
    var n := |txs| - 1;
    if n >= 0 {
      WithdrawalsAppend(txs[..n], txs[n]);
      assert txs[..n] + [txs[n]] == txs;
      WithdrawalsAreCounted(txs[..n]);
      var front := set i | 0 <= i < n && (txs[..n][i].Withdraw? || txs[..n][i].ForcedExit?);
      var all := set i | 0 <= i < |txs| && (txs[i].Withdraw? || txs[i].ForcedExit?);
      assert all == if txs[n].Withdraw? || txs[n].ForcedExit? then front + {n} else front;
    }
  }

  lemma {:induction false} WithdrawalsAppend(txs: seq<ZkSyncTx>, tx: ZkSyncTx)
    ensures Withdrawals(txs + [tx]) == Withdrawals(txs) + if tx.Withdraw? || tx.ForcedExit? then 1 else 0
  {
    if txs == [] {
      assert [] + [tx] == [tx] && [tx][1..] == [];
    } else {
      assert (txs + [tx])[0] == txs[0] && (txs + [tx])[1..] == txs[1..] + [tx];
      WithdrawalsAppend(txs[1..], tx);
    }
  }

  // ----- the chunks of a proposal

  /** The operation a transaction becomes while these addresses have accounts. Closing is never executed. */
  predicate Becomes(tx: ZkSyncTx, op: Transactions.Tx, accounts: set<Address>) {
    match tx
    case Transfer(_, _, receiver) => if receiver in accounts then op.Transfer? else op.TransferToNew?
    case Withdraw(_, _) => op.Withdraw?
    case ChangePubKey(_, _) => op.ChangePubKey?
    case ForcedExit(_, _) => op.ForcedExit?
    case Close(_, _) => false
  }

  predicate AllBecome(txs: seq<ZkSyncTx>, ops: seq<Transactions.Tx>, accounts: set<Address>) {
    |txs| == |ops| && forall i :: 0 <= i < |txs| ==> Becomes(txs[i], ops[i], accounts)
  }

  function TxsIn(element: TxVariant): seq<ZkSyncTx> {
    match element
    case Single(tx) => [tx]
    case Batch(txs, _) => txs
  }

  function AllTxs(elements: seq<TxVariant>): seq<ZkSyncTx> {
    if elements == [] then [] else TxsIn(elements[0]) + AllTxs(elements[1..])
  }

  lemma {:induction false} BatchCost(accounts: set<Address>, txs: seq<ZkSyncTx>, ops: seq<Transactions.Tx>)
    requires AllBecome(txs, ops, accounts)
    ensures ChunksForBatch(accounts, txs) == Completeness.ChunkCount(ops)
  {
    if txs != [] {
      assert Becomes(txs[0], ops[0], accounts);
      assert ChunksForTx(accounts, txs[0]) == Chunks(Prover.Code(ops[0]));
      forall i | 0 <= i < |txs[1..]|
        ensures Becomes(txs[1..][i], ops[1..][i], accounts)
      {
        assert Becomes(txs[i + 1], ops[i + 1], accounts);
      }
      hide ChunksForTx, Becomes, Prover.Code;
      BatchCost(accounts, txs[1..], ops[1..]);
    }
  }

  lemma {:induction false} ElementCost(accounts: set<Address>, element: TxVariant, ops: seq<Transactions.Tx>)
    requires AllBecome(TxsIn(element), ops, accounts)
    ensures RequiredChunks(accounts, element) == Completeness.ChunkCount(ops)
  {
    BatchCost(accounts, TxsIn(element), ops);
    hide ChunksForTx, Becomes, Completeness.ChunkCount;
    if element.Single? {
      assert ChunksForBatch(accounts, [element.tx]) == ChunksForTx(accounts, element.tx) + ChunksForBatch(accounts, [element.tx][1..]);
    }
  }

  lemma {:induction false} CountSplit(ops: seq<Transactions.Tx>, k: nat)
    requires k <= |ops|
    ensures Completeness.ChunkCount(ops) == Completeness.ChunkCount(ops[..k]) + Completeness.ChunkCount(ops[k..])
  {
    hide Prover.Code;
    if k == 0 {
      assert ops[..0] == [] && ops[0..] == ops;
    } else {
      CountSplit(ops[1..], k - 1);
      assert ops[..k][0] == ops[0] && ops[..k][1..] == ops[1..][..k - 1] && ops[1..][k - 1..] == ops[k..];
    }
  }

  lemma {:induction false} ElementsCost(accounts: set<Address>, elements: seq<TxVariant>, ops: seq<Transactions.Tx>)
    requires AllBecome(AllTxs(elements), ops, accounts)
    ensures TotalChunks(accounts, elements) == Completeness.ChunkCount(ops)
    decreases |elements|
  {
    if elements != [] {
      var txs, head, rest := AllTxs(elements), TxsIn(elements[0]), AllTxs(elements[1..]);
      var k := |head|;
      forall i | 0 <= i < k
        ensures Becomes(head[i], ops[..k][i], accounts)
      {
        assert Becomes(txs[i], ops[i], accounts);
      }
      forall i | 0 <= i < |rest|
        ensures Becomes(rest[i], ops[k..][i], accounts)
      {
        assert Becomes(txs[k + i], ops[k + i], accounts);
      }
      hide Becomes, RequiredChunks, Completeness.ChunkCount;
      CountSplit(ops, k);
      ElementCost(accounts, elements[0], ops[..k]);
      ElementsCost(accounts, elements[1..], ops[k..]);
    }
  }

  /** What a proposal becomes takes exactly the chunks it was given: the operations of the proposed transactions,
      with those of the priority operations, fit a block, and with the next waiting element they would not. */
  lemma {:induction false} ProposalFitsTheCircuit(s: State, limits: Limits, priorityChunks: nat, ops: seq<Transactions.Tx>)
    requires priorityChunks <= limits.chunks
    requires AllBecome(AllTxs(NewlyProposed(s, limits, GetBlock(priorityChunks))), ops, s.accountNonces.Keys)
    ensures Completeness.ChunkCount(ops) + priorityChunks <= limits.chunks
    ensures var n := |NewlyProposed(s, limits, GetBlock(priorityChunks))|;
            n < |s.readyTxs| ==> forall more :: AllBecome(TxsIn(s.readyTxs[n]), more, s.accountNonces.Keys) ==>
              Completeness.ChunkCount(ops) + Completeness.ChunkCount(more) + priorityChunks > limits.chunks
  {
    var accounts, proposed := s.accountNonces.Keys, NewlyProposed(s, limits, GetBlock(priorityChunks));
    var n := |proposed|;
    FittingIsLongest(accounts, s.readyTxs, limits.chunks - priorityChunks);
    ElementsCost(accounts, proposed, ops);
    if n < |s.readyTxs| {
      assert s.readyTxs[..n + 1] == proposed + [s.readyTxs[n]];
      TotalAppend(accounts, proposed, s.readyTxs[n]);
      hide AllBecome, Fitting;
      forall more | AllBecome(TxsIn(s.readyTxs[n]), more, accounts)
        ensures RequiredChunks(accounts, s.readyTxs[n]) == Completeness.ChunkCount(more)
      {
        ElementCost(accounts, s.readyTxs[n], more);
      }
    }
  }
}
