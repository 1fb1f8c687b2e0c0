/** The updates of whole blocks, as the server commits them: they lead from the state before a block to the state after
    it and back, and the mempool that is told of them follows the server's accounts. */
module ServerJournal {
  import opened Common
  import opened Params
  import opened Ledger
  import opened Amounts
  import opened Transactions
  import opened ServerState
  import opened ServerCircuit
  import opened ServerBlocks
  import opened ServerUpdates
  import opened ServerValue
  import Completeness
  import Q = Mempool
  import M = MempoolAccounts
  import W = WalletMessages

  // ----- the updates of a block

  function UpdatesOf(s: Snapshot, requests: seq<Request>): Updates
    requires Runs(s, requests)
    decreases |requests|
  {
    if requests == [] then []
    else
      match Perform(s, requests[0])
      case Done(after, _, updates) => updates + UpdatesOf(after, requests[1..])
      case Refused => UpdatesOf(s, requests[1..])
  }

  /** The updates of all operations and then those of the fees. */
  function BlockUpdates(s: Snapshot, requests: seq<Request>, feeAccount: nat): Updates
    requires Runs(s, requests) && feeAccount in AfterAll(s, requests).accounts
  {
    UpdatesOf(s, requests) + FeeUpdates(feeAccount, AfterAll(s, requests).accounts[feeAccount], Collected(s, requests))
  }

  lemma {:induction false} LeadsNowhere(s: Snapshot)
    ensures Leads(s, [], s)
  {
  }

  lemma {:induction false} LeadsOn(s: Snapshot, first: Updates, t: Snapshot, rest: Updates, u: Snapshot)
    requires Leads(s, first, t) && Leads(t, rest, u)
    ensures Leads(s, first + rest, u)
    decreases |first|
  {
    if first == [] {
      assert [] + rest == rest;
    } else {
      hide ApplyUpdate, Undoable;
      var next := ApplyUpdate(s, first[0].0, first[0].1).value;
      LeadsOn(next, first[1..], t, rest, u);
      assert first + rest == [first[0]] + (first[1..] + rest);
      MoreSteps(s, first[0], first[1..] + rest, next, u);
    }
  }

  lemma {:induction false} InsertedTwice(s: Snapshot, id: nat, a: ServerAccount, b: ServerAccount)
    requires a.address == b.address
    ensures Insert(Insert(s, id, a), id, b) == Insert(s, id, b)
  {
  }

  lemma {:induction false} InsertedItself(s: Snapshot, id: nat)
    requires Consistent(s) && id in s.accounts
    ensures Insert(s, id, s.accounts[id]) == s
  {
  }

  lemma {:induction false} FeesLead(s: Snapshot, id: nat, fees: seq<(nat, nat)>)
    requires Consistent(s) && id in s.accounts
    ensures Leads(s, FeeUpdates(id, s.accounts[id], fees), Insert(s, id, WithFees(s.accounts[id], fees)))
    decreases |fees|
  {
    hide Consistent, Leads, Insert, NewBalance, GetBalance, AddBalance;
    var a := s.accounts[id];
    if fees == [] {
      InsertedItself(s, id);
      LeadsNowhere(s);
    } else if fees[0].1 == 0 {
      FeesLead(s, id, fees[1..]);
    } else {
      var (token, amount) := fees[0];
      var b := AddBalance(a, token, amount);
      ReceiverStays(a, token, amount);
      Replaced(s, id, b);
      FeesLead(Insert(s, id, b), id, fees[1..]);
      BalanceLeads(s, id, token, GetBalance(a, token) + amount);
      AddedIs(a, token, amount);
      FeesAreAdded(b, fees[1..], 0);
      InsertedTwice(s, id, b, WithFees(b, fees[1..]));
      LeadsOn(s, [NewBalance(id, a, token, GetBalance(a, token) + amount)], Insert(s, id, b), FeeUpdates(id, b, fees[1..]),
              Insert(s, id, WithFees(b, fees[1..])));
    }
  }

  lemma {:induction false} AddedIs(a: ServerAccount, token: nat, amount: nat)
    ensures AddBalance(a, token, amount) == a.(balances := a.balances[token := GetBalance(a, token) + amount])
  {
  }

  lemma {:induction false} UpdatesMore(s: Snapshot, requests: seq<Request>)
    requires Runs(s, requests) && requests != []
    ensures Perform(s, requests[0]).Done? ==>
              var done := Perform(s, requests[0]);
              Runs(done.after, requests[1..]) && UpdatesOf(s, requests) == done.updates + UpdatesOf(done.after, requests[1..])
    ensures Perform(s, requests[0]).Refused? ==> Runs(s, requests[1..]) && UpdatesOf(s, requests) == UpdatesOf(s, requests[1..])
  {
    hide Consistent, RequestFits, Perform, WithinLimits;
  }

  lemma {:induction false} OwnIsOutside(s: Snapshot, op: Tx)
    requires WithinLimits(s, op)
    ensures !OwnForcedExit(op)
  {
  }

  lemma {:induction false} RunLeads(s: Snapshot, requests: seq<Request>)
    requires Runs(s, requests)
    ensures Leads(s, UpdatesOf(s, requests), AfterAll(s, requests))
    decreases |requests|
  {
    if requests == [] {
      hide Consistent;
      LeadsNowhere(s);
    } else {
      hide *;
      RunsMeans(s, requests);
      UpdatesMore(s, requests);
      var done := Perform(s, requests[0]);
      if done.Done? {
        OwnIsOutside(s, done.op);
        UpdatesLeadIff(s, requests[0]);
        RunLeads(done.after, requests[1..]);
        LeadsOn(s, done.updates, done.after, UpdatesOf(done.after, requests[1..]), AfterAll(s, requests));
      } else {
        RunLeads(s, requests[1..]);
      }
    }
  }

  /** The updates of a block lead from the state before it to the state after it, fees collected, and their reverse leads
      back, to one ledger and one root. */
  lemma {:induction false} BlockUpdatesLead(s: Snapshot, requests: seq<Request>, feeAccount: nat)
    requires Runs(s, requests) && |s.accounts| <= ACCOUNTS && feeAccount in AfterAll(s, requests).accounts
    ensures var us, after := BlockUpdates(s, requests, feeAccount), AfterBlock(s, requests, feeAccount);
            && Leads(s, us, after)
            && var back := ApplyUpdates(after, ReversedAll(us)); back.Some? && Same(back.value, s) && LedgerOf(back.value) == LedgerOf(s)
  {
    hide *;
    var us, after, run := BlockUpdates(s, requests, feeAccount), AfterBlock(s, requests, feeAccount), AfterAll(s, requests);
    RunLeads(s, requests);
    RunStaysConsistent(s, requests);
    FeesLead(run, feeAccount, Collected(s, requests));
    AfterBlockIs(s, requests, feeAccount);
    BlockUpdatesAre(s, requests, feeAccount);
    LeadsOn(s, UpdatesOf(s, requests), run, FeeUpdates(feeAccount, run.accounts[feeAccount], Collected(s, requests)), after);
    LeadsMeans(s, us, after);
    RunIsConsistent(s, requests);
    IsLinked(s);
    ReversedLeadBack(s, us);
    SameIsOneLedger(ApplyUpdates(after, ReversedAll(us)).value, s);
  }

  function Unpaid(fees: seq<(nat, nat)>): nat {
    if fees == [] then 0 else (if fees[0].1 == 0 then 1 else 0) + Unpaid(fees[1..])
  }

  /** Of the fees exactly those that are not empty are recorded, each as a rising balance of the fee account. */
  lemma {:induction false} FeeUpdatesRise(id: nat, a: ServerAccount, fees: seq<(nat, nat)>)
    ensures |FeeUpdates(id, a, fees)| + Unpaid(fees) == |fees|
    ensures forall i :: 0 <= i < |FeeUpdates(id, a, fees)| ==>
              var (owner, u) := FeeUpdates(id, a, fees)[i]; owner == id && u.UpdateBalance? && u.oldBalance < u.newBalance
    decreases |fees|
  {
    if fees != [] {
      hide GetBalance, AddBalance;
      if fees[0].1 == 0 {
        FeeUpdatesRise(id, a, fees[1..]);
      } else {
        FeeUpdatesRise(id, AddBalance(a, fees[0].0, fees[0].1), fees[1..]);
      }
    }
  }

  lemma {:induction false} BlockUpdatesAre(s: Snapshot, requests: seq<Request>, feeAccount: nat)
    requires Runs(s, requests) && feeAccount in AfterAll(s, requests).accounts
    ensures BlockUpdates(s, requests, feeAccount)
         == UpdatesOf(s, requests) + FeeUpdates(feeAccount, AfterAll(s, requests).accounts[feeAccount], Collected(s, requests))
  {
    hide Runs, AfterAll, UpdatesOf, FeeUpdates, Collected;
  }

  // ----- the mempool

  /** An update, and the accounts, as far as the mempool is concerned. */
  function Seen(u: Update): Q.AccountUpdate {
    match u
    case Create(address, nonce) => Q.AccountUpdate.Create(address, nonce)
    case Delete(address, _) => Q.AccountUpdate.Delete(address)
    case UpdateBalance(_, _, _, _, nonce) => Q.AccountUpdate.UpdateBalance(nonce)
    case ChangePubKeyHash(_, _, _, nonce) => Q.AccountUpdate.ChangePubKeyHash(nonce)
  }

  function SeenAll(us: Updates): seq<(nat, Q.AccountUpdate)> {
    if us == [] then [] else [(us[0].0, Seen(us[0].1))] + SeenAll(us[1..])
  }

  function Shown(s: Snapshot): M.Accounts {
    map id | id in s.accounts :: M.Account(s.accounts[id].address, s.accounts[id].nonce)
  }

  lemma {:induction false} HeldIff(s: Snapshot, address: nat)
    requires Linked(s)
    ensures M.Held(Shown(s), address) <==> address in s.ids
  {
    if address in s.ids {
      assert Shown(s)[s.ids[address]].address in M.Addresses(Shown(s));
    }
  }

  /** An update moves what the mempool sees of the accounts as the mempool expects. */
  lemma {:induction false} StepIsSeen(s: Snapshot, id: nat, u: Update)
    requires Linked(s) && Undoable(s, id, u) && ApplyUpdate(s, id, u).Some?
    ensures M.Fits(Shown(s), id, Seen(u)) && M.Move(Shown(s), id, Seen(u)) == Shown(ApplyUpdate(s, id, u).value)
  {
    hide GetBalance, Alike, Linked, M.Held;
    if u.Create? {
      HeldIff(s, u.address);
    }
    assert M.Move(Shown(s), id, Seen(u)) == Shown(ApplyUpdate(s, id, u).value);
  }

  lemma {:induction false} LeadsIsSeen(s: Snapshot, us: Updates, t: Snapshot)
    requires Linked(s) && Leads(s, us, t)
    ensures M.AllFit(Shown(s), SeenAll(us)) && M.MoveAll(Shown(s), SeenAll(us)) == Shown(t)
    decreases |us|
  {
    if us != [] {
      hide Linked, Undoable, ApplyUpdate, M.Fits, M.Move, Seen, Shown;
      var next := ApplyUpdate(s, us[0].0, us[0].1).value;
      StaysLinked(s, us[0].0, us[0].1);
      StepIsSeen(s, us[0].0, us[0].1);
      LeadsIsSeen(next, us[1..], t);
      assert SeenAll(us)[0] == (us[0].0, Seen(us[0].1)) && SeenAll(us)[1..] == SeenAll(us[1..]);
    }
  }

  /** Between two blocks the mempool is asked for transactions and blocks, and then it is told the updates of the block. */
  datatype Turn = Turn(asked: seq<Q.Request>, batch: Batch)

  ghost predicate TurnsFit(s: Snapshot, turns: seq<Turn>)
    decreases |turns|
  {
    turns != [] ==>
    var b := turns[0].batch;
    && (forall i :: 0 <= i < |turns[0].asked| ==> !turns[0].asked[i].UpdateNonces?)
    && CanSeal(s, b.requests, b.noops, b.feeAccount)
    && TurnsFit(AfterBlock(s, b.requests, b.feeAccount), turns[1..])
  }

  function AfterTurns(s: Snapshot, turns: seq<Turn>): Snapshot
    requires TurnsFit(s, turns)
    decreases |turns|
  {
    if turns == [] then s else AfterTurns(AfterBlock(s, turns[0].batch.requests, turns[0].batch.feeAccount), turns[1..])
  }

  /** What the mempool is sent in all turns. */
  function SentIn(s: Snapshot, turns: seq<Turn>): seq<Q.Request>
    requires TurnsFit(s, turns)
    decreases |turns|
  {
    if turns == [] then []
    else
      var b := turns[0].batch;
      (turns[0].asked + [Q.UpdateNonces(SeenAll(BlockUpdates(s, b.requests, b.feeAccount)))])
      + SentIn(AfterBlock(s, b.requests, b.feeAccount), turns[1..])
  }

  lemma {:induction false} FirstTurn(s: Snapshot, turns: seq<Turn>)
    requires TurnsFit(s, turns) && turns != []
    ensures var b := turns[0].batch;
            && CanSeal(s, b.requests, b.noops, b.feeAccount) && Runs(s, b.requests) && b.feeAccount in AfterAll(s, b.requests).accounts
            && (forall i :: 0 <= i < |turns[0].asked| ==> !turns[0].asked[i].UpdateNonces?)
            && TurnsFit(AfterBlock(s, b.requests, b.feeAccount), turns[1..])
            && AfterTurns(s, turns) == AfterTurns(AfterBlock(s, b.requests, b.feeAccount), turns[1..])
            && SentIn(s, turns) == (turns[0].asked + [Q.UpdateNonces(SeenAll(BlockUpdates(s, b.requests, b.feeAccount)))])
                                   + SentIn(AfterBlock(s, b.requests, b.feeAccount), turns[1..])
  {
    hide Runs, Good, LedgerOf, AfterAll, AfterBlock, OpsOf, CanCollect, Collected, Padded, Completeness.ChunkCount, BlockUpdates, SeenAll;
  }

  lemma {:induction false} QuietKeeps(accounts: M.Accounts, asked: seq<Q.Request>, rest: seq<Q.Request>)
    requires forall i :: 0 <= i < |asked| ==> !asked[i].UpdateNonces?
    ensures M.Committed(accounts, asked + rest) == M.Committed(accounts, rest)
    ensures M.RequestsFit(accounts, asked + rest) <==> M.RequestsFit(accounts, rest)
    decreases |asked|
  {
    hide M.MoveAll, M.AllFit;
    if asked == [] {
      assert [] + rest == rest;
    } else {
      assert (asked + rest)[0] == asked[0] && (asked + rest)[1..] == asked[1..] + rest;
      QuietKeeps(accounts, asked[1..], rest);
    }
  }

  lemma {:induction false} ToldMoves(accounts: M.Accounts, us: seq<(nat, Q.AccountUpdate)>, rest: seq<Q.Request>)
    requires M.AllFit(accounts, us)
    ensures M.Committed(accounts, [Q.UpdateNonces(us)] + rest) == M.Committed(M.MoveAll(accounts, us), rest)
    ensures M.RequestsFit(accounts, [Q.UpdateNonces(us)] + rest) <==> M.RequestsFit(M.MoveAll(accounts, us), rest)
  {
    hide M.MoveAll, M.AllFit;
    var all := [Q.UpdateNonces(us)] + rest;
    assert all[0] == Q.UpdateNonces(us) && all[1..] == rest;
  }

  lemma {:induction false} NoTurns(s: Snapshot)
    ensures TurnsFit(s, []) && AfterTurns(s, []) == s && SentIn(s, []) == []
    ensures M.RequestsFit(Shown(s), []) && M.Committed(Shown(s), []) == Shown(s)
  {
    hide Shown;
  }

  lemma {:induction false} Regrouped(asked: seq<Q.Request>, told: Q.Request, rest: seq<Q.Request>)
    ensures (asked + [told]) + rest == asked + ([told] + rest)
  {
  }

  /** What the server commits always fits what the mempool knows, and leads it to the server's accounts. */
  lemma {:induction false} CommitsFit(s: Snapshot, turns: seq<Turn>)
    requires TurnsFit(s, turns) && Consistent(s) && |s.accounts| <= ACCOUNTS
    ensures M.RequestsFit(Shown(s), SentIn(s, turns)) && M.Committed(Shown(s), SentIn(s, turns)) == Shown(AfterTurns(s, turns))
    decreases |turns|
  {
    hide *;
    if turns == [] {
      NoTurns(s);
    } else {
      FirstTurn(s, turns);
      var b := turns[0].batch;
      var us, after := BlockUpdates(s, b.requests, b.feeAccount), AfterBlock(s, b.requests, b.feeAccount);
      BlockUpdatesLead(s, b.requests, b.feeAccount);
      IsLinked(s);
      LeadsIsSeen(s, us, after);
      BlockIsConsistent(s, b.requests, b.feeAccount);
      CommitsFit(after, turns[1..]);
      var rest := SentIn(after, turns[1..]);
      ToldMoves(Shown(s), SeenAll(us), rest);
      QuietKeeps(Shown(s), turns[0].asked, [Q.UpdateNonces(SeenAll(us))] + rest);
      Regrouped(turns[0].asked, Q.UpdateNonces(SeenAll(us)), rest);
    }
  }

  lemma {:induction false} BlockIsConsistent(s: Snapshot, requests: seq<Request>, feeAccount: nat)
    requires Runs(s, requests) && |s.accounts| <= ACCOUNTS && feeAccount in AfterAll(s, requests).accounts
    ensures Consistent(AfterBlock(s, requests, feeAccount)) && |AfterBlock(s, requests, feeAccount).accounts| <= ACCOUNTS
  {
    hide *;
    RunStaysConsistent(s, requests);
    AfterBlockIs(s, requests, feeAccount);
    var run := AfterAll(s, requests);
    FeesAreAdded(run.accounts[feeAccount], Collected(s, requests), 0);
    Replaced(run, feeAccount, WithFees(run.accounts[feeAccount], Collected(s, requests)));
  }

  /** Over any turns the mempool's two maps follow the server's accounts. */
  lemma {:induction false} MempoolFollowsServer(m: Q.State, limits: Q.Limits, s: Snapshot, turns: seq<Turn>)
    requires TurnsFit(s, turns) && Consistent(s) && |s.accounts| <= ACCOUNTS && M.Mirrors(m, Shown(s))
    ensures M.Mirrors(Q.After(m, limits, SentIn(s, turns)), Shown(AfterTurns(s, turns)))
  {
    hide *;
    CommitsFit(s, turns);
    M.RunMirrors(m, Shown(s), limits, SentIn(s, turns));
  }

  // ----- locked accounts

  /** An account without a key has used no nonce. */
  predicate LockedUnused(s: Snapshot) {
    forall id :: id in s.accounts && s.accounts[id].pubKeyHash == 0 ==> s.accounts[id].nonce == 0
  }

  /** What the mempool queues of a wallet's transaction: a forced exit goes under the address of its target. */
  function Queued(w: W.WalletTx): Q.ZkSyncTx {
    match w
    case TransferTx(_, sender, receiver, _, _, _, nonce) => Q.ZkSyncTx.Transfer(sender, nonce, receiver)
    case WithdrawTx(_, sender, _, _, _, _, nonce) => Q.ZkSyncTx.Withdraw(sender, nonce)
    case ChangePubKeyTx(_, account, _, _, _, nonce) => Q.ZkSyncTx.ChangePubKey(account, nonce)
    case ForcedExitTx(_, target, _, _, nonce) => Q.ZkSyncTx.ForcedExit(target, nonce)
  }

  predicate KeyedOrUnused(a: ServerAccount) {
    a.pubKeyHash == 0 ==> a.nonce == 0
  }

  lemma {:induction false} InsertKeepsLocked(s: Snapshot, id: nat, a: ServerAccount)
    requires LockedUnused(s) && KeyedOrUnused(a)
    ensures LockedUnused(Insert(s, id, a))
  {
  }

  lemma {:induction false} KeysStay(a: ServerAccount, token: nat, amount: nat)
    ensures AddBalance(a, token, amount).pubKeyHash == a.pubKeyHash && AddBalance(a, token, amount).nonce == a.nonce
    ensures amount <= GetBalance(a, token) ==>
              && SubBalance(a, token, amount).pubKeyHash == a.pubKeyHash && SubBalance(a, token, amount).nonce == a.nonce
              && Payer(a, token, amount).pubKeyHash == a.pubKeyHash
  {
  }

  /** Whose key signed: the payer has it, or gets it. */
  lemma {:induction false} SignerHasKey(s: Snapshot, r: Request)
    requires Consistent(s) && r.SignedRequest? && Perform(s, r).Done?
    ensures var op := Perform(s, r).op;
            && NamesAccounts(s, op)
            && (op.Transfer? || op.TransferToNew? ==> s.accounts[op.from].pubKeyHash != 0)
            && (op.Withdraw? ==> s.accounts[op.account].pubKeyHash != 0)
            && (op.ForcedExit? ==> r.signer == Some(s.accounts[op.initiator].pubKeyHash))
            && (op.ChangePubKey? ==> r.w.ChangePubKeyTx? && r.signer == Some(r.w.newPkHash))
  {
    PerformedNames(s, r);
    hide PackedNumber, Perform, GetBalance;
  }

  lemma {:induction false} IsLocked(s: Snapshot, id: nat)
    requires LockedUnused(s) && id in s.accounts
    ensures KeyedOrUnused(s.accounts[id])
  {
  }

  lemma {:induction false} TransferKeepsLocked(s: Snapshot, op: Tx, w: W.WalletTx)
    requires op.Transfer? && w.TransferTx? && op.from in s.accounts && op.to in s.accounts && ApplyTransfer(s, op, w).Done?
    requires LockedUnused(s) && s.accounts[op.from].pubKeyHash != 0
    ensures LockedUnused(ApplyTransfer(s, op, w).after)
  {
    hide LockedUnused, Insert, Payer, AddBalance, GetBalance, Payment, NewBalance;
    var a, b := s.accounts[op.from], s.accounts[op.to];
    SpendsLess(a, w);
    IsLocked(s, op.to);
    KeysStay(a, w.token, w.fee);
    KeysStay(a, w.token, w.amount + w.fee);
    KeysStay(b, w.token, w.amount);
    if op.from == op.to {
      InsertKeepsLocked(s, op.from, Payer(a, w.token, w.fee));
    } else {
      var x := Payer(a, w.token, w.amount + w.fee);
      InsertKeepsLocked(s, op.from, x);
      InsertKeepsLocked(Insert(s, op.from, x), op.to, AddBalance(b, w.token, w.amount));
    }
  }

  lemma {:induction false} TransferToNewKeepsLocked(s: Snapshot, op: Tx, w: W.WalletTx)
    requires op.TransferToNew? && w.TransferTx? && op.from in s.accounts && ApplyTransferToNew(s, op, w).Done?
    requires LockedUnused(s) && s.accounts[op.from].pubKeyHash != 0
    ensures LockedUnused(ApplyTransferToNew(s, op, w).after)
  {
    hide LockedUnused, Insert, Payer, AddBalance, GetBalance, Payment, NewBalance;
    var a := s.accounts[op.from];
    KeysStay(a, w.token, w.amount + w.fee);
    KeysStay(NewAccount(w.toAddress), w.token, w.amount);
    var x := Payer(a, w.token, w.amount + w.fee);
    InsertKeepsLocked(s, op.from, x);
    InsertKeepsLocked(Insert(s, op.from, x), op.to, AddBalance(NewAccount(w.toAddress), w.token, w.amount));
  }

  lemma {:induction false} ForcedExitKeepsLocked(s: Snapshot, op: Tx, w: W.WalletTx)
    requires op.ForcedExit? && w.ForcedExitTx? && op.initiator in s.accounts && op.target in s.accounts && ApplyForcedExit(s, op, w).Done?
    requires LockedUnused(s) && s.accounts[op.initiator].pubKeyHash != 0
    ensures LockedUnused(ApplyForcedExit(s, op, w).after)
  {
    hide LockedUnused, Insert, Payer, SubBalance, GetBalance, Payment, NewBalance;
    var a, b := s.accounts[op.initiator], s.accounts[op.target];
    KeysStay(a, w.token, w.fee);
    KeysStay(b, w.token, op.amount);
    IsLocked(s, op.target);
    InsertKeepsLocked(s, op.initiator, Payer(a, w.token, w.fee));
    InsertKeepsLocked(Insert(s, op.initiator, Payer(a, w.token, w.fee)), op.target, SubBalance(b, w.token, op.amount));
  }

  lemma {:induction false} OneSidedKeepsLocked(s: Snapshot, op: Tx, w: W.WalletTx)
    requires LockedUnused(s) && (op.Withdraw? || op.ChangePubKey?) && op.account in s.accounts
    requires op.Withdraw? ==> w.WithdrawTx? && ApplyWithdraw(s, op, w).Done? && s.accounts[op.account].pubKeyHash != 0
    requires op.ChangePubKey? ==> w.ChangePubKeyTx? && ApplyChangePubKey(s, op, w).Done? && w.newPkHash != 0
    ensures LockedUnused(if op.Withdraw? then ApplyWithdraw(s, op, w).after else ApplyChangePubKey(s, op, w).after)
  {
    hide LockedUnused, Insert, Payer, GetBalance, Payment;
    var a := s.accounts[op.account];
    if op.Withdraw? {
      KeysStay(a, w.token, w.amount + w.fee);
      InsertKeepsLocked(s, op.account, Payer(a, w.token, w.amount + w.fee));
    } else {
      InsertKeepsLocked(s, op.account, Payer(a, w.token, w.fee).(pubKeyHash := w.newPkHash));
    }
  }

  lemma {:induction false} SignedKeepsLocked(s: Snapshot, r: Request)
    requires Consistent(s) && LockedUnused(s) && r.SignedRequest? && r.signer != Some(0) && Perform(s, r).Done?
    ensures LockedUnused(Perform(s, r).after)
  {
    hide *;
    SignerHasKey(s, r);
    PerformMeans(s, r);
    var op, w := Perform(s, r).op, r.w;
    NamesMeans(s, op);
    HasNumbersKind(op, w);
    if op.Transfer? {
      TransferKeepsLocked(s, op, w);
    } else if op.TransferToNew? {
      TransferToNewKeepsLocked(s, op, w);
    } else if op.ForcedExit? {
      ForcedExitKeepsLocked(s, op, w);
    } else {
      OneSidedKeepsLocked(s, op, w);
    }
  }

  lemma {:induction false} RequestKeepsLocked(s: Snapshot, r: Request)
    requires Consistent(s) && LockedUnused(s) && !r.SignedRequest? && Perform(s, r).Done?
    ensures LockedUnused(Perform(s, r).after)
  {
    hide Consistent, Perform, LockedUnused, Insert, AddBalance, SubBalance, GetBalance;
    PerformMeans(s, r);
    CreatedRequest(s, r);
    var op := Perform(s, r).op;
    var a := if op.account in s.accounts then s.accounts[op.account] else NewAccount(if op.Deposit? then op.address else 0);
    if op.account in s.accounts {
      IsLocked(s, op.account);
    }
    KeysStay(a, op.token, op.amount);
    if op.Deposit? {
      InsertKeepsLocked(s, op.account, AddBalance(a, op.token, op.amount));
    } else if op.account in s.accounts && a.address == op.ethAddress {
      InsertKeepsLocked(s, op.account, SubBalance(a, op.token, op.amount));
    }
  }

  /** No signature comes from a key whose hash is zero. */
  predicate NoZeroKey(requests: seq<Request>) {
    forall i :: 0 <= i < |requests| && requests[i].SignedRequest? ==> requests[i].signer != Some(0)
  }

  lemma {:induction false} RunKeepsLocked(s: Snapshot, requests: seq<Request>)
    requires Runs(s, requests) && LockedUnused(s) && NoZeroKey(requests)
    ensures LockedUnused(AfterAll(s, requests))
    decreases |requests|
  {
    if requests == [] {
      hide Consistent;
    } else {
      RestHasNoZeroKey(requests);
      hide *;
      RunsMeans(s, requests);
      var r := requests[0];
      if Perform(s, r).Done? {
        if r.SignedRequest? {
          SignedKeepsLocked(s, r);
        } else {
          RequestKeepsLocked(s, r);
        }
        RunKeepsLocked(Perform(s, r).after, requests[1..]);
      } else {
        RunKeepsLocked(s, requests[1..]);
      }
    }
  }

  lemma {:induction false} RestHasNoZeroKey(requests: seq<Request>)
    requires NoZeroKey(requests) && requests != []
    ensures NoZeroKey(requests[1..]) && (requests[0].SignedRequest? ==> requests[0].signer != Some(0))
  {
  }

  lemma {:induction false} BlockKeepsLocked(s: Snapshot, requests: seq<Request>, feeAccount: nat)
    requires Runs(s, requests) && LockedUnused(s) && NoZeroKey(requests) && feeAccount in AfterAll(s, requests).accounts
    ensures LockedUnused(AfterBlock(s, requests, feeAccount))
  {
    hide *;
    RunKeepsLocked(s, requests);
    AfterBlockIs(s, requests, feeAccount);
    var run := AfterAll(s, requests);
    IsLocked(run, feeAccount);
    FeesAreAdded(run.accounts[feeAccount], Collected(s, requests), 0);
    KeyedIs(run.accounts[feeAccount], WithFees(run.accounts[feeAccount], Collected(s, requests)));
    InsertKeepsLocked(run, feeAccount, WithFees(run.accounts[feeAccount], Collected(s, requests)));
  }

  lemma {:induction false} KeyedIs(a: ServerAccount, b: ServerAccount)
    requires KeyedOrUnused(a) && a.nonce == b.nonce && a.pubKeyHash == b.pubKeyHash
    ensures KeyedOrUnused(b)
  {
  }

  predicate NoZeroKeys(turns: seq<Turn>) {
    forall i :: 0 <= i < |turns| ==> NoZeroKey(turns[i].batch.requests)
  }

  lemma {:induction false} TurnsKeepLocked(s: Snapshot, turns: seq<Turn>)
    requires TurnsFit(s, turns) && LockedUnused(s) && NoZeroKeys(turns) && Consistent(s) && |s.accounts| <= ACCOUNTS
    ensures LockedUnused(AfterTurns(s, turns)) && Consistent(AfterTurns(s, turns))
    decreases |turns|
  {
    if turns == [] {
      hide Consistent, LockedUnused;
    } else {
      assert NoZeroKey(turns[0].batch.requests) && NoZeroKeys(turns[1..]);
      hide *;
      FirstTurn(s, turns);
      var b := turns[0].batch;
      BlockKeepsLocked(s, b.requests, b.feeAccount);
      BlockIsConsistent(s, b.requests, b.feeAccount);
      TurnsKeepLocked(AfterBlock(s, b.requests, b.feeAccount), turns[1..]);
    }
  }

  /** What the server would execute names an account whose nonce in the state is not above its own. */
  lemma {:induction false} ExecutableIsNotUsed(s: Snapshot, r: Request)
    requires Consistent(s) && LockedUnused(s) && r.SignedRequest? && Perform(s, r).Done?
    ensures M.NotUsed(Shown(s), Queued(r.w))
  {
    hide Consistent, Perform, LockedUnused, GetBalance, HasNumbers, Payer, Insert, AddBalance, SubBalance;
    PerformMeans(s, r);
    var op, w := Perform(s, r).op, r.w;
    NamesMeans(s, op);
    HasNumbersKind(op, w);
    QueuedNames(s, r);
    if op.ForcedExit? {
      IsLocked(s, op.target);
    }
    var id := if op.ForcedExit? then op.target else FirstAccount(op);
    assert s.accounts[id].nonce <= Queued(w).nonce;
    OnlyOneHas(s, id);
  }

  lemma {:induction false} OnlyOneHas(s: Snapshot, id: nat)
    requires Consistent(s) && id in s.accounts
    ensures forall x :: x in s.accounts && s.accounts[x].address == s.accounts[id].address ==> x == id
  {
  }

  lemma {:induction false} QueuedNames(s: Snapshot, r: Request)
    requires Consistent(s) && r.SignedRequest? && CreateOp(s, r).Op?
    ensures var op := CreateOp(s, r).op;
            && NamesAccounts(s, op) && !op.Noop?
            && (op.ForcedExit? ==> r.w.ForcedExitTx? && s.accounts[op.target].address == Queued(r.w).account && s.accounts[op.target].pubKeyHash == 0)
            && (!op.ForcedExit? ==> s.accounts[FirstAccount(op)].address == Queued(r.w).account)
  {
    hide PackedNumber, GetBalance;
  }

  /** From genesis on, over any turns, with the mempool told of every block: it never turns away for its nonce what the
      server would execute, and it accepts a stored transaction exactly when no nonce in the server's accounts is above
      it. A forced exit of a locked account always passes. */
  lemma {:induction false} NothingExecutableIsTurnedAway(feeAddress: nat, m: Q.State, limits: Q.Limits, turns: seq<Turn>)
    requires TurnsFit(Genesis(feeAddress), turns) && NoZeroKeys(turns) && M.Mirrors(m, Shown(Genesis(feeAddress)))
    ensures var s, now := AfterTurns(Genesis(feeAddress), turns), Q.After(m, limits, SentIn(Genesis(feeAddress), turns));
            && Consistent(s)
            && (forall tx, reply :: Q.TxAnswer(now, tx, reply).Added? <==> reply.Stored? && M.NotUsed(Shown(s), tx))
            && (forall r: Request, reply: Q.DbReply :: r.SignedRequest? && Perform(s, r).Done? && reply.Stored? ==> Q.TxAnswer(now, Queued(r.w), reply).Added?)
            && (forall id, nonce, reply: Q.DbReply :: id in s.accounts && s.accounts[id].pubKeyHash == 0 && reply.Stored? ==>
                  Q.TxAnswer(now, Q.ZkSyncTx.ForcedExit(s.accounts[id].address, nonce), reply).Added?)
  {
    hide *;
    var start := Genesis(feeAddress);
    GenesisIsEmpty(feeAddress, 0);
    GenesisIsUnused(feeAddress);
    CommitsFit(start, turns);
    M.AcceptsUnusedNonces(m, Shown(start), limits, SentIn(start, turns));
    TurnsKeepLocked(start, turns);
    var s, now := AfterTurns(start, turns), Q.After(m, limits, SentIn(start, turns));
    forall r: Request, reply: Q.DbReply | r.SignedRequest? && Perform(s, r).Done? && reply.Stored?
      ensures Q.TxAnswer(now, Queued(r.w), reply).Added?
    {
      ExecutableIsNotUsed(s, r);
    }
    forall id, nonce, reply: Q.DbReply | id in s.accounts && s.accounts[id].pubKeyHash == 0 && reply.Stored?
      ensures Q.TxAnswer(now, Q.ZkSyncTx.ForcedExit(s.accounts[id].address, nonce), reply).Added?
    {
      LockedIsNotUsed(s, id, nonce);
    }
  }

  lemma {:induction false} GenesisIsUnused(feeAddress: nat)
    ensures LockedUnused(Genesis(feeAddress)) && 1 <= ACCOUNTS
  {
  }

  lemma {:induction false} LockedIsNotUsed(s: Snapshot, id: nat, nonce: nat)
    requires Consistent(s) && LockedUnused(s) && id in s.accounts && s.accounts[id].pubKeyHash == 0
    ensures M.NotUsed(Shown(s), Q.ZkSyncTx.ForcedExit(s.accounts[id].address, nonce))
  {
    OnlyOneHas(s, id);
    hide Consistent;
  }

  lemma {:induction false} MirrorKnows(m: Q.State, s: Snapshot)
    requires Consistent(s) && M.Mirrors(m, Shown(s))
    ensures m.accountNonces.Keys == s.ids.Keys
  {
    IsLinked(s);
    assert forall address :: M.Held(Shown(s), address) <==> address in s.ids by {
      forall address
        ensures M.Held(Shown(s), address) <==> address in s.ids
      {
        HeldIff(s, address);
      }
    }
    hide Consistent, Linked, Shown;
  }

  lemma {:induction false} CreatedBecomes(s: Snapshot, r: Request)
    requires Consistent(s) && r.SignedRequest? && CreateOp(s, r).Op?
    ensures M.Becomes(Queued(r.w), CreateOp(s, r).op, s.ids.Keys)
  {
    hide PackedNumber, GetBalance;
  }

  /** What the mempool counts for a waiting transaction are the chunks of the operation that the server makes of it, as
      long as the mempool follows the server. */
  lemma {:induction false} QueuedCostsItsOperation(m: Q.State, s: Snapshot, r: Request)
    requires Consistent(s) && M.Mirrors(m, Shown(s)) && r.SignedRequest? && Perform(s, r).Done?
    ensures Q.ChunksForTx(m.accountNonces.Keys, Queued(r.w)) == Completeness.ChunkCount([Perform(s, r).op])
  {
    hide *;
    MirrorKnows(m, s);
    PerformedNames(s, r);
    CreatedBecomes(s, r);
    var op := Perform(s, r).op;
    OneBecomes(Queued(r.w), op, s.ids.Keys);
    M.BatchCost(s.ids.Keys, [Queued(r.w)], [op]);
    OneCosts(s.ids.Keys, Queued(r.w));
  }

  lemma {:induction false} OneBecomes(tx: Q.ZkSyncTx, op: Tx, accounts: set<nat>)
    requires M.Becomes(tx, op, accounts)
    ensures M.AllBecome([tx], [op], accounts)
  {
    hide M.Becomes;
  }

  lemma {:induction false} OneCosts(accounts: set<nat>, tx: Q.ZkSyncTx)
    ensures Q.ChunksForBatch(accounts, [tx]) == Q.ChunksForTx(accounts, tx)
  {
    hide Q.ChunksForTx;
    assert Q.ChunksForBatch(accounts, [tx][1..]) == 0;
  }
}
