/** The updates that the server records: applied to the state before an operation they lead to the state after it, and
    reversed they lead back. A batch that fails is rolled back with them. */
module ServerUpdates {
  import opened Common
  import opened Params
  import opened Ledger
  import opened Amounts
  import opened Transactions
  import opened ServerState
  import opened ServerCircuit
  import W = WalletMessages

  // ----- updates

  /** `reversed_update` */
  function Reversed(u: Update): Update {
    match u
    case Create(address, nonce) => Delete(address, nonce)
    case Delete(address, nonce) => Create(address, nonce)
    case UpdateBalance(token, before, after, was, next) => UpdateBalance(token, after, before, next, was)
    case ChangePubKeyHash(before, after, was, next) => ChangePubKeyHash(after, before, next, was)
  }

  function ReversedAll(us: Updates): Updates {
    if us == [] then [] else ReversedAll(us[1..]) + [(us[0].0, Reversed(us[0].1))]
  }

  lemma {:induction false} ReversedAllAt(us: Updates, i: nat)
    requires i < |us|
    ensures |ReversedAll(us)| == |us| && ReversedAll(us)[i] == (us[|us| - 1 - i].0, Reversed(us[|us| - 1 - i].1))
  {
    if |us| > 1 {
      ReversedAllAt(us[1..], if i < |us| - 1 then i else 0);
    }
  }

  /** `reverse_updates`: the order is reversed, then each update is, where it stands. */
  method ReverseUpdates(us: Updates) returns (r: Updates)
    ensures r == ReversedAll(us)
  {
    r := seq(|us|, i requires 0 <= i < |us| => us[|us| - 1 - i]);
    for i := 0 to |us|
      invariant |r| == |us|
      invariant forall j :: 0 <= j < |us| ==> r[j] == (us[|us| - 1 - j].0, if j < i then Reversed(us[|us| - 1 - j].1) else us[|us| - 1 - j].1)
    {
      r := r[i := (r[i].0, Reversed(r[i].1))];
    }
    forall j | 0 <= j < |us|
      ensures |ReversedAll(us)| == |us| && r[j] == ReversedAll(us)[j]
    {
      ReversedAllAt(us, j);
    }
    assert us == [] ==> ReversedAll(us) == [];
  }

  function Remove(s: Snapshot, id: nat): Snapshot
    requires id in s.accounts
  {
    Snapshot(s.accounts - {id}, s.ids - {s.accounts[id].address})
  }

  /** `set_balance`, `pub_key_hash` and `nonce` of an account that is there */
  function Changed(a: ServerAccount, u: Update): ServerAccount
    requires u.UpdateBalance? || u.ChangePubKeyHash?
  {
    if u.UpdateBalance? then a.(balances := a.balances[u.token := u.newBalance], nonce := u.newNonce)
    else a.(pubKeyHash := u.newKey, nonce := u.newNonce)
  }

  /** One step of `apply_account_updates`; without a result an assertion failed. */
  function ApplyUpdate(s: Snapshot, id: nat, u: Update): Option<Snapshot> {
    match u
    case Create(address, nonce) =>
      if address in s.ids then None else Some(Insert(s, id, NewAccount(address).(nonce := nonce)))
    case Delete(address, nonce) =>
      if id !in s.accounts || s.accounts[id].address != address || s.accounts[id].nonce != nonce then None else Some(Remove(s, id))
    case UpdateBalance(token, before, _, was, _) =>
      if id !in s.accounts || GetBalance(s.accounts[id], token) != before || s.accounts[id].nonce != was then None
      else Some(Insert(s, id, Changed(s.accounts[id], u)))
    case ChangePubKeyHash(before, _, was, _) =>
      if id !in s.accounts || s.accounts[id].pubKeyHash != before || s.accounts[id].nonce != was then None
      else Some(Insert(s, id, Changed(s.accounts[id], u)))
  }

  function ApplyUpdates(s: Snapshot, us: Updates): Option<Snapshot>
    decreases |us|
  {
    if us == [] then Some(s)
    else
      var next := ApplyUpdate(s, us[0].0, us[0].1);
      if next.None? then None else ApplyUpdates(next.value, us[1..])
  }

  lemma {:induction false} ApplyInTurn(s: Snapshot, first: Updates, rest: Updates)
    ensures ApplyUpdates(s, first + rest) ==
              if ApplyUpdates(s, first).None? then None else ApplyUpdates(ApplyUpdates(s, first).value, rest)
    decreases |first|
  {
    hide ApplyUpdate;
    if first == [] {
      assert [] + rest == rest;
    } else {
      assert (first + rest)[0] == first[0] && (first + rest)[1..] == first[1..] + rest;
      var next := ApplyUpdate(s, first[0].0, first[0].1);
      if next.Some? {
        ApplyInTurn(next.value, first[1..], rest);
      }
    }
  }

  /** What the update takes for granted: the old values it names, or for a new account that the address has none. */
  predicate Expects(s: Snapshot, id: nat, u: Update) {
    match u
    case Create(address, _) => address !in s.ids
    case Delete(address, nonce) => id in s.accounts && s.accounts[id].address == address && s.accounts[id].nonce == nonce
    case UpdateBalance(token, before, _, was, _) =>
      id in s.accounts && GetBalance(s.accounts[id], token) == before && s.accounts[id].nonce == was
    case ChangePubKeyHash(before, _, was, _) => id in s.accounts && s.accounts[id].pubKeyHash == before && s.accounts[id].nonce == was
  }

  /** An update applies exactly where what it takes for granted holds, and afterwards its reverse applies. */
  lemma {:induction false} AppliesIff(s: Snapshot, id: nat, u: Update)
    ensures ApplyUpdate(s, id, u).Some? <==> Expects(s, id, u)
    ensures ApplyUpdate(s, id, u).Some? && (u.Delete? ==> s.accounts[id].address in s.ids) ==>
              Expects(ApplyUpdate(s, id, u).value, id, Reversed(u))
    ensures Reversed(Reversed(u)) == u
  {
  }

  // ----- equal states

  /** Equal but for zero balances that are kept as zeros. */
  ghost predicate Alike(a: ServerAccount, b: ServerAccount) {
    && a.pubKeyHash == b.pubKeyHash && a.address == b.address && a.nonce == b.nonce
    && (forall t :: GetBalance(a, t) == GetBalance(b, t))
  }

  ghost predicate Same(s: Snapshot, t: Snapshot) {
    && s.accounts.Keys == t.accounts.Keys && s.ids == t.ids
    && (forall id :: id in s.accounts ==> Alike(s.accounts[id], t.accounts[id]))
  }

  /** Equal states have one ledger, and so one root. */
  lemma {:induction false} SameIsOneLedger(s: Snapshot, t: Snapshot)
    requires Same(s, t)
    ensures LedgerOf(s) == LedgerOf(t)
  {
    forall i | 0 <= i < ACCOUNTS
      ensures LedgerOf(s)[i] == LedgerOf(t)[i]
    {
      if i in s.accounts {
        OneEntry(s.accounts[i], t.accounts[i]);
      }
    }
  }

  lemma {:induction false} OneEntry(a: ServerAccount, b: ServerAccount)
    requires Alike(a, b)
    ensures Entry(a) == Entry(b)
  {
    assert Entry(a).balances == Entry(b).balances;
  }

  lemma {:induction false} SameIsTransitive(s: Snapshot, t: Snapshot, u: Snapshot)
    requires Same(s, t) && Same(t, u)
    ensures Same(s, u)
  {
    hide GetBalance;
  }

  lemma {:induction false} SameIsConsistent(s: Snapshot, t: Snapshot)
    requires Consistent(s) && Same(s, t)
    ensures Consistent(t)
  {
    hide GetBalance;
    assert |s.accounts| == |s.accounts.Keys| && |t.accounts| == |t.accounts.Keys|;
    assert forall id :: id in s.accounts ==> Alike(s.accounts[id], t.accounts[id]);
  }

  lemma {:induction false} InsertsAlike(s: Snapshot, t: Snapshot, id: nat, a: ServerAccount, b: ServerAccount)
    requires Same(s, t) && Alike(a, b)
    ensures Same(Insert(s, id, a), Insert(t, id, b))
  {
    hide GetBalance;
  }

  lemma {:induction false} ChangedAlike(a: ServerAccount, b: ServerAccount, u: Update)
    requires Alike(a, b) && (u.UpdateBalance? || u.ChangePubKeyHash?)
    ensures Alike(Changed(a, u), Changed(b, u))
  {
    forall t
      ensures GetBalance(Changed(a, u), t) == GetBalance(Changed(b, u), t)
    {
      assert GetBalance(a, t) == GetBalance(b, t);
    }
  }

  /** An update does the same to equal states. */
  lemma {:induction false} SameStep(s: Snapshot, t: Snapshot, id: nat, u: Update)
    requires Same(s, t)
    ensures ApplyUpdate(s, id, u).Some? <==> ApplyUpdate(t, id, u).Some?
    ensures ApplyUpdate(s, id, u).Some? ==> Same(ApplyUpdate(s, id, u).value, ApplyUpdate(t, id, u).value)
  {
    hide Insert;
    if id in s.accounts && (u.UpdateBalance? || u.ChangePubKeyHash?) {
      var a, b := s.accounts[id], t.accounts[id];
      assert Alike(a, b);
      ChangedAlike(a, b, u);
      InsertsAlike(s, t, id, Changed(a, u), Changed(b, u));
    }
    if u.Create? {
      var a := NewAccount(u.address).(nonce := u.nonce);
      InsertsAlike(s, t, id, a, a);
    }
  }

  lemma {:induction false} SameSteps(s: Snapshot, t: Snapshot, us: Updates)
    requires Same(s, t)
    ensures ApplyUpdates(s, us).Some? <==> ApplyUpdates(t, us).Some?
    ensures ApplyUpdates(s, us).Some? ==> Same(ApplyUpdates(s, us).value, ApplyUpdates(t, us).value)
    decreases |us|
  {
    hide ApplyUpdate, Same;
    if us != [] {
      SameStep(s, t, us[0].0, us[0].1);
      if ApplyUpdate(s, us[0].0, us[0].1).Some? {
        SameSteps(ApplyUpdate(s, us[0].0, us[0].1).value, ApplyUpdate(t, us[0].0, us[0].1).value, us[1..]);
      }
    }
  }

  // ----- going back

  /** Every address leads to the account that has it. */
  ghost predicate Linked(s: Snapshot) {
    && (forall id :: id in s.accounts ==> s.accounts[id].address in s.ids && s.ids[s.accounts[id].address] == id)
    && (forall address :: address in s.ids ==> s.ids[address] in s.accounts && s.accounts[s.ids[address]].address == address)
  }

  /** A created account was not there, and a deleted one holds nothing that its update does not name. */
  ghost predicate Undoable(s: Snapshot, id: nat, u: Update) {
    && (u.Create? ==> id !in s.accounts)
    && (u.Delete? && id in s.accounts ==> Alike(s.accounts[id], NewAccount(u.address).(nonce := u.nonce)))
  }

  ghost predicate AllUndoable(s: Snapshot, us: Updates)
    decreases |us|
  {
    us == [] ||
    var next := ApplyUpdate(s, us[0].0, us[0].1);
    Undoable(s, us[0].0, us[0].1) && next.Some? && AllUndoable(next.value, us[1..])
  }

  lemma {:induction false} StaysLinked(s: Snapshot, id: nat, u: Update)
    requires Linked(s) && Undoable(s, id, u) && ApplyUpdate(s, id, u).Some?
    ensures Linked(ApplyUpdate(s, id, u).value)
  {
    hide GetBalance, Alike;
  }

  /** The reversed update leads back to the state before. */
  ghost predicate LeadsBack(s: Snapshot, id: nat, u: Update) {
    ApplyUpdate(s, id, u).Some? &&
    var back := ApplyUpdate(ApplyUpdate(s, id, u).value, id, Reversed(u));
    back.Some? && Same(back.value, s)
  }

  lemma {:induction false} CreationLeadsBackIff(s: Snapshot, id: nat, u: Update)
    requires u.Create? && Linked(s) && ApplyUpdate(s, id, u).Some?
    ensures LeadsBack(s, id, u) <==> id !in s.accounts
  {
    hide Alike;
    var t := Insert(s, id, NewAccount(u.address).(nonce := u.nonce));
    assert ApplyUpdate(t, id, Reversed(u)) == Some(Remove(t, id));
    if id !in s.accounts {
      assert Remove(t, id).accounts == s.accounts && Remove(t, id).ids == s.ids;
      SameItself(s);
    }
  }

  lemma {:induction false} DeletionLeadsBackIff(s: Snapshot, id: nat, u: Update)
    requires u.Delete? && Linked(s) && ApplyUpdate(s, id, u).Some?
    ensures id in s.accounts && (LeadsBack(s, id, u) <==> Alike(NewAccount(u.address).(nonce := u.nonce), s.accounts[id]))
  {
    hide Alike;
    var t, a := Remove(s, id), NewAccount(u.address).(nonce := u.nonce);
    assert ApplyUpdate(t, id, Reversed(u)) == Some(Insert(t, id, a));
    assert Insert(t, id, a).accounts == s.accounts[id := a] && Insert(t, id, a).ids == s.ids;
    AlikeSelves(s);
  }

  lemma {:induction false} AlikeSelves(s: Snapshot)
    ensures forall id :: id in s.accounts ==> Alike(s.accounts[id], s.accounts[id])
  {
  }

  lemma {:induction false} ChangeLeadsBack(s: Snapshot, id: nat, u: Update)
    requires (u.UpdateBalance? || u.ChangePubKeyHash?) && Linked(s) && ApplyUpdate(s, id, u).Some?
    ensures LeadsBack(s, id, u)
  {
    hide Alike;
    var a := s.accounts[id];
    var t := Insert(s, id, Changed(a, u));
    ChangedBack(a, u);
    assert ApplyUpdate(t, id, Reversed(u)) == Some(Insert(t, id, Changed(Changed(a, u), Reversed(u))));
    assert Insert(t, id, Changed(Changed(a, u), Reversed(u))).accounts == s.accounts[id := Changed(Changed(a, u), Reversed(u))];
    assert Insert(t, id, Changed(Changed(a, u), Reversed(u))).ids == s.ids;
    AlikeSelves(s);
  }

  lemma {:induction false} ChangedBack(a: ServerAccount, u: Update)
    requires u.UpdateBalance? ==> GetBalance(a, u.token) == u.oldBalance && a.nonce == u.oldNonce
    requires u.ChangePubKeyHash? ==> a.pubKeyHash == u.oldKey && a.nonce == u.oldNonce
    requires u.UpdateBalance? || u.ChangePubKeyHash?
    ensures Alike(Changed(Changed(a, u), Reversed(u)), a) && Changed(a, u).nonce == u.newNonce && Changed(a, u).address == a.address
    ensures u.UpdateBalance? ==> GetBalance(Changed(a, u), u.token) == u.newBalance
    ensures u.ChangePubKeyHash? ==> Changed(a, u).pubKeyHash == u.newKey
  {
  }

  /** The reversed update leads back exactly when the update can be undone. */
  lemma {:induction false} ReversedLeadsBackIff(s: Snapshot, id: nat, u: Update)
    requires Linked(s) && ApplyUpdate(s, id, u).Some?
    ensures LeadsBack(s, id, u) <==> Undoable(s, id, u)
  {
    hide LeadsBack, Linked;
    if u.Create? {
      CreationLeadsBackIff(s, id, u);
    } else if u.Delete? {
      DeletionLeadsBackIff(s, id, u);
    } else {
      ChangeLeadsBack(s, id, u);
    }
  }

  lemma {:induction false} LeadsBackMeans(s: Snapshot, id: nat, u: Update)
    requires LeadsBack(s, id, u) && ApplyUpdate(s, id, u).Some?
    ensures var back := ApplyUpdate(ApplyUpdate(s, id, u).value, id, Reversed(u)); back.Some? && Same(back.value, s)
  {
    hide ApplyUpdate, Same;
  }

  /** Reversed updates undo a list of updates. */
  lemma {:induction false} ReversedLeadBack(s: Snapshot, us: Updates)
    requires Linked(s) && AllUndoable(s, us)
    ensures ApplyUpdates(s, us).Some?
    ensures var back := ApplyUpdates(ApplyUpdates(s, us).value, ReversedAll(us)); back.Some? && Same(back.value, s)
    decreases |us|
  {
    if us == [] {
    } else {
      hide Linked, Undoable, ApplyUpdate, Same, Reversed, LeadsBack;
      var next := ApplyUpdate(s, us[0].0, us[0].1).value;
      StaysLinked(s, us[0].0, us[0].1);
      ReversedLeadBack(next, us[1..]);
      var last := [(us[0].0, Reversed(us[0].1))];
      var t := ApplyUpdates(s, us).value;
      ApplyInTurn(t, ReversedAll(us[1..]), last);
      var x := ApplyUpdates(t, ReversedAll(us[1..])).value;
      SameStep(x, next, us[0].0, Reversed(us[0].1));
      ReversedLeadsBackIff(s, us[0].0, us[0].1);
      LeadsBackMeans(s, us[0].0, us[0].1);
      var back := ApplyUpdate(x, us[0].0, Reversed(us[0].1));
      assert ApplyUpdates(x, last) == ApplyUpdates(back.value, last[1..]);
      SameIsTransitive(back.value, ApplyUpdate(next, us[0].0, Reversed(us[0].1)).value, s);
    }
  }

  // ----- the updates of an operation

  /** A forced exit of the initiator itself. */
  predicate OwnForcedExit(op: Tx) {
    op.ForcedExit? && op.initiator == op.target
  }

  /** The updates lead from one state to the other, and can be undone. */
  ghost predicate Leads(s: Snapshot, us: Updates, t: Snapshot) {
    ApplyUpdates(s, us) == Some(t) && AllUndoable(s, us)
  }

  lemma {:induction false} PaymentStep(s: Snapshot, id: nat, token: nat, amount: nat)
    requires id in s.accounts && amount <= GetBalance(s.accounts[id], token)
    ensures var (i, u) := Payment(id, s.accounts[id], token, amount);
            && i == id && u.UpdateBalance?
            && ApplyUpdate(s, i, u) == Some(Insert(s, id, Payer(s.accounts[id], token, amount)))
  {
  }

  lemma {:induction false} BalanceStep(s: Snapshot, id: nat, token: nat, balance: nat)
    requires id in s.accounts
    ensures var (i, u) := NewBalance(id, s.accounts[id], token, balance);
            && i == id && u.UpdateBalance?
            && ApplyUpdate(s, i, u) == Some(Insert(s, id, s.accounts[id].(balances := s.accounts[id].balances[token := balance])))
  {
  }

  lemma {:induction false} OneStep(s: Snapshot, c: (nat, Update), t: Snapshot)
    requires ApplyUpdate(s, c.0, c.1) == Some(t) && Undoable(s, c.0, c.1)
    ensures Leads(s, [c], t)
  {
    hide ApplyUpdate, Undoable;
    var us: Updates := [c];
    assert us[0] == c && us[1..] == [];
    assert ApplyUpdates(t, us[1..]) == Some(t) && AllUndoable(t, us[1..]);
  }

  lemma {:induction false} MoreSteps(s: Snapshot, c: (nat, Update), us: Updates, next: Snapshot, t: Snapshot)
    requires ApplyUpdate(s, c.0, c.1) == Some(next) && Undoable(s, c.0, c.1) && Leads(next, us, t)
    ensures Leads(s, [c] + us, t)
  {
    hide ApplyUpdate, Undoable;
    assert ([c] + us)[0] == c && ([c] + us)[1..] == us;
  }

  lemma {:induction false} BalanceIsUndoable(s: Snapshot, id: nat, u: Update)
    requires u.UpdateBalance? || u.ChangePubKeyHash?
    ensures Undoable(s, id, u)
  {
  }

  lemma {:induction false} PaymentLeads(s: Snapshot, id: nat, token: nat, amount: nat)
    requires id in s.accounts && amount <= GetBalance(s.accounts[id], token)
    ensures Leads(s, [Payment(id, s.accounts[id], token, amount)], Insert(s, id, Payer(s.accounts[id], token, amount)))
  {
    hide *;
    PaymentStep(s, id, token, amount);
    var c := Payment(id, s.accounts[id], token, amount);
    BalanceIsUndoable(s, c.0, c.1);
    OneStep(s, c, Insert(s, id, Payer(s.accounts[id], token, amount)));
  }

  lemma {:induction false} BalanceLeads(s: Snapshot, id: nat, token: nat, balance: nat)
    requires id in s.accounts
    ensures Leads(s, [NewBalance(id, s.accounts[id], token, balance)],
                  Insert(s, id, s.accounts[id].(balances := s.accounts[id].balances[token := balance])))
  {
    hide *;
    BalanceStep(s, id, token, balance);
    var c := NewBalance(id, s.accounts[id], token, balance);
    BalanceIsUndoable(s, c.0, c.1);
    OneStep(s, c, Insert(s, id, s.accounts[id].(balances := s.accounts[id].balances[token := balance])));
  }

  /** A payment and then a new balance of another account. */
  lemma {:induction false} PaymentAndBalanceLead(s: Snapshot, id: nat, token: nat, amount: nat, other: nat, balance: nat)
    requires id in s.accounts && amount <= GetBalance(s.accounts[id], token) && other in s.accounts && other != id
    ensures var b := s.accounts[other];
            Leads(s, [Payment(id, s.accounts[id], token, amount), NewBalance(other, b, token, balance)],
                  Insert(Insert(s, id, Payer(s.accounts[id], token, amount)), other, b.(balances := b.balances[token := balance])))
  {
    hide *;
    var s1, b := Insert(s, id, Payer(s.accounts[id], token, amount)), s.accounts[other];
    Inserted(s, id, Payer(s.accounts[id], token, amount));
    PaymentStep(s, id, token, amount);
    var c := Payment(id, s.accounts[id], token, amount);
    BalanceIsUndoable(s, c.0, c.1);
    BalanceLeads(s1, other, token, balance);
    MoreSteps(s, c, [NewBalance(other, b, token, balance)], s1, Insert(s1, other, b.(balances := b.balances[token := balance])));
    assert [c] + [NewBalance(other, b, token, balance)] == [c, NewBalance(other, b, token, balance)];
  }

  lemma {:induction false} TransferLeads(s: Snapshot, op: Tx, w: W.WalletTx)
    requires op.Transfer? && w.TransferTx? && op.from in s.accounts && op.to in s.accounts && ApplyTransfer(s, op, w).Done?
    ensures Leads(s, ApplyTransfer(s, op, w).updates, ApplyTransfer(s, op, w).after)
  {
    hide Leads, Insert, Payer, GetBalance, Payment, NewBalance;
    if op.from == op.to {
      SpendsLess(s.accounts[op.from], w);
      PaymentLeads(s, op.from, w.token, w.fee);
    } else {
      PaymentAndBalanceLead(s, op.from, w.token, w.amount + w.fee, op.to, GetBalance(s.accounts[op.to], w.token) + w.amount);
    }
  }

  lemma {:induction false} SpendsLess(a: ServerAccount, w: W.WalletTx)
    requires w.TransferTx? && MayPay(a, w, w.amount + w.fee)
    ensures w.fee <= GetBalance(a, w.token)
  {
  }

  lemma {:induction false} CreateStep(s: Snapshot, id: nat, address: nat)
    requires id !in s.accounts && address !in s.ids
    ensures ApplyUpdate(s, id, Update.Create(address, 0)) == Some(Insert(s, id, NewAccount(address)))
    ensures Undoable(s, id, Update.Create(address, 0))
  {
  }

  lemma {:induction false} CreatedIsReplaced(s: Snapshot, id: nat, payer: nat, p: ServerAccount, a: ServerAccount, b: ServerAccount)
    requires id != payer && a.address == b.address
    ensures Insert(Insert(Insert(s, id, a), payer, p), id, b) == Insert(Insert(s, payer, p), id, b)
    ensures Insert(Insert(s, id, a), id, b) == Insert(s, id, b)
  {
    assert Insert(Insert(Insert(s, id, a), payer, p), id, b).accounts == Insert(Insert(s, payer, p), id, b).accounts;
    assert Insert(Insert(Insert(s, id, a), payer, p), id, b).ids == Insert(Insert(s, payer, p), id, b).ids;
  }

  lemma {:induction false} NewHolds(address: nat, token: nat, amount: nat)
    ensures var a := NewAccount(address);
            AddBalance(a, token, amount) == a.(balances := a.balances[token := amount]) && GetBalance(a, token) == 0
  {
  }

  lemma {:induction false} TransferToNewLeads(s: Snapshot, op: Tx, w: W.WalletTx)
    requires op.TransferToNew? && w.TransferTx? && op.from in s.accounts && ApplyTransferToNew(s, op, w).Done? && w.toAddress !in s.ids
    ensures Leads(s, ApplyTransferToNew(s, op, w).updates, ApplyTransferToNew(s, op, w).after)
  {
    hide Leads, Insert, Payer, GetBalance, Payment, NewBalance, AddBalance, NewAccount, ApplyUpdate;
    var a := NewAccount(w.toAddress);
    var s1, p := Insert(s, op.to, a), Payer(s.accounts[op.from], w.token, w.amount + w.fee);
    Inserted(s, op.to, a);
    CreateStep(s, op.to, w.toAddress);
    PaymentAndBalanceLead(s1, op.from, w.token, w.amount + w.fee, op.to, w.amount);
    NewHolds(w.toAddress, w.token, w.amount);
    var us := [Payment(op.from, s.accounts[op.from], w.token, w.amount + w.fee), NewBalance(op.to, a, w.token, w.amount)];
    MoreSteps(s, (op.to, Update.Create(w.toAddress, 0)), us, s1, Insert(Insert(s1, op.from, p), op.to, AddBalance(a, w.token, w.amount)));
    CreatedIsReplaced(s, op.to, op.from, p, a, AddBalance(a, w.token, w.amount));
    assert [(op.to, Update.Create(w.toAddress, 0))] + us == ApplyTransferToNew(s, op, w).updates;
  }

  lemma {:induction false} KeyChangeLeads(s: Snapshot, op: Tx, w: W.WalletTx)
    requires op.ChangePubKey? && w.ChangePubKeyTx? && op.account in s.accounts && ApplyChangePubKey(s, op, w).Done?
    ensures Leads(s, ApplyChangePubKey(s, op, w).updates, ApplyChangePubKey(s, op, w).after)
  {
    hide Leads;
    var a, us := s.accounts[op.account], ApplyChangePubKey(s, op, w).updates;
    var next := Insert(s, op.account, UseNonce(a).(pubKeyHash := w.newPkHash));
    var t := ApplyChangePubKey(s, op, w).after;
    assert ApplyUpdate(s, us[0].0, us[0].1) == Some(next);
    var after := Payer(a, w.token, w.fee).(pubKeyHash := w.newPkHash);
    CreatedIsReplaced(s, op.account, op.account + 1, a, UseNonce(a).(pubKeyHash := w.newPkHash), after);
    assert Changed(next.accounts[op.account], us[1].1) == after;
    assert ApplyUpdate(next, us[1].0, us[1].1) == Some(t);
    OneStep(next, us[1], t);
    MoreSteps(s, us[0], [us[1]], next, t);
    assert [us[0]] + [us[1]] == us;
  }

  lemma {:induction false} WithdrawLeads(s: Snapshot, op: Tx, w: W.WalletTx)
    requires op.Withdraw? && w.WithdrawTx? && op.account in s.accounts && ApplyWithdraw(s, op, w).Done?
    ensures Leads(s, ApplyWithdraw(s, op, w).updates, ApplyWithdraw(s, op, w).after)
  {
    hide Leads, Insert, Payer, GetBalance, Payment;
    PaymentLeads(s, op.account, w.token, w.amount + w.fee);
  }

  lemma {:induction false} ForcedExitLeads(s: Snapshot, op: Tx, w: W.WalletTx)
    requires op.ForcedExit? && w.ForcedExitTx? && op.initiator in s.accounts && op.target in s.accounts && ApplyForcedExit(s, op, w).Done?
    requires op.initiator != op.target
    ensures Leads(s, ApplyForcedExit(s, op, w).updates, ApplyForcedExit(s, op, w).after)
  {
    hide Leads, Insert, Payer, GetBalance, Payment, NewBalance;
    PaymentAndBalanceLead(s, op.initiator, w.token, w.fee, op.target, 0);
  }

  /** Of a forced exit of the initiator itself the second update was made from the account before the first one, whose
      nonce it expects: the updates do not apply in either direction. */
  lemma {:induction false} OwnForcedExitFails(s: Snapshot, op: Tx, w: W.WalletTx, x: Snapshot)
    requires OwnForcedExit(op) && w.ForcedExitTx? && op.initiator in s.accounts && ApplyForcedExit(s, op, w).Done?
    ensures ApplyUpdates(s, ApplyForcedExit(s, op, w).updates) == None
    ensures Same(x, ApplyForcedExit(s, op, w).after) ==> ApplyUpdates(x, ReversedAll(ApplyForcedExit(s, op, w).updates)) == None
  {
    var us, t := ApplyForcedExit(s, op, w).updates, ApplyForcedExit(s, op, w).after;
    assert us[1..][0] == us[1] && |us[1..]| == 1;
    var back := [(us[1].0, Reversed(us[1].1)), (us[0].0, Reversed(us[0].1))];
    assert ReversedAll(us[1..]) == [back[0]];
    assert ReversedAll(us) == back;
    assert back[1..][0] == back[1];
    if Same(x, t) {
      assert Alike(x.accounts[op.target], t.accounts[op.target]);
    }
  }

  lemma {:induction false} DepositLeads(s: Snapshot, op: Tx)
    requires op.Deposit? && (op.account !in s.accounts ==> op.address !in s.ids)
    ensures Leads(s, ApplyDeposit(s, op).updates, ApplyDeposit(s, op).after)
  {
    hide Leads, Insert, GetBalance, NewBalance, NewAccount, ApplyUpdate;
    if op.account in s.accounts {
      var a := s.accounts[op.account];
      BalanceLeads(s, op.account, op.token, GetBalance(a, op.token) + op.amount);
      assert [] + [NewBalance(op.account, a, op.token, GetBalance(a, op.token) + op.amount)]
          == [NewBalance(op.account, a, op.token, GetBalance(a, op.token) + op.amount)];
    } else {
      var a := NewAccount(op.address);
      var s1 := Insert(s, op.account, a);
      Inserted(s, op.account, a);
      CreateStep(s, op.account, op.address);
      BalanceLeads(s1, op.account, op.token, op.amount);
      NewHolds(op.address, op.token, op.amount);
      CreatedIsReplaced(s, op.account, op.account + 1, a, a, AddBalance(a, op.token, op.amount));
      MoreSteps(s, (op.account, Update.Create(op.address, 0)), [NewBalance(op.account, a, op.token, op.amount)], s1,
                Insert(s1, op.account, AddBalance(a, op.token, op.amount)));
    }
  }

  lemma {:induction false} FullExitLeads(s: Snapshot, op: Tx)
    requires op.FullExit? && ApplyFullExit(s, op).Done?
    ensures Leads(s, ApplyFullExit(s, op).updates, ApplyFullExit(s, op).after)
  {
    if op.account in s.accounts && s.accounts[op.account].address == op.ethAddress {
      hide Leads, Insert, GetBalance, NewBalance;
      BalanceLeads(s, op.account, op.token, 0);
    }
  }

  /** The updates of an operation lead from the state before it to the state after it, and can be undone, unless it is a
      forced exit of the initiator itself; then they fail. */
  lemma {:induction false} UpdatesLeadIff(s: Snapshot, r: Request)
    requires Consistent(s) && Perform(s, r).Done?
    ensures var done := Perform(s, r);
            if OwnForcedExit(done.op) then ApplyUpdates(s, done.updates) == None else Leads(s, done.updates, done.after)
  {
    hide *;
    PerformMeans(s, r);
    var op, done := Perform(s, r).op, Perform(s, r);
    NamesMeans(s, op);
    IsOwn(op);
    if r.SignedRequest? {
      HasNumbersKind(op, r.w);
      if op.Transfer? {
        TransferLeads(s, op, r.w);
      } else if op.TransferToNew? {
        CreatedIsTransfer(s, r);
        CreatedTransfer(s, r.w, r.signer);
        TransferToNewLeads(s, op, r.w);
      } else if op.Withdraw? {
        WithdrawLeads(s, op, r.w);
      } else if op.ChangePubKey? {
        KeyChangeLeads(s, op, r.w);
      } else if op.initiator == op.target {
        OwnForcedExitFails(s, op, r.w, s);
      } else {
        ForcedExitLeads(s, op, r.w);
      }
    } else {
      CreatedRequest(s, r);
      if op.Deposit? {
        DepositLeads(s, op);
      } else {
        FullExitLeads(s, op);
      }
    }
  }

  lemma {:induction false} IsOwn(op: Tx)
    ensures OwnForcedExit(op) <==> op.ForcedExit? && op.initiator == op.target
  {
  }

  predicate SameKind(u: Update, v: Update) {
    (u.Create? && v.Create?) || (u.Delete? && v.Delete?) || (u.UpdateBalance? && v.UpdateBalance?) || (u.ChangePubKeyHash? && v.ChangePubKeyHash?)
  }

  predicate NoneTwice(us: Updates) {
    && (forall i :: 0 <= i < |us| ==> !us[i].1.Delete?)
    && (forall i, j :: 0 <= i < j < |us| ==> us[i].0 != us[j].0 || !SameKind(us[i].1, us[j].1))
  }

  lemma {:induction false} ApplyRecordsOnce(s: Snapshot, op: Tx, w: W.WalletTx)
    ensures op.Transfer? && w.TransferTx? && op.from in s.accounts && op.to in s.accounts && ApplyTransfer(s, op, w).Done? ==>
              NoneTwice(ApplyTransfer(s, op, w).updates)
    ensures op.TransferToNew? && w.TransferTx? && op.from in s.accounts && ApplyTransferToNew(s, op, w).Done? ==>
              NoneTwice(ApplyTransferToNew(s, op, w).updates)
    ensures op.Withdraw? && w.WithdrawTx? && op.account in s.accounts && ApplyWithdraw(s, op, w).Done? ==>
              NoneTwice(ApplyWithdraw(s, op, w).updates)
    ensures op.ChangePubKey? && w.ChangePubKeyTx? && op.account in s.accounts && ApplyChangePubKey(s, op, w).Done? ==>
              NoneTwice(ApplyChangePubKey(s, op, w).updates)
    ensures op.ForcedExit? && w.ForcedExitTx? && op.initiator in s.accounts && op.target in s.accounts && ApplyForcedExit(s, op, w).Done? ==>
              OwnForcedExit(op) || NoneTwice(ApplyForcedExit(s, op, w).updates)
  {
    hide Insert, Payer, AddBalance, SubBalance, GetBalance;
  }

  lemma {:induction false} RequestRecordsOnce(s: Snapshot, op: Tx)
    ensures op.Deposit? ==> NoneTwice(ApplyDeposit(s, op).updates)
    ensures op.FullExit? && ApplyFullExit(s, op).Done? ==> NoneTwice(ApplyFullExit(s, op).updates)
  {
    hide Insert, AddBalance, SubBalance, GetBalance;
  }

  /** No operation records two updates of one kind for one account, but a forced exit of the initiator itself, and none
      records a deletion. */
  lemma {:induction false} UpdatesAreDistinct(s: Snapshot, r: Request)
    requires Consistent(s) && Perform(s, r).Done? && !OwnForcedExit(Perform(s, r).op)
    ensures NoneTwice(Perform(s, r).updates)
  {
    hide *;
    PerformMeans(s, r);
    var op := Perform(s, r).op;
    NamesMeans(s, op);
    RequestRecordsOnce(s, op);
    if r.SignedRequest? {
      HasNumbersKind(op, r.w);
      ApplyRecordsOnce(s, op, r.w);
    } else {
      CreatedRequest(s, r);
    }
  }

  /** Their reverse leads back, from any state equal to the one after it. */
  lemma {:induction false} ReversedLeadFrom(s: Snapshot, r: Request, x: Snapshot)
    requires Consistent(s) && Perform(s, r).Done? && Same(x, Perform(s, r).after)
    ensures var back := ApplyUpdates(x, ReversedAll(Perform(s, r).updates));
            if OwnForcedExit(Perform(s, r).op) then back == None else back.Some? && Same(back.value, s)
  {
    hide *;
    var done := Perform(s, r);
    UpdatesLeadIff(s, r);
    IsOwn(done.op);
    if OwnForcedExit(done.op) {
      PerformMeans(s, r);
      NamesMeans(s, done.op);
      if r.SignedRequest? {
        HasNumbersKind(done.op, r.w);
        OwnForcedExitFails(s, done.op, r.w, x);
      } else {
        CreatedRequest(s, r);
      }
    } else {
      LeadsMeans(s, done.updates, done.after);
      IsLinked(s);
      ReversedLeadBack(s, done.updates);
      SameSteps(x, done.after, ReversedAll(done.updates));
      SameIsTransitive(ApplyUpdates(x, ReversedAll(done.updates)).value, ApplyUpdates(done.after, ReversedAll(done.updates)).value, s);
    }
  }

  lemma {:induction false} LeadsMeans(s: Snapshot, us: Updates, t: Snapshot)
    requires Leads(s, us, t)
    ensures ApplyUpdates(s, us) == Some(t) && AllUndoable(s, us)
  {
    hide ApplyUpdates, AllUndoable;
  }

  lemma {:induction false} IsLinked(s: Snapshot)
    requires Consistent(s)
    ensures Linked(s)
  {
  }

  // ----- batches

  datatype End = AllDone | Failed | Crashed

  /** How far a batch gets: the state then, what was done, and why it stopped. */
  datatype Ran = Ran(after: Snapshot, done: seq<Success>, end: End)

  function RunTxs(s: Snapshot, txs: seq<Request>): Ran
    requires Consistent(s)
    decreases |txs|
  {
    if txs == [] then Ran(s, [], AllDone)
    else
      match Perform(s, txs[0])
      case Refused => Ran(s, [], Failed)
      case Panicked => Ran(s, [], Crashed)
      case Done(after, op, updates) =>
        PerformIsConsistent(s, txs[0]);
        var rest := RunTxs(after, txs[1..]);
        Ran(rest.after, [Success(op, updates)] + rest.done, rest.end)
  }

  /** The updates of all successes are undone, the last one first. */
  function RollBack(s: Snapshot, done: seq<Success>): Option<Snapshot>
    decreases |done|
  {
    if done == [] then Some(s)
    else
      var back := RollBack(s, done[1..]);
      if back.None? then None else ApplyUpdates(back.value, ReversedAll(done[0].updates))
  }

  /** The last success is undone first. */
  lemma {:induction false} RollBackLast(s: Snapshot, done: seq<Success>, last: Success)
    ensures RollBack(s, done + [last]) ==
              if ApplyUpdates(s, ReversedAll(last.updates)).None? then None
              else RollBack(ApplyUpdates(s, ReversedAll(last.updates)).value, done)
    decreases |done|
  {
    hide ApplyUpdates;
    if done == [] {
      assert [] + [last] == [last] && [last][1..] == [];
      assert RollBack(s, [last][1..]) == Some(s);
    } else {
      assert (done + [last])[0] == done[0] && (done + [last])[1..] == done[1..] + [last];
      RollBackLast(s, done[1..], last);
    }
  }

  datatype BatchOutcome = BatchDone(after: Snapshot, done: seq<Success>) | BatchRefused(after: Snapshot) | BatchPanicked

  /** `execute_txs_batch` */
  function ExecuteBatch(s: Snapshot, txs: seq<Request>): BatchOutcome
    requires Consistent(s)
  {
    var ran := RunTxs(s, txs);
    match ran.end
    case AllDone => BatchDone(ran.after, ran.done)
    case Crashed => BatchPanicked
    case Failed =>
      var back := RollBack(ran.after, ran.done);
      if back.None? then BatchPanicked else BatchRefused(back.value)
  }

  /** The states between the transactions of a batch, when each is executed. */
  ghost predicate Passes(states: seq<Snapshot>, s: Snapshot, txs: seq<Request>, done: seq<Success>) {
    && |states| == |txs| + 1 && |done| == |txs| && states[0] == s
    && forall i :: 0 <= i < |txs| ==> Consistent(states[i]) && Perform(states[i], txs[i]) == Done(states[i + 1], done[i].op, done[i].updates)
  }

  /** How far a batch gets: every transaction up to there was executed, one after the other, and the next one was refused
      or panicked, if there is one. */
  lemma {:induction false} BatchGetsAsFar(s: Snapshot, txs: seq<Request>) returns (states: seq<Snapshot>)
    requires Consistent(s)
    ensures var ran := RunTxs(s, txs);
            && |ran.done| <= |txs| && Passes(states, s, txs[..|ran.done|], ran.done) && states[|ran.done|] == ran.after && Consistent(ran.after)
            && (ran.end == AllDone <==> |ran.done| == |txs|)
            && (ran.end == Failed <==> |ran.done| < |txs| && Perform(ran.after, txs[|ran.done|]).Refused?)
            && (ran.end == Crashed <==> |ran.done| < |txs| && Perform(ran.after, txs[|ran.done|]).Panicked?)
    decreases |txs|
  {
    hide Consistent, Perform;
    if txs == [] || !Perform(s, txs[0]).Done? {
      states := [s];
    } else {
      RanMore(s, txs);
      var first := Perform(s, txs[0]);
      var more := BatchGetsAsFar(first.after, txs[1..]);
      var ran, rest := RunTxs(s, txs), RunTxs(first.after, txs[1..]);
      states := [s] + more;
      hide RunTxs;
      forall i | 0 <= i < |ran.done|
        ensures Consistent(states[i]) && Perform(states[i], txs[i]) == Done(states[i + 1], ran.done[i].op, ran.done[i].updates)
      {
        if i > 0 {
          assert txs[1..][..|rest.done|][i - 1] == txs[i] && ran.done[i] == rest.done[i - 1];
        }
      }
      if |ran.done| < |txs| {
        assert txs[1..][|rest.done|] == txs[|ran.done|];
      }
    }
  }

  predicate SomeOwnForcedExit(done: seq<Success>) {
    exists i :: 0 <= i < |done| && OwnForcedExit(done[i].op)
  }

  lemma {:induction false} SomeOwnIs(first: Success, rest: seq<Success>)
    ensures SomeOwnForcedExit([first] + rest) <==> OwnForcedExit(first.op) || SomeOwnForcedExit(rest)
  {
    var done := [first] + rest;
    assert done[0] == first;
    if SomeOwnForcedExit(rest) {
      var i :| 0 <= i < |rest| && OwnForcedExit(rest[i].op);
      assert done[i + 1] == rest[i];
    }
    if SomeOwnForcedExit(done) && !OwnForcedExit(first.op) {
      var i :| 0 <= i < |done| && OwnForcedExit(done[i].op);
      assert done[i] == rest[i - 1];
    }
  }

  lemma {:induction false} SameItself(s: Snapshot)
    ensures Same(s, s)
  {
  }

  lemma {:induction false} RollBackMore(s: Snapshot, first: Success, rest: seq<Success>)
    ensures RollBack(s, [first] + rest) ==
              if RollBack(s, rest).None? then None else ApplyUpdates(RollBack(s, rest).value, ReversedAll(first.updates))
  {
    hide ApplyUpdates;
    assert ([first] + rest)[0] == first && ([first] + rest)[1..] == rest;
  }

  lemma {:induction false} RanMore(s: Snapshot, txs: seq<Request>)
    requires Consistent(s) && txs != []
    ensures Perform(s, txs[0]).Done? ==>
              var done := Perform(s, txs[0]);
              && Consistent(done.after)
              && RunTxs(s, txs).after == RunTxs(done.after, txs[1..]).after && RunTxs(s, txs).end == RunTxs(done.after, txs[1..]).end
              && RunTxs(s, txs).done == [Success(done.op, done.updates)] + RunTxs(done.after, txs[1..]).done
    ensures !Perform(s, txs[0]).Done? ==> RunTxs(s, txs) == Ran(s, [], if Perform(s, txs[0]).Refused? then Failed else Crashed)
  {
    hide Consistent, Perform;
    if Perform(s, txs[0]).Done? {
      PerformIsConsistent(s, txs[0]);
    }
  }

  lemma {:induction false} RolledBackIff(s: Snapshot, txs: seq<Request>)
    requires Consistent(s)
    ensures var ran := RunTxs(s, txs);
            var back := RollBack(ran.after, ran.done);
            if SomeOwnForcedExit(ran.done) then back == None else back.Some? && Same(back.value, s)
    decreases |txs|
  {
    var ran := RunTxs(s, txs);
    if txs == [] || !Perform(s, txs[0]).Done? {
      hide Consistent, Perform, ApplyUpdates, Same;
      SameItself(s);
    } else {
      hide *;
      RanMore(s, txs);
      var done := Perform(s, txs[0]);
      var rest := RunTxs(done.after, txs[1..]);
      RolledBackIff(done.after, txs[1..]);
      SomeOwnIs(Success(done.op, done.updates), rest.done);
      RollBackMore(rest.after, Success(done.op, done.updates), rest.done);
      if !SomeOwnForcedExit(rest.done) {
        ReversedLeadFrom(s, txs[0], RollBack(rest.after, rest.done).value);
      }
    }
  }

  /** After `done` the batch goes on from `now` with `rest`. */
  ghost predicate Follows(s: Snapshot, txs: seq<Request>, now: Snapshot, rest: seq<Request>, done: seq<Success>) {
    && Consistent(s) && Consistent(now)
    && RunTxs(s, txs) == RunTxs(now, rest).(done := done + RunTxs(now, rest).done)
  }

  lemma {:induction false} FollowsFirst(s: Snapshot, txs: seq<Request>)
    requires Consistent(s)
    ensures Follows(s, txs, s, txs, [])
  {
    hide Consistent, RunTxs;
    assert [] + RunTxs(s, txs).done == RunTxs(s, txs).done;
  }

  lemma {:induction false} FollowsNext(s: Snapshot, txs: seq<Request>, now: Snapshot, rest: seq<Request>, done: seq<Success>)
    requires Follows(s, txs, now, rest, done) && rest != []
    ensures Consistent(s) && Consistent(now)
    ensures var r := Perform(now, rest[0]);
            && (r.Done? ==> Follows(s, txs, r.after, rest[1..], done + [Success(r.op, r.updates)]))
            && (r.Panicked? ==> ExecuteBatch(s, txs) == BatchPanicked)
            && (r.Refused? ==>
                  var back := RollBack(now, done);
                  ExecuteBatch(s, txs) == if back.None? then BatchPanicked else BatchRefused(back.value))
  {
    hide Consistent, RunTxs, Perform, RollBack;
    RanMore(now, rest);
    var r := Perform(now, rest[0]);
    if r.Done? {
      var more := RunTxs(r.after, rest[1..]).done;
      assert (done + [Success(r.op, r.updates)]) + more == done + ([Success(r.op, r.updates)] + more);
    } else {
      assert done + [] == done;
    }
  }

  lemma {:induction false} FollowsLast(s: Snapshot, txs: seq<Request>, now: Snapshot, done: seq<Success>)
    requires Follows(s, txs, now, [], done)
    ensures Consistent(s) && ExecuteBatch(s, txs) == BatchDone(now, done)
  {
    hide Consistent, Perform, RollBack;
    assert done + [] == done;
  }

  /** A batch that fails leaves the state as it was, with one ledger and one root, if and only if no transaction before
      the failing one forced the exit of its own account; otherwise the rollback panics. */
  lemma {:induction false} BatchIsAtomicIff(s: Snapshot, txs: seq<Request>)
    requires Consistent(s) && RunTxs(s, txs).end == Failed
    ensures var outcome := ExecuteBatch(s, txs);
            if SomeOwnForcedExit(RunTxs(s, txs).done) then outcome == BatchPanicked
            else outcome.BatchRefused? && Same(outcome.after, s) && LedgerOf(outcome.after) == LedgerOf(s)
  {
    hide *;
    RolledBackIff(s, txs);
    FailedIs(s, txs);
    var ran := RunTxs(s, txs);
    if !SomeOwnForcedExit(ran.done) {
      SameIsOneLedger(RollBack(ran.after, ran.done).value, s);
    }
  }

  lemma {:induction false} FailedIs(s: Snapshot, txs: seq<Request>)
    requires Consistent(s) && RunTxs(s, txs).end == Failed
    ensures var back := RollBack(RunTxs(s, txs).after, RunTxs(s, txs).done);
            ExecuteBatch(s, txs) == if back.None? then BatchPanicked else BatchRefused(back.value)
  {
    hide Consistent, RunTxs, RollBack;
  }

  /** Such a forced exit takes a key whose hash is zero. */
  lemma {:induction false} OwnForcedExitTakesZeroKey(s: Snapshot, r: Request)
    requires Consistent(s) && Perform(s, r).Done? && OwnForcedExit(Perform(s, r).op)
    ensures r.SignedRequest? && r.signer == Some(0)
  {
    PerformMeans(s, r);
    if r.SignedRequest? {
      HasNumbersKind(Perform(s, r).op, r.w);
    }
    hide PackedNumber, Perform, HasNumbers;
  }

  // ----- equal states go on alike

  /** The same answer, with equal states after it. */
  ghost predicate AlikeOutcomes(x: Outcome, y: Outcome) {
    match x
    case Done(after, op, updates) => y.Done? && y.op == op && y.updates == updates && Same(after, y.after)
    case Refused => y == Refused
    case Panicked => y == Panicked
  }

  lemma {:induction false} FundsAlike(a: ServerAccount, b: ServerAccount, token: nat, amount: nat)
    requires Alike(a, b)
    ensures GetBalance(a, token) == GetBalance(b, token) && Alike(AddBalance(a, token, amount), AddBalance(b, token, amount))
    ensures amount <= GetBalance(a, token) ==>
              && Alike(SubBalance(a, token, amount), SubBalance(b, token, amount)) && Alike(Payer(a, token, amount), Payer(b, token, amount))
              && forall id :: Payment(id, a, token, amount) == Payment(id, b, token, amount)
    ensures forall id, balance :: NewBalance(id, a, token, balance) == NewBalance(id, b, token, balance)
  {
    assert GetBalance(a, token) == GetBalance(b, token);
    forall t
      ensures GetBalance(AddBalance(a, token, amount), t) == GetBalance(AddBalance(b, token, amount), t)
      ensures amount <= GetBalance(a, token) ==>
                && GetBalance(SubBalance(a, token, amount), t) == GetBalance(SubBalance(b, token, amount), t)
                && GetBalance(Payer(a, token, amount), t) == GetBalance(Payer(b, token, amount), t)
    {
      assert GetBalance(a, t) == GetBalance(b, t);
    }
  }

  lemma {:induction false} AllAlike(s: Snapshot, t: Snapshot, id: nat)
    requires Same(s, t)
    ensures id in s.accounts <==> id in t.accounts
    ensures id in s.accounts ==> Alike(s.accounts[id], t.accounts[id])
    ensures s.ids == t.ids && FreeId(s) == FreeId(t)
  {
    hide Alike;
    assert |s.accounts| == |s.accounts.Keys| && |t.accounts| == |t.accounts.Keys|;
  }

  lemma {:induction false} TransfersAlike(s: Snapshot, t: Snapshot, op: Tx, w: W.WalletTx)
    requires op.Transfer? && w.TransferTx? && op.from in s.accounts && op.to in s.accounts && Same(s, t)
    ensures op.from in t.accounts && op.to in t.accounts && AlikeOutcomes(ApplyTransfer(s, op, w), ApplyTransfer(t, op, w))
  {
    hide Same, Insert, Payer, AddBalance, GetBalance, Payment, NewBalance;
    AllAlike(s, t, op.from);
    AllAlike(s, t, op.to);
    var a, b, c, d := s.accounts[op.from], t.accounts[op.from], s.accounts[op.to], t.accounts[op.to];
    FundsAlike(a, b, w.token, w.amount + w.fee);
    FundsAlike(a, b, w.token, w.fee);
    FundsAlike(c, d, w.token, w.amount);
    if MayPay(a, w, w.amount + w.fee) {
      if op.from == op.to {
        InsertsAlike(s, t, op.from, Payer(a, w.token, w.fee), Payer(b, w.token, w.fee));
      } else {
        var x, y := Payer(a, w.token, w.amount + w.fee), Payer(b, w.token, w.amount + w.fee);
        InsertsAlike(s, t, op.from, x, y);
        InsertsAlike(Insert(s, op.from, x), Insert(t, op.from, y), op.to, AddBalance(c, w.token, w.amount), AddBalance(d, w.token, w.amount));
      }
    }
  }

  lemma {:induction false} TransfersToNewAlike(s: Snapshot, t: Snapshot, op: Tx, w: W.WalletTx)
    requires op.TransferToNew? && w.TransferTx? && op.from in s.accounts && Same(s, t)
    ensures op.from in t.accounts && AlikeOutcomes(ApplyTransferToNew(s, op, w), ApplyTransferToNew(t, op, w))
  {
    hide Same, Insert, Payer, AddBalance, GetBalance, Payment, NewBalance;
    AllAlike(s, t, op.from);
    AllAlike(s, t, op.to);
    var a, b, c := s.accounts[op.from], t.accounts[op.from], AddBalance(NewAccount(w.toAddress), w.token, w.amount);
    FundsAlike(a, b, w.token, w.amount + w.fee);
    assert Alike(c, c);
    if MayPay(a, w, w.amount + w.fee) {
      var x, y := Payer(a, w.token, w.amount + w.fee), Payer(b, w.token, w.amount + w.fee);
      InsertsAlike(s, t, op.from, x, y);
      InsertsAlike(Insert(s, op.from, x), Insert(t, op.from, y), op.to, c, c);
    }
  }

  lemma {:induction false} WithdrawalsAlike(s: Snapshot, t: Snapshot, op: Tx, w: W.WalletTx)
    requires op.Withdraw? && w.WithdrawTx? && op.account in s.accounts && Same(s, t)
    ensures op.account in t.accounts && AlikeOutcomes(ApplyWithdraw(s, op, w), ApplyWithdraw(t, op, w))
  {
    hide Same, Insert, Payer, GetBalance, Payment;
    AllAlike(s, t, op.account);
    var a, b := s.accounts[op.account], t.accounts[op.account];
    FundsAlike(a, b, w.token, w.amount + w.fee);
    if MayPay(a, w, w.amount + w.fee) {
      InsertsAlike(s, t, op.account, Payer(a, w.token, w.amount + w.fee), Payer(b, w.token, w.amount + w.fee));
    }
  }

  lemma {:induction false} KeyedAlike(a: ServerAccount, b: ServerAccount, key: nat)
    requires Alike(a, b)
    ensures Alike(a.(pubKeyHash := key), b.(pubKeyHash := key))
  {
    forall t
      ensures GetBalance(a.(pubKeyHash := key), t) == GetBalance(b.(pubKeyHash := key), t)
    {
      assert GetBalance(a, t) == GetBalance(b, t);
    }
  }

  lemma {:induction false} HoldsAlike(a: ServerAccount, b: ServerAccount, token: nat)
    requires Alike(a, b)
    ensures GetBalance(a, token) == GetBalance(b, token)
  {
  }

  lemma {:induction false} KeyChangesAlike(s: Snapshot, t: Snapshot, op: Tx, w: W.WalletTx)
    requires op.ChangePubKey? && w.ChangePubKeyTx? && op.account in s.accounts && Same(s, t)
    ensures op.account in t.accounts && AlikeOutcomes(ApplyChangePubKey(s, op, w), ApplyChangePubKey(t, op, w))
  {
    hide Same, Insert, Payer, GetBalance;
    AllAlike(s, t, op.account);
    var a, b := s.accounts[op.account], t.accounts[op.account];
    FundsAlike(a, b, w.token, w.fee);
    if MayPay(a, w, w.fee) {
      var x, y := Payer(a, w.token, w.fee), Payer(b, w.token, w.fee);
      KeyedAlike(x, y, w.newPkHash);
      HoldsAlike(x.(pubKeyHash := w.newPkHash), y.(pubKeyHash := w.newPkHash), w.token);
      InsertsAlike(s, t, op.account, x.(pubKeyHash := w.newPkHash), y.(pubKeyHash := w.newPkHash));
    }
  }

  lemma {:induction false} ForcedExitsAlike(s: Snapshot, t: Snapshot, op: Tx, w: W.WalletTx)
    requires op.ForcedExit? && w.ForcedExitTx? && op.initiator in s.accounts && op.target in s.accounts && Same(s, t)
    ensures op.initiator in t.accounts && op.target in t.accounts && AlikeOutcomes(ApplyForcedExit(s, op, w), ApplyForcedExit(t, op, w))
  {
    hide Same, Insert, Payer, GetBalance, Payment, NewBalance, SubBalance;
    AllAlike(s, t, op.initiator);
    AllAlike(s, t, op.target);
    var a, b, c, d := s.accounts[op.initiator], t.accounts[op.initiator], s.accounts[op.target], t.accounts[op.target];
    FundsAlike(a, b, w.token, w.fee);
    FundsAlike(c, d, w.token, op.amount);
    if ApplyForcedExit(s, op, w).Done? {
      var x, y := Payer(a, w.token, w.fee), Payer(b, w.token, w.fee);
      InsertsAlike(s, t, op.initiator, x, y);
      InsertsAlike(Insert(s, op.initiator, x), Insert(t, op.initiator, y), op.target, SubBalance(c, w.token, op.amount), SubBalance(d, w.token, op.amount));
    }
  }

  lemma {:induction false} DepositsAlike(s: Snapshot, t: Snapshot, op: Tx)
    requires op.Deposit? && Same(s, t)
    ensures AlikeOutcomes(ApplyDeposit(s, op), ApplyDeposit(t, op))
  {
    hide Same, Insert, AddBalance, GetBalance, NewBalance;
    AllAlike(s, t, op.account);
    var new_ := NewAccount(op.address);
    assert Alike(new_, new_);
    var a := if op.account in s.accounts then s.accounts[op.account] else new_;
    var b := if op.account in t.accounts then t.accounts[op.account] else new_;
    FundsAlike(a, b, op.token, op.amount);
    InsertsAlike(s, t, op.account, AddBalance(a, op.token, op.amount), AddBalance(b, op.token, op.amount));
  }

  lemma {:induction false} FullExitsAlike(s: Snapshot, t: Snapshot, op: Tx)
    requires op.FullExit? && Same(s, t)
    ensures AlikeOutcomes(ApplyFullExit(s, op), ApplyFullExit(t, op))
  {
    hide Same, Insert, SubBalance, GetBalance, NewBalance;
    AllAlike(s, t, op.account);
    if op.account in s.accounts {
      var a, b := s.accounts[op.account], t.accounts[op.account];
      FundsAlike(a, b, op.token, op.amount);
      if op.amount <= GetBalance(a, op.token) {
        InsertsAlike(s, t, op.account, SubBalance(a, op.token, op.amount), SubBalance(b, op.token, op.amount));
      }
    }
  }

  /** What the creation of an operation looks at. */
  lemma {:induction false} CreatedAlike(s: Snapshot, t: Snapshot, r: Request)
    requires Consistent(s) && Consistent(t) && Same(s, t)
    ensures CreateOp(s, r) == CreateOp(t, r)
  {
    hide GetBalance, PackedNumber;
    AllAlike(s, t, 0);
    match r {
      case SignedRequest(w, _, _) =>
        if w.ForcedExitTx? {
          AllAlike(s, t, w.accountId);
          if w.target in s.ids {
            AllAlike(s, t, s.ids[w.target]);
            HoldsAlike(s.accounts[s.ids[w.target]], t.accounts[s.ids[w.target]], w.token);
          }
        } else if !w.ChangePubKeyTx? {
          if w.fromAddress in s.ids {
            AllAlike(s, t, s.ids[w.fromAddress]);
          }
        }
      case DepositRequest(_, _, _) =>
      case FullExitRequest(id, _, token) =>
        AllAlike(s, t, id);
        if id in s.accounts {
          HoldsAlike(s.accounts[id], t.accounts[id], token);
        }
    }
  }

  lemma {:induction false} Dispatched(s: Snapshot, r: Request)
    requires Consistent(s)
    ensures var c := CreateOp(s, r);
            && (c.Panic? ==> Perform(s, r) == Panicked) && (c.NoOp? ==> Perform(s, r) == Refused)
            && (c.Op? ==>
                  var op := c.op;
                  && NamesAccounts(s, op)
                  && (r.SignedRequest? ==> HasNumbers(op, r.w)) && (!r.SignedRequest? ==> op.Deposit? || op.FullExit?)
                  && (op.Transfer? ==> r.SignedRequest? && r.w.TransferTx? && Perform(s, r) == ApplyTransfer(s, op, r.w))
                  && (op.TransferToNew? ==> r.SignedRequest? && r.w.TransferTx? && Perform(s, r) == ApplyTransferToNew(s, op, r.w))
                  && (op.Withdraw? ==> r.SignedRequest? && r.w.WithdrawTx? && Perform(s, r) == ApplyWithdraw(s, op, r.w))
                  && (op.ChangePubKey? ==> r.SignedRequest? && r.w.ChangePubKeyTx? && Perform(s, r) == ApplyChangePubKey(s, op, r.w))
                  && (op.ForcedExit? ==> r.SignedRequest? && r.w.ForcedExitTx? && Perform(s, r) == ApplyForcedExit(s, op, r.w))
                  && (op.Deposit? ==> Perform(s, r) == ApplyDeposit(s, op))
                  && (op.FullExit? ==> Perform(s, r) == ApplyFullExit(s, op))
                  && !op.Noop?)
  {
    hide Consistent, CreateOp, HasNumbers, ApplyTransfer, ApplyTransferToNew, ApplyWithdraw, ApplyChangePubKey, ApplyForcedExit, ApplyDeposit,
      ApplyFullExit, NamesAccounts;
    if CreateOp(s, r).Op? {
      if !r.SignedRequest? {
        CreatedRequest(s, r);
        ContractNames(s, r);
      } else if r.w.TransferTx? {
        CreatedIsTransfer(s, r);
        CreatedTransfer(s, r.w, r.signer);
        HasNumbersKind(CreateOp(s, r).op, r.w);
        NamesMeans(s, CreateOp(s, r).op);
      } else {
        CreatedOther(s, r);
        HasNumbersKind(CreateOp(s, r).op, r.w);
        NamesMeans(s, CreateOp(s, r).op);
      }
    }
  }

  lemma {:induction false} ContractNames(s: Snapshot, r: Request)
    requires Consistent(s) && !r.SignedRequest? && CreateOp(s, r).Op?
    ensures NamesAccounts(s, CreateOp(s, r).op)
  {
    hide GetBalance;
  }

  /** Equal states answer every request alike: after a rollback the server goes on as if the batch had never come. */
  lemma {:induction false} SameGoOnAlike(s: Snapshot, t: Snapshot, r: Request)
    requires Consistent(s) && Same(s, t)
    ensures Consistent(t) && AlikeOutcomes(Perform(s, r), Perform(t, r))
  {
    hide *;
    SameIsConsistent(s, t);
    CreatedAlike(s, t, r);
    Dispatched(s, r);
    Dispatched(t, r);
    var created := CreateOp(s, r);
    if created.Op? {
      var op := created.op;
      NamesMeans(s, op);
      match op {
        case Transfer(_, _, _, _, _) => TransfersAlike(s, t, op, r.w);
        case TransferToNew(_, _, _, _, _, _) => TransfersToNewAlike(s, t, op, r.w);
        case Withdraw(_, _, _, _, _) => WithdrawalsAlike(s, t, op, r.w);
        case ChangePubKey(_, _, _, _, _, _) => KeyChangesAlike(s, t, op, r.w);
        case ForcedExit(_, _, _, _, _, _) => ForcedExitsAlike(s, t, op, r.w);
        case Deposit(_, _, _, _) => DepositsAlike(s, t, op);
        case FullExit(_, _, _, _) => FullExitsAlike(s, t, op);
        case Noop =>
      }
    } else {
      EndsAlike(Perform(s, r), Perform(t, r));
    }
  }

  lemma {:induction false} EndsAlike(x: Outcome, y: Outcome)
    requires x == y && !x.Done?
    ensures AlikeOutcomes(x, y)
  {
  }
}
