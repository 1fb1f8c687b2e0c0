/** The server's account state as it is kept: the handlers change it in place, and a batch that fails is rolled back. */
module ServerHandlers {
  import opened Common
  import opened Transactions
  import opened ServerState
  import opened ServerUpdates
  import W = WalletMessages

  class ZkSyncState {
    var balanceTree: map<nat, ServerAccount>
    var accountIdByAddress: map<nat, nat>

    constructor (s: Snapshot)
      ensures Contents() == s
    {
      balanceTree, accountIdByAddress := s.accounts, s.ids;
    }

    function Contents(): Snapshot
      reads this
    {
      Snapshot(balanceTree, accountIdByAddress)
    }

    method InsertAccount(id: nat, account: ServerAccount)
      modifies this
      ensures Contents() == Insert(old(Contents()), id, account)
    {
      accountIdByAddress := accountIdByAddress[account.address := id];
      balanceTree := balanceTree[id := account];
    }

    /** `apply_transfer_op` and `apply_transfer_op_to_self` */
    method ApplyTransferOp(op: Tx, w: W.WalletTx) returns (ok: bool, updates: Updates)
      requires op.Transfer? && w.TransferTx? && op.from in balanceTree && op.to in balanceTree
      modifies this
      ensures !ok ==> ApplyTransfer(old(Contents()), op, w) == Refused && Contents() == old(Contents())
      ensures ok ==> ApplyTransfer(old(Contents()), op, w) == Done(Contents(), op, updates)
    {
      if op.from > MAX_ACCOUNT_ID || op.to > MAX_ACCOUNT_ID {
        return false, [];
      }
      var fromAccount, toAccount := balanceTree[op.from], balanceTree[op.to];
      var oldBalance, oldNonce, toOldBalance := GetBalance(fromAccount, w.token), fromAccount.nonce, GetBalance(toAccount, w.token);
      if w.nonce != oldNonce || oldBalance < w.amount + w.fee {
        return false, [];
      }
      if op.from == op.to {
        fromAccount := SubBalance(fromAccount, w.token, w.fee);
        fromAccount := UseNonce(fromAccount);
        InsertAccount(op.from, fromAccount);
        updates := [(op.from, UpdateBalance(w.token, oldBalance, GetBalance(fromAccount, w.token), oldNonce, fromAccount.nonce))];
      } else {
        fromAccount := SubBalance(fromAccount, w.token, w.amount + w.fee);
        fromAccount := UseNonce(fromAccount);
        toAccount := AddBalance(toAccount, w.token, w.amount);
        InsertAccount(op.from, fromAccount);
        InsertAccount(op.to, toAccount);
        updates := [(op.from, UpdateBalance(w.token, oldBalance, GetBalance(fromAccount, w.token), oldNonce, fromAccount.nonce)),
                    (op.to, UpdateBalance(w.token, toOldBalance, GetBalance(toAccount, w.token), toAccount.nonce, toAccount.nonce))];
      }
      ok := true;
    }

    /** `apply_transfer_to_new_op`; without a result it panicked. */
    method ApplyTransferToNewOp(op: Tx, w: W.WalletTx) returns (r: Option<bool>, updates: Updates)
      requires op.TransferToNew? && w.TransferTx? && op.from in balanceTree
      modifies this
      ensures r == None ==> ApplyTransferToNew(old(Contents()), op, w) == Panicked
      ensures r == Some(false) ==> ApplyTransferToNew(old(Contents()), op, w) == Refused && Contents() == old(Contents())
      ensures r == Some(true) ==> ApplyTransferToNew(old(Contents()), op, w) == Done(Contents(), op, updates)
    {
      if op.from > MAX_ACCOUNT_ID || op.to > MAX_ACCOUNT_ID {
        return Some(false), [];
      }
      if op.to in balanceTree {
        return None, [];
      }
      var toAccount, fromAccount := NewAccount(w.toAddress), balanceTree[op.from];
      updates := [(op.to, Update.Create(w.toAddress, 0))];
      var oldBalance, oldNonce := GetBalance(fromAccount, w.token), fromAccount.nonce;
      if w.nonce != oldNonce || oldBalance < w.amount + w.fee {
        return Some(false), [];
      }
      fromAccount := SubBalance(fromAccount, w.token, w.amount + w.fee);
      fromAccount := UseNonce(fromAccount);
      var toOldBalance := GetBalance(toAccount, w.token);
      toAccount := AddBalance(toAccount, w.token, w.amount);
      InsertAccount(op.from, fromAccount);
      InsertAccount(op.to, toAccount);
      updates := updates + [(op.from, UpdateBalance(w.token, oldBalance, GetBalance(fromAccount, w.token), oldNonce, fromAccount.nonce))];
      updates := updates + [(op.to, UpdateBalance(w.token, toOldBalance, GetBalance(toAccount, w.token), toAccount.nonce, toAccount.nonce))];
      r := Some(true);
    }

    method ApplyWithdrawOp(op: Tx, w: W.WalletTx) returns (ok: bool, updates: Updates)
      requires op.Withdraw? && w.WithdrawTx? && op.account in balanceTree
      modifies this
      ensures !ok ==> ApplyWithdraw(old(Contents()), op, w) == Refused && Contents() == old(Contents())
      ensures ok ==> ApplyWithdraw(old(Contents()), op, w) == Done(Contents(), op, updates)
    {
      if op.account > MAX_ACCOUNT_ID {
        return false, [];
      }
      var fromAccount := balanceTree[op.account];
      var oldBalance, oldNonce := GetBalance(fromAccount, w.token), fromAccount.nonce;
      if w.nonce != oldNonce || oldBalance < w.amount + w.fee {
        return false, [];
      }
      fromAccount := SubBalance(fromAccount, w.token, w.amount + w.fee);
      fromAccount := UseNonce(fromAccount);
      InsertAccount(op.account, fromAccount);
      updates := [(op.account, UpdateBalance(w.token, oldBalance, GetBalance(fromAccount, w.token), oldNonce, fromAccount.nonce))];
      ok := true;
    }

    /** The nonce and the key are changed on the copy before the balance is checked. */
    method ApplyChangePubKeyOp(op: Tx, w: W.WalletTx) returns (ok: bool, updates: Updates)
      requires op.ChangePubKey? && w.ChangePubKeyTx? && op.account in balanceTree
      modifies this
      ensures !ok ==> ApplyChangePubKey(old(Contents()), op, w) == Refused && Contents() == old(Contents())
      ensures ok ==> ApplyChangePubKey(old(Contents()), op, w) == Done(Contents(), op, updates)
    {
      var account := balanceTree[op.account];
      var oldBalance, oldKey, oldNonce := GetBalance(account, w.token), account.pubKeyHash, account.nonce;
      if w.nonce != oldNonce {
        return false, [];
      }
      account := UseNonce(account);
      account := account.(pubKeyHash := w.newPkHash);
      if oldBalance < w.fee {
        return false, [];
      }
      account := SubBalance(account, w.token, w.fee);
      InsertAccount(op.account, account);
      updates := [(op.account, ChangePubKeyHash(oldKey, account.pubKeyHash, oldNonce, account.nonce)),
                  (op.account, UpdateBalance(w.token, oldBalance, GetBalance(account, w.token), account.nonce, account.nonce))];
      ok := true;
    }

    method ApplyForcedExitOp(op: Tx, w: W.WalletTx) returns (ok: bool, updates: Updates)
      requires op.ForcedExit? && w.ForcedExitTx? && op.initiator in balanceTree && op.target in balanceTree
      modifies this
      ensures !ok ==> ApplyForcedExit(old(Contents()), op, w) == Refused && Contents() == old(Contents())
      ensures ok ==> ApplyForcedExit(old(Contents()), op, w) == Done(Contents(), op, updates)
    {
      if op.initiator > MAX_ACCOUNT_ID {
        return false, [];
      }
      var initiatorAccount, targetAccount := balanceTree[op.initiator], balanceTree[op.target];
      var oldBalance, oldNonce := GetBalance(initiatorAccount, w.token), initiatorAccount.nonce;
      if w.nonce != oldNonce || oldBalance < w.fee {
        return false, [];
      }
      var targetOldBalance := GetBalance(targetAccount, w.token);
      if targetOldBalance != op.amount {
        return false, [];
      }
      initiatorAccount := SubBalance(initiatorAccount, w.token, w.fee);
      initiatorAccount := UseNonce(initiatorAccount);
      targetAccount := SubBalance(targetAccount, w.token, op.amount);
      InsertAccount(op.initiator, initiatorAccount);
      InsertAccount(op.target, targetAccount);
      updates := [(op.initiator, UpdateBalance(w.token, oldBalance, GetBalance(initiatorAccount, w.token), oldNonce, initiatorAccount.nonce)),
                  (op.target, UpdateBalance(w.token, targetOldBalance, GetBalance(targetAccount, w.token), targetAccount.nonce, targetAccount.nonce))];
      ok := true;
    }

    method ApplyDepositOp(op: Tx) returns (updates: Updates)
      requires op.Deposit?
      modifies this
      ensures ApplyDeposit(old(Contents()), op) == Done(Contents(), op, updates)
    {
      var account := NewAccount(op.address);
      if op.account in balanceTree {
        account, updates := balanceTree[op.account], [];
      } else {
        updates := [(op.account, Update.Create(op.address, 0))];
      }
      var oldBalance := GetBalance(account, op.token);
      account := AddBalance(account, op.token, op.amount);
      InsertAccount(op.account, account);
      updates := updates + [(op.account, UpdateBalance(op.token, oldBalance, GetBalance(account, op.token), account.nonce, account.nonce))];
    }

    /** Without `ok` the assertion on the new balance failed. */
    method ApplyFullExitOp(op: Tx) returns (ok: bool, updates: Updates)
      requires op.FullExit?
      modifies this
      ensures !ok ==> ApplyFullExit(old(Contents()), op) == Panicked
      ensures ok ==> ApplyFullExit(old(Contents()), op) == Done(Contents(), op, updates)
    {
      if op.account !in balanceTree || balanceTree[op.account].address != op.ethAddress {
        return true, [];
      }
      var account := balanceTree[op.account];
      var oldBalance := GetBalance(account, op.token);
      if op.amount != oldBalance {
        return false, [];
      }
      account := SubBalance(account, op.token, op.amount);
      InsertAccount(op.account, account);
      updates := [(op.account, UpdateBalance(op.token, oldBalance, GetBalance(account, op.token), account.nonce, account.nonce))];
      ok := true;
    }

    method CollectFee(fees: seq<(nat, nat)>, feeAccount: nat) returns (updates: Updates)
      requires feeAccount in balanceTree
      modifies this
      ensures Contents() == Insert(old(Contents()), feeAccount, WithFees(old(balanceTree[feeAccount]), fees))
      ensures updates == FeeUpdates(feeAccount, old(balanceTree[feeAccount]), fees)
    {
      updates := [];
      var account := balanceTree[feeAccount];
      for i := 0 to |fees|
        invariant WithFees(account, fees[i..]) == WithFees(balanceTree[feeAccount], fees) && Contents() == old(Contents())
        invariant updates + FeeUpdates(feeAccount, account, fees[i..]) == FeeUpdates(feeAccount, balanceTree[feeAccount], fees)
      {
        assert fees[i..][0] == fees[i] && fees[i..][1..] == fees[i + 1..];
        var (token, amount) := fees[i];
        if amount == 0 {
          continue;
        }
        var oldAmount, nonce := GetBalance(account, token), account.nonce;
        account := AddBalance(account, token, amount);
        updates := updates + [(feeAccount, UpdateBalance(token, oldAmount, GetBalance(account, token), nonce, nonce))];
      }
      InsertAccount(feeAccount, account);
    }

    /** `apply_tx`; without a result it panicked. */
    method ApplyTx(r: Request) returns (result: Option<Option<Success>>)
      requires Consistent(Contents())
      modifies this
      ensures result == None ==> Perform(old(Contents()), r) == Panicked
      ensures result == Some(None) ==> Perform(old(Contents()), r) == Refused && Contents() == old(Contents())
      ensures result.Some? && result.value.Some? ==>
                Perform(old(Contents()), r) == Done(Contents(), result.value.value.op, result.value.value.updates)
    {
      var created := CreateOp(Contents(), r);
      if created.Panic? {
        return None;
      }
      if created.NoOp? {
        return Some(None);
      }
      var op, ok, updates := created.op, true, [];
      hide Consistent;
      match op {
        case Transfer(_, _, _, _, _) => ok, updates := ApplyTransferOp(op, r.w);
        case TransferToNew(_, _, _, _, _, _) =>
          var done;
          done, updates := ApplyTransferToNewOp(op, r.w);
          if done.None? {
            return None;
          }
          ok := done.value;
        case Withdraw(_, _, _, _, _) => ok, updates := ApplyWithdrawOp(op, r.w);
        case ChangePubKey(_, _, _, _, _, _) => ok, updates := ApplyChangePubKeyOp(op, r.w);
        case ForcedExit(_, _, _, _, _, _) => ok, updates := ApplyForcedExitOp(op, r.w);
        case Deposit(_, _, _, _) => updates := ApplyDepositOp(op);
        case FullExit(_, _, _, _) =>
          var fine;
          fine, updates := ApplyFullExitOp(op);
          if !fine {
            return None;
          }
        case Noop => ok := false;
      }
      result := Some(if ok then Some(Success(op, updates)) else None);
    }

    method RemoveAccount(id: nat)
      requires id in balanceTree
      modifies this
      ensures Contents() == Remove(old(Contents()), id)
    {
      accountIdByAddress := accountIdByAddress - {balanceTree[id].address};
      balanceTree := balanceTree - {id};
    }

    /** Without `ok` an assertion failed. */
    method ApplyAccountUpdates(updates: Updates) returns (ok: bool)
      modifies this
      ensures ok <==> ApplyUpdates(old(Contents()), updates).Some?
      ensures ok ==> ApplyUpdates(old(Contents()), updates) == Some(Contents())
    {
      for i := 0 to |updates|
        invariant ApplyUpdates(Contents(), updates[i..]) == ApplyUpdates(old(Contents()), updates)
      {
        assert updates[i..][0] == updates[i] && updates[i..][1..] == updates[i + 1..];
        var (id, update) := updates[i];
        match update {
          case Create(address, nonce) =>
            if address in accountIdByAddress {
              return false;
            }
            var account := NewAccount(address);
            account := account.(nonce := nonce);
            InsertAccount(id, account);
          case Delete(address, nonce) =>
            if id !in balanceTree || balanceTree[id].address != address || balanceTree[id].nonce != nonce {
              return false;
            }
            RemoveAccount(id);
          case UpdateBalance(token, oldBalance, newBalance, oldNonce, newNonce) =>
            if id !in balanceTree || GetBalance(balanceTree[id], token) != oldBalance || balanceTree[id].nonce != oldNonce {
              return false;
            }
            var account := balanceTree[id];
            account := account.(balances := account.balances[token := newBalance]);
            account := account.(nonce := newNonce);
            InsertAccount(id, account);
          case ChangePubKeyHash(oldKey, newKey, oldNonce, newNonce) =>
            if id !in balanceTree || balanceTree[id].pubKeyHash != oldKey || balanceTree[id].nonce != oldNonce {
              return false;
            }
            var account := balanceTree[id];
            account := account.(pubKeyHash := newKey);
            account := account.(nonce := newNonce);
            InsertAccount(id, account);
        }
      }
      ok := true;
    }

    /** The successes are undone, the last one first. */
    method RollBackAll(successes: seq<Success>) returns (ok: bool)
      modifies this
      ensures ok <==> RollBack(old(Contents()), successes).Some?
      ensures ok ==> RollBack(old(Contents()), successes) == Some(Contents())
    {
      var j := |successes|;
      assert successes[..j] == successes;
      while j > 0
        invariant 0 <= j <= |successes|
        invariant RollBack(old(Contents()), successes) == RollBack(Contents(), successes[..j])
      {
        j := j - 1;
        RollBackLast(Contents(), successes[..j], successes[j]);
        assert successes[..j] + [successes[j]] == successes[..j + 1];
        var updates := ReverseUpdates(successes[j].updates);
        ok := ApplyAccountUpdates(updates);
        if !ok {
          return;
        }
      }
      ok := true;
    }

    /** The successes, or nothing inside when each transaction got the error; without a result it panicked. */
    method ExecuteTxsBatch(txs: seq<Request>) returns (result: Option<Option<seq<Success>>>)
      requires Consistent(Contents())
      modifies this
      ensures result == None ==> ExecuteBatch(old(Contents()), txs) == BatchPanicked
      ensures result == Some(None) ==> ExecuteBatch(old(Contents()), txs) == BatchRefused(Contents())
      ensures result.Some? && result.value.Some? ==> ExecuteBatch(old(Contents()), txs) == BatchDone(Contents(), result.value.value)
    {
      var successes: seq<Success> := [];
      ghost var before := Contents();
      FollowsFirst(before, txs);
      for i := 0 to |txs|
        invariant Follows(before, txs, Contents(), txs[i..], successes)
      {
        FollowsNext(before, txs, Contents(), txs[i..], successes);
        assert txs[i..][0] == txs[i] && txs[i..][1..] == txs[i + 1..];
        var r := ApplyTx(txs[i]);
        if r.None? {
          return None;
        }
        if r.value.None? {
          var ok := RollBackAll(successes);
          return if ok then Some(None) else None;
        }
        successes := successes + [r.value.value];
      }
      FollowsLast(before, txs, Contents(), successes);
      result := Some(Some(successes));
    }
  }
}
