/** The plain ledger behind the account tree, and the proof that each accepted chunk reads and
    writes exactly one entry of it. */
module Ledger {
  import opened Bits
  import opened Common
  import opened Merkle
  import opened Params
  import opened PrimeField
  import opened Witness
  import opened Gadgets
  import opened BlockSpec

  datatype Account = Account(nonce: nat, pubKeyHash: nat, address: nat, balances: seq<nat>)

  const TOKENS: nat := 2048
  const ACCOUNTS: nat := 0x100_0000

  /** All accounts of the used part of the tree, by leaf index; unused accounts are empty. */
  type Accounts = seq<Account>

  predicate GoodAccount(a: Account) {
    && a.nonce <= MAX_NONCE && a.pubKeyHash < ADDRESS_LIMIT && a.address < ADDRESS_LIMIT
    && |a.balances| == TOKENS && Short(a.balances)
  }

  predicate Good(ledger: Accounts) {
    && |ledger| == ACCOUNTS
    && forall i :: 0 <= i < ACCOUNTS ==> GoodAccount(ledger[i])
  }

  lemma {:induction false} Sizes()
    ensures Pow2(BALANCE_TREE_DEPTH) == TOKENS && Pow2(USED_SUBTREE_DEPTH) == ACCOUNTS
    ensures Pow2(ACCOUNT_TREE_DEPTH) == 0x1_0000_0000
  {
    Pow2Sum(8, 256, 3, 8);
    Pow2Sum(16, 0x1_0000, 8, 256);
    Pow2Sum(8, 256, 8, 256);
    Pow2Sum(16, 0x1_0000, 16, 0x1_0000);
  }

  /** The ledger entry a branch is about: only the low 24 bits of its account id count. */
  function Slot(accountId: nat): (i: nat)
    ensures i < ACCOUNTS
  {
    accountId % ACCOUNTS
  }

  function BalanceRoot(balances: seq<nat>): Digest
    requires |balances| == TOKENS
  {
    Sizes();
    Root(BalanceLeaves(balances), BALANCE_TREE_DEPTH)
  }

  function Leaf(a: Account): Digest
    requires |a.balances| == TOKENS
  {
    AccountDigest(a.nonce, a.pubKeyHash, a.address, BalanceRoot(a.balances))
  }

  function Leaves(ledger: Accounts): (leaves: seq<Digest>)
    requires Good(ledger)
    ensures |leaves| == |ledger|
    ensures forall i :: 0 <= i < |leaves| ==> leaves[i] == Leaf(ledger[i])
  {
    seq(|ledger|, i requires 0 <= i < |ledger| => Leaf(ledger[i]))
  }

  function LedgerRoot(ledger: Accounts): Digest
    requires Good(ledger)
  {
    Sizes();
    Root(Leaves(ledger), USED_SUBTREE_DEPTH)
  }

  /** The branch shows the ledger's entry at its slot. */
  predicate Shows(b: Branch, ledger: Accounts)
    requires Good(ledger) && b.token < TOKENS
  {
    var a := ledger[Slot(b.accountId)];
    && b.nonce == a.nonce && b.pubKeyHash == a.pubKeyHash && b.address == a.address
    && b.balance == a.balances[b.token]
  }

  /** The account with the contents of a branch written over it. */
  function Written(b: Branch, a: Account): Account
    requires b.token < |a.balances|
  {
    Account(b.nonce, b.pubKeyHash, b.address, a.balances[b.token := b.balance])
  }

  function Write(ledger: Accounts, b: Branch): Accounts
    requires Good(ledger) && b.token < TOKENS
  {
    ledger[Slot(b.accountId) := Written(b, ledger[Slot(b.accountId)])]
  }

  predicate SamePlace(b: Branch, c: Branch) {
    && b.accountId == c.accountId && b.accountPath == c.accountPath
    && b.token == c.token && b.balancePath == c.balancePath
  }

  predicate InRange(b: Branch) {
    && b.nonce <= MAX_NONCE && b.pubKeyHash < ADDRESS_LIMIT && b.address < ADDRESS_LIMIT
    && b.balance < U128_LIMIT && b.token < TOKENS
    && |b.accountPath| == ACCOUNT_TREE_DEPTH && |b.balancePath| == BALANCE_TREE_DEPTH
  }

  lemma {:induction false} WriteIsGood(ledger: Accounts, b: Branch)
    requires Good(ledger) && InRange(b)
    ensures Good(Write(ledger, b))
  {
  }

  lemma {:induction false} WrittenLeaf(balances: seq<nat>, token: nat, balance: nat)
    requires |balances| == TOKENS && token < TOKENS
    ensures BalanceLeaves(balances)[token := BalanceLeaf(balance)] == BalanceLeaves(balances[token := balance])
  {
  }

  /** A balance path that leads to an account's balance root shows its balance, and leads to the
      updated root when the balance changes. */
  lemma {:induction false} BalancePathSound(b: Branch, balances: seq<nat>)
    requires InRange(b) && |balances| == TOKENS
    requires PathRoot(BalanceLeaf(b.balance), b.token, b.balancePath, BALANCE_TREE_DEPTH) == BalanceRoot(balances)
    ensures b.balance == balances[b.token]
    ensures forall v: nat :: PathRoot(BalanceLeaf(v), b.token, b.balancePath, BALANCE_TREE_DEPTH) == BalanceRoot(balances[b.token := v])
  {
    Sizes();
    hide PathRoot, Root, Pow2;
    assert b.token % TOKENS == b.token;
    PathRootSound(BalanceLeaf(b.balance), b.token, b.balancePath, BALANCE_TREE_DEPTH, BalanceLeaves(balances));
    forall v: nat
      ensures PathRoot(BalanceLeaf(v), b.token, b.balancePath, BALANCE_TREE_DEPTH) == BalanceRoot(balances[b.token := v])
    {
      WrittenLeaf(balances, b.token, v);
    }
  }

  /** The siblings of a balance lead to the account's balance root. */
  lemma {:induction false} BalanceShown(balances: seq<nat>, token: nat)
    requires |balances| == TOKENS && token < TOKENS
    ensures |BalanceLeaves(balances)| == Pow2(BALANCE_TREE_DEPTH)
    ensures PathRoot(BalanceLeaf(balances[token]), token, AuditPath(BalanceLeaves(balances), token, BALANCE_TREE_DEPTH), BALANCE_TREE_DEPTH)
         == BalanceRoot(balances)
  {
    Sizes();
    hide Root, PathRoot, Pow2, AuditPath;
    assert token % TOKENS == token;
    AuditPathLeadsToRoot(BalanceLeaves(balances), token, BALANCE_TREE_DEPTH);
  }

  /** Soundness of `check_account_data`: a branch that leads to the ledger's root shows the ledger's
      entry, and any other contents at the same place lead to the root of the ledger with that one
      entry replaced. */
  lemma {:induction false} BranchSound(b: Branch, after: Branch, ledger: Accounts)
    requires Good(ledger) && InRange(b) && InRange(after) && SamePlace(b, after)
    requires BranchRoot(b, USED_SUBTREE_DEPTH) == LedgerRoot(ledger)
    ensures Shows(b, ledger)
    ensures Good(Write(ledger, after)) && BranchRoot(after, USED_SUBTREE_DEPTH) == LedgerRoot(Write(ledger, after))
  {
    hide Root, PathRoot;
    Sizes();
    var i := Slot(b.accountId);
    PathRootSound(BranchLeaf(b), b.accountId, b.accountPath, USED_SUBTREE_DEPTH, Leaves(ledger));
    assert BranchLeaf(b) == Leaf(ledger[i]);
    BalancePathSound(b, ledger[i].balances);
    WriteIsGood(ledger, after);
    assert BranchLeaf(after) == Leaf(Written(after, ledger[i]));
    assert Leaves(ledger)[i := BranchLeaf(after)] == Leaves(Write(ledger, after));
  }

  /** What one accepted chunk does to the ledger. */
  function ChunkWrite(ledger: Accounts, st: State, op: Operation): Accounts
    requires Good(ledger) && Accepts(st, op)
  {
    Write(ledger, After(st, op))
  }

  lemma {:induction false} AfterInRange(st: State, op: Operation)
    requires Accepts(st, op)
    ensures InRange(Select(op)) && InRange(After(st, op)) && SamePlace(Select(op), After(st, op))
  {
    hide PublishedAs, MessageSigned, BranchRoot, Unpack, FSub, FAdd, IsEmpty;
  }

  /** Each accepted chunk works on the ledger's own entry and moves the root with it. */
  lemma {:induction false} ChunkIsLedgerStep(ledger: Accounts, st: State, op: Operation)
    requires Good(ledger) && Accepts(st, op) && st.root == LedgerRoot(ledger)
    ensures Select(op).token < TOKENS && Shows(Select(op), ledger)
    ensures Good(ChunkWrite(ledger, st, op)) && Next(st, op).root == LedgerRoot(ChunkWrite(ledger, st, op))
  {
    hide Gadgets.Valid, Update, BranchRoot, LedgerRoot, Write, NewHolders, Good;
    AfterInRange(st, op);
    BranchSound(Select(op), After(st, op), ledger);
  }

  /** The ledger after a run of chunks. */
  function RunLedger(ledger: Accounts, st: State, ops: seq<Operation>): Accounts
    requires Good(ledger) && AcceptsAll(st, ops)
    decreases |ops|
  {
    if ops == [] then ledger
    else
      AfterInRange(st, ops[0]);
      WriteIsGood(ledger, After(st, ops[0]));
      RunLedger(ChunkWrite(ledger, st, ops[0]), Next(st, ops[0]), ops[1..])
  }

  /** Over a whole run the rolling root stays the root of the ledger. */
  lemma {:induction false} RunKeepsRoot(ledger: Accounts, st: State, ops: seq<Operation>)
    requires Good(ledger) && AcceptsAll(st, ops) && st.root == LedgerRoot(ledger)
    ensures Good(RunLedger(ledger, st, ops)) && Run(st, ops).root == LedgerRoot(RunLedger(ledger, st, ops))
    decreases |ops|
  {
    hide Accepts, Next, ChunkWrite, LedgerRoot, Good;
    if ops != [] {
      ChunkIsLedgerStep(ledger, st, ops[0]);
      RunKeepsRoot(ChunkWrite(ledger, st, ops[0]), Next(st, ops[0]), ops[1..]);
    }
  }
}
