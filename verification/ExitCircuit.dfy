/** The exit circuit: a claim about one balance, checked against the root of the whole state. */
module ExitCircuit {
  import opened Bits
  import opened Merkle
  import opened Params
  import opened PrimeField
  import opened Witness
  import opened BlockSpec
  import opened Ledger
  import opened Transactions
  import opened Soundness
  import opened ZkSyncCircuit

  /** The public input: a hash over exactly these values. */
  datatype Claim = Claim(root: Digest, accountId: nat, address: nat, token: nat, balance: nat)

  predicate ExitAccepted(root: Digest, branch: Branch, commitment: Claim) {
    && BranchAllocated(branch) && BranchRoot(branch, ACCOUNT_TREE_DEPTH) == root
    && commitment == Claim(root, branch.accountId, branch.address, branch.token, branch.balance)
  }

  /** `synthesize` of the exit circuit */
  method Synthesize(root: Digest, accountAuditData: Branch, publicDataCommitment: Claim) returns (accepted: bool)
    ensures accepted <==> ExitAccepted(root, accountAuditData, publicDataCommitment)
  {
    if !BranchAllocated(accountAuditData) {
      return false;
    }
    var branch := accountAuditData;
    var stateRoot := CheckAccountData(branch, ACCOUNT_TREE_DEPTH);
    var finalHash := Claim(root, branch.accountId, branch.address, branch.token, branch.balance);
    accepted := stateRoot == root && publicDataCommitment == finalHash;
  }

  /** The state has an account for every 32-bit id; those beyond the used part are empty. */
  function AccountAt(ledger: Accounts, id: nat): (a: Account)
    requires Good(ledger)
    ensures GoodAccount(a)
  {
    if id < ACCOUNTS then ledger[id] else Account(0, 0, 0, seq(TOKENS, _ => 0))
  }

  function AllLeaves(ledger: Accounts): (leaves: seq<Digest>)
    requires Good(ledger)
    ensures |leaves| == Pow2(ACCOUNT_TREE_DEPTH)
    ensures FullTreeRoot(ledger) == Root(leaves, ACCOUNT_TREE_DEPTH)
  {
    Sizes();
    Leaves(ledger) + Repeat(EMPTY_ACCOUNT, Pow2(ACCOUNT_TREE_DEPTH) - ACCOUNTS)
  }

  lemma {:induction false} LeafAt(ledger: Accounts, id: nat)
    requires Good(ledger) && id < 0x1_0000_0000
    ensures |AllLeaves(ledger)| == 0x1_0000_0000 && AllLeaves(ledger)[id] == Leaf(AccountAt(ledger, id))
  {
    Sizes();
    hide Root, EmptyRoot, Pow2;
    if id >= ACCOUNTS {
      EmptyRootIsRoot(BalanceLeaf(0), BALANCE_TREE_DEPTH);
      assert BalanceLeaves(seq(TOKENS, _ => 0)) == Repeat(BalanceLeaf(0), TOKENS);
      assert Leaf(AccountAt(ledger, id)) == EMPTY_ACCOUNT;
    }
  }

  /** The claim is what the ledger says about that account and token. */
  predicate ClaimsTruth(c: Claim, ledger: Accounts)
    requires Good(ledger)
  {
    && c.accountId < 0x1_0000_0000 && c.token < TOKENS
    && c.address == AccountAt(ledger, c.accountId).address
    && c.balance == AccountAt(ledger, c.accountId).balances[c.token]
  }

  /** Soundness: a branch accepted against a ledger's root shows the ledger's account. */
  lemma {:induction false} ExitIsSound(branch: Branch, commitment: Claim, ledger: Accounts)
    requires Good(ledger) && ExitAccepted(FullRoot(LedgerRoot(ledger)), branch, commitment)
    ensures ClaimsTruth(commitment, ledger)
  {
    var id, a := branch.accountId, AccountAt(ledger, branch.accountId);
    FullRootIsTreeRoot(ledger);
    LeafAt(ledger, id);
    Sizes();
    hide Root, PathRoot, Pow2, LedgerRoot, FullRoot, FullTreeRoot;
    assert id % 0x1_0000_0000 == id;
    PathRootSound(BranchLeaf(branch), id, branch.accountPath, ACCOUNT_TREE_DEPTH, AllLeaves(ledger));
    assert BranchLeaf(branch) == Leaf(a);
    BalancePathSound(branch, a.balances);
  }

  /** The branch an honest prover shows. */
  function AuditBranch(ledger: Accounts, id: nat, token: nat): (b: Branch)
    requires Good(ledger) && token < TOKENS
    ensures |b.balancePath| == BALANCE_TREE_DEPTH && |b.accountPath| == ACCOUNT_TREE_DEPTH
  {
    Sizes();
    var a := AccountAt(ledger, id);
    Branch(a.nonce, a.pubKeyHash, a.address, id, AuditPath(AllLeaves(ledger), id, ACCOUNT_TREE_DEPTH),
           a.balances[token], token, AuditPath(BalanceLeaves(a.balances), token, BALANCE_TREE_DEPTH))
  }

  lemma {:induction false} AuditLeaf(ledger: Accounts, id: nat, token: nat)
    requires Good(ledger) && id < 0x1_0000_0000 && token < TOKENS
    ensures var b := AuditBranch(ledger, id, token); BranchAllocated(b) && BranchLeaf(b) == Leaf(AccountAt(ledger, id))
  {
    BalanceShown(AccountAt(ledger, id).balances, token);
    hide Root, PathRoot, Pow2, AuditPath, AllLeaves;
  }

  /** Completeness: every account can prove every one of its balances. */
  lemma {:induction false} ExitIsComplete(c: Claim, ledger: Accounts)
    requires Good(ledger) && c.root == FullRoot(LedgerRoot(ledger)) && ClaimsTruth(c, ledger)
    ensures ExitAccepted(c.root, AuditBranch(ledger, c.accountId, c.token), c)
  {
    var id, a, b := c.accountId, AccountAt(ledger, c.accountId), AuditBranch(ledger, c.accountId, c.token);
    FullRootIsTreeRoot(ledger);
    LeafAt(ledger, id);
    Sizes();
    AuditLeaf(ledger, id, c.token);
    hide Root, PathRoot, Pow2, LedgerRoot, FullRoot, FullTreeRoot, AuditPath, AllLeaves, BranchLeaf, Leaf, GoodAccount, BranchAllocated;
    assert id % 0x1_0000_0000 == id;
    AuditPathLeadsToRoot(AllLeaves(ledger), id, ACCOUNT_TREE_DEPTH);
  }

  /** Exits and blocks agree. After an accepted block, a claim against the block's new root can be
      proved exactly when it states the balance of the executed ledger; an id beyond the used part of
      the tree proves only an empty account. */
  lemma {:induction false} ExitsProveTheLedger(block: Block, commitment: Commitment, ledger: Accounts, c: Claim)
    requires BlockAccepted(block, commitment) && |block.ops| < 0x1_0000_0000_0000_0000
    requires Good(ledger) && block.oldRoot == FullRoot(LedgerRoot(ledger)) && c.root == commitment.newRoot
    ensures CanExecuteAll(TxsOf(block.ops), ledger) && Good(LedgerAfter(block, ledger))
    ensures (exists branch :: ExitAccepted(c.root, branch, c)) <==> ClaimsTruth(c, LedgerAfter(block, ledger))
  {
    LedgerSoundness(block, commitment, ledger);
    hide *;
    var after := LedgerAfter(block, ledger);
    if branch :| ExitAccepted(c.root, branch, c) {
      ExitIsSound(branch, c, after);
    }
    if ClaimsTruth(c, after) {
      ExitIsComplete(c, after);
    }
  }
}
