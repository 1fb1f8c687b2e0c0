/** One block as a run over its chunks: the specification the circuit is proved against. */
module BlockSpec {
  import opened Bits
  import opened Common
  import opened Merkle
  import opened Params
  import opened PrimeField
  import opened Witness
  import opened Gadgets

  /** What `synthesize` carries from chunk to chunk. */
  datatype State = State(
    root: Digest, nextChunk: nat, lastChunk: bool, lastToken: nat, fees: seq<nat>,
    prev: Args, holders: seq<seq<nat>>, published: seq<bool>)

  function HolderSize(txType: nat): nat {
    if txType == NOOP || txType == CLOSE then 0 else if txType == TRANSFER then 1 else 2
  }

  function Initial(root: Digest): State {
    State(root, 0, false, 0, Repeat(0, PROCESSABLE_TOKENS), NO_ARGS,
          seq(TX_TYPES, (t: nat) => Repeat(0, HolderSize(t))), [])
  }

  predicate IsLast(op: Operation) {
    op.chunk == Chunks(op.txType) - 1
  }

  function Holder(st: State, txType: nat): seq<nat> {
    if txType < |st.holders| then st.holders[txType] else []
  }

  /** The branch after the chunk's own gadget ran on the selected branch. */
  function After(st: State, op: Operation): (r: Branch)
    ensures r.accountId == Select(op).accountId && r.accountPath == Select(op).accountPath
    ensures r.token == Select(op).token && r.balancePath == Select(op).balancePath
  {
    Update(op, Select(op), Holder(st, op.txType))
  }

  /** The constraints of a chunk that do not depend on its gadget. */
  predicate Opens(st: State, op: Operation) {
    && Allocated(op)
    && op.chunk == st.nextChunk
    && BranchRoot(Select(op), USED_SUBTREE_DEPTH) == st.root
    && op.lhs.token == op.rhs.token && FSub(PROCESSABLE_TOKENS, op.lhs.token) < 2048
    && (op.args.SameAs(st.prev) || First(op))
    && Geq(op.args)
  }

  /** All constraints of one chunk hold. */
  predicate Accepts(st: State, op: Operation) {
    && Opens(st, op)
    && IsGadget(op.txType) && Valid(op, Select(op), Holder(st, op.txType))
    && Fits(After(st, op))
  }

  function FeeToken(st: State, op: Operation): nat {
    if First(op) then Select(op).token else st.lastToken
  }

  function CollectFee(fees: seq<nat>, token: nat, fee: nat): (r: seq<nat>)
    ensures |r| == |fees|
  {
    if token < |fees| then fees[token := FAdd(fees[token], fee)] else fees
  }

  /** The holders after a chunk: every gadget stores the data it would publish for this chunk, also
      the gadgets the chunk's type does not select. The no-op keeps nothing. */
  function NewHolders(op: Operation): (hs: seq<seq<nat>>)
    ensures |hs| == TX_TYPES
  {
    seq(TX_TYPES, (t: nat) => if t == NOOP || t == CLOSE then [] else MultiPack(Pubdata(t, op)))
  }

  /** The state once the chunk left the branch `after`, before the arguments and holders are
      replaced. */
  function Closed(st: State, op: Operation, after: Branch): State
    requires |after.balancePath| == BALANCE_TREE_DEPTH && |after.accountPath| == ACCOUNT_TREE_DEPTH
  {
    var token := FeeToken(st, op);
    st.(root := BranchRoot(after, USED_SUBTREE_DEPTH),
        nextChunk := if IsLast(op) then 0 else FAdd(op.chunk, 1),
        lastChunk := IsLast(op),
        lastToken := token,
        fees := if IsLast(op) then CollectFee(st.fees, token, op.args.Fee()) else st.fees,
        published := st.published + BitsLE(op.pubdataChunk, CHUNK_WIDTH))
  }

  function Next(st: State, op: Operation): State
    requires Accepts(st, op)
  {
    Closed(st, op, After(st, op)).(prev := op.args, holders := NewHolders(op))
  }

  predicate AcceptsAll(st: State, ops: seq<Operation>)
    decreases |ops|
  {
    ops == [] || (Accepts(st, ops[0]) && AcceptsAll(Next(st, ops[0]), ops[1..]))
  }

  function Run(st: State, ops: seq<Operation>): State
    requires AcceptsAll(st, ops)
    decreases |ops|
  {
    if ops == [] then st else Run(Next(st, ops[0]), ops[1..])
  }

  // ----- the whole block

  datatype Validator = Validator(
    id: nat, nonce: nat, pubKeyHash: nat, address: nat, balances: seq<nat>, path: seq<Digest>)

  /** `balances` has an entry for every token, the ones that are not processable being zero. */
  predicate ValidatorAllocated(v: Validator) {
    && v.id < 0x1_0000_0000 && v.nonce <= MAX_NONCE && v.pubKeyHash < ADDRESS_LIMIT && v.address < ADDRESS_LIMIT
    && |v.balances| == PROCESSABLE_TOKENS && |v.path| == USED_SUBTREE_DEPTH
  }

  function BalanceLeaves(balances: seq<nat>): (leaves: seq<Digest>)
    ensures |leaves| == |balances|
    ensures forall i :: 0 <= i < |leaves| ==> leaves[i] == BalanceLeaf(balances[i])
  {
    seq(|balances|, i requires 0 <= i < |balances| => BalanceLeaf(balances[i]))
  }

  predicate Short(balances: seq<nat>) {
    forall i :: 0 <= i < |balances| ==> balances[i] < U128_LIMIT
  }

  /** The balance root of an account that holds only processable tokens. */
  function ProcessableRoot(balances: seq<nat>): Digest
    requires |balances| == PROCESSABLE_TOKENS
  {
    assert Pow2(BALANCE_TREE_DEPTH) == 2048;
    Root(BalanceLeaves(balances) + Repeat(BalanceLeaf(0), 2048 - PROCESSABLE_TOKENS), BALANCE_TREE_DEPTH)
  }

  function ValidatorRoot(v: Validator, balances: seq<nat>): Digest
    requires |balances| == PROCESSABLE_TOKENS && |v.path| == USED_SUBTREE_DEPTH
  {
    PathRoot(AccountDigest(v.nonce, v.pubKeyHash, v.address, ProcessableRoot(balances)), v.id, v.path, USED_SUBTREE_DEPTH)
  }

  function AddFees(balances: seq<nat>, fees: seq<nat>): (r: seq<nat>)
    requires |balances| == |fees|
    ensures |r| == |balances|
    ensures forall i :: 0 <= i < |r| ==> r[i] == FAdd(balances[i], fees[i])
  {
    seq(|balances|, i requires 0 <= i < |balances| => FAdd(balances[i], fees[i]))
  }

  /** The empty account leaf: nothing set, all balances zero. */
  const EMPTY_ACCOUNT: Digest := AccountDigest(0, 0, 0, EmptyRoot(BalanceLeaf(0), BALANCE_TREE_DEPTH))

  /** The root of the 32-level tree whose leftmost 24-level subtree has the given root. */
  function FullRoot(subroot: Digest): Digest {
    ContinueLeftmost(subroot, EMPTY_ACCOUNT, USED_SUBTREE_DEPTH, ACCOUNT_TREE_DEPTH)
  }

  /** The public input: a hash over exactly these five values. */
  datatype Commitment = Commitment(blockNumber: nat, validator: nat, oldRoot: Digest, newRoot: Digest, pubdata: seq<bool>)

  datatype Block = Block(
    number: nat, oldRoot: Digest, initialSubroot: Digest, validator: Validator, ops: seq<Operation>)

  predicate FeesCredited(root: Digest, v: Validator, fees: seq<nat>)
    requires |fees| == PROCESSABLE_TOKENS
  {
    && ValidatorAllocated(v)
    && Short(v.balances) && ValidatorRoot(v, v.balances) == root
    && Short(AddFees(v.balances, fees))
  }

  lemma {:induction false} RunKeepsSizes(st: State, ops: seq<Operation>)
    requires AcceptsAll(st, ops) && |st.fees| == PROCESSABLE_TOKENS && |st.holders| == TX_TYPES
    ensures |Run(st, ops).fees| == PROCESSABLE_TOKENS && |Run(st, ops).holders| == TX_TYPES
    decreases |ops|
  {
    if ops != [] {
      RunKeepsSizes(Next(st, ops[0]), ops[1..]);
    }
  }

  function Final(block: Block): (st: State)
    requires AcceptsAll(Initial(block.initialSubroot), block.ops)
    ensures |st.fees| == PROCESSABLE_TOKENS
  {
    RunKeepsSizes(Initial(block.initialSubroot), block.ops);
    Run(Initial(block.initialSubroot), block.ops)
  }

  /** The root after the fees are credited to the validator. */
  function NewRoot(block: Block): Digest
    requires AcceptsAll(Initial(block.initialSubroot), block.ops)
    requires ValidatorAllocated(block.validator)
  {
    FullRoot(ValidatorRoot(block.validator, AddFees(block.validator.balances, Final(block).fees)))
  }

  predicate BlockAccepted(block: Block, commitment: Commitment) {
    && block.number < 0x1_0000_0000
    && FullRoot(block.initialSubroot) == block.oldRoot
    && AcceptsAll(Initial(block.initialSubroot), block.ops)
    && var st := Final(block);
       && st.lastChunk
       && FeesCredited(st.root, block.validator, st.fees)
       && commitment == Commitment(block.number, block.validator.id, block.oldRoot, NewRoot(block), st.published)
  }
}
