# zkSync rollup: circuit, floats, restoration and protocols

A Dafny model of the parts of the zkSync repository on which the safety of the rollup rests, with proofs of what they
are for. `dafny verify dfyconfig.toml` checks the whole project.

## What is modelled

**The block circuit** (`Bits`, `Merkle`, `Params`, `Decimal`, `Witness`, `Gadgets`, `BlockSpec`, `CircuitUtils`,
`ZkSyncCircuit`). `ZkSyncCircuit.Circuit` is the circuit as a checker: a class with the rolling root, the fee vector,
the remembered token, the previous arguments and the publication holders as fields, eight gadget methods that change
one shared branch, and `Synthesize` as the loop over the chunks. It is proved to accept exactly the blocks of
`BlockSpec.BlockAccepted`. The Rescue and SHA-256 hashes are symbolic: digests are values of a datatype and hashing is
its constructor, so equal hashes mean equal contents. Numbers are natural numbers below the field modulus with
explicit reductions; a fixed-length decomposition is a bound that has to hold.

**What acceptance means** (`Grammar`, `Ledger`, `Transactions`, `Execution`, `Soundness`, `Acceptance`, `Blocks`,
`Unread`, `Prover`, `Completeness`). `Transactions` is a plain account ledger with no chunks, hashes or field
arithmetic. `Soundness.LedgerSoundness` says that an accepted block over the root of a ledger executes its
transactions on that ledger, credits exactly their fees, and publishes exactly their data. `Blocks.BlockAcceptedIff`
is the exact converse: what the witness of an accepted block shows, and nothing more is asked of it; `Unread` says
which arguments nobody reads. `Prover` is the witness the prover builds, which is accepted, and
`Completeness.AcceptedIffExecutable` says which lists of transactions have an accepted block.

**What follows for value and signatures** (`Conservation`, `Messages`, `Nonces`, `Replay`, `Amounts`,
`WalletMessages`, `Signer`). The exact balance sheet of a block, and when it is a conservation law; what a signed
message determines of its operation; how nonces move, and exactly when a signed message can be used twice.
`WalletMessages` composes the bytes that a wallet signs, as the server does, and shows that what is signed is what is
done; `Signer` shows that the JavaScript library signs the same bytes.

**From the server to the commitment** (`ServerState`, `ServerHandlers`, `ServerCircuit`, `ServerBlocks`). The server's
account state with the handlers of all requests, exactly when the circuit executes what the server executed with the
same result, and the block theorem: the prover's witness for a block of the server is accepted, and commits to the
root of the server's own state.

**What follows for the server** (`ServerValue`, `ServerUpdates`, `ServerJournal`). From genesis on the server holds of
each token exactly what was deposited and did not leave. The updates it records lead from each state to the next and,
reversed, back, and exactly when a batch that fails leaves no trace. The mempool that is told of them follows the
server, and turns away for its nonce nothing that the server would execute.

**What follows for users and observers** (`ExitCircuit`, `RollupOps`, `DataAvailability`, `BlockEvents`,
`DataRestore`, `HeadFalls`, `Recovery`, `Restoration`). The exit circuit proves exactly the entries of the executed
ledger. The published bytes are read back as exactly the executed transactions and determine the new ledger. The
restoration, polling the contract's logs in windows, processes each verified block once, with the commit transaction
that stands. `HeadFalls` says exactly what heads that fall back do to it, and `Recovery` exactly which restarts it
survives, also after a stop between two writes of a round.

**Packed decimal floats** (`FloatConversions`, `FloatRoundTrip`, `SdkUtils`). The Rust encoder on bounded 128-bit
numbers, the TypeScript encoder by repeated division, both decoders, and how they relate.

**Protocols around the chain** (`Mempool`, `MempoolAccounts`, `TxQueue`, `EthSender`, `SenderRuns`,
`WitnessGenerator`). State machines over requests, replies of Ethereum and interleavings: what every run keeps, what
it adds up to, and that it makes progress.

Each class has a `Contents` function; its methods are proved to move the contents as the functions of the same module
say, and the theorems are about those functions.

## Where the code does less than it seems

- A key change whose published nonce is not the account's is still valid
  (`zksync/core/lib/circuit/src/circuit.rs:1584-1603`): its fee is collected although nobody pays it. `Conservation`
  makes this an entry of the balance sheet, says exactly when it is zero, and
  `Completeness.SomeAcceptedBlockMintsAFee` gives an accepted block.
- Such a key change uses no nonce, so its signed message can be used again, and its fee collected again
  (`Replay.SomeAcceptedBlockRepeatsAMessage`). No other signed operation can be repeated: `Replay.CanRepeatIff`.
- A transfer to a new account overwrites whatever balance the empty account had
  (`zksync/core/lib/circuit/src/circuit.rs:1896-1920`), and the new address may be zero, which leaves the account
  empty but not empty-handed. `Conservation.NothingOverwrittenIff` says exactly when nothing is lost, and
  `Completeness.SomeAcceptedBlockLosesABalance` gives an accepted block that loses two units.
- The message of a transfer or a forced exit names an address (`zksync/core/lib/circuit/src/circuit.rs:1984-1995`),
  but no chunk compares it with the account that receives or is forced out: `Messages.NamedAddressIsFree`. A key
  change is signed for the account's nonce, not for the nonce it publishes.
- Token 128 passes the token check, but the fee vector covers tokens 0 to 127: its fees leave without being credited.
- Only the low 24 bits of an account id select a leaf in the block circuit; the published id has 32 bits.
- Comments beside the published fields give old widths (24-bit ids and amounts); the model follows the code.
- A no-op has no copy check, so after an inner chunk of an operation that carries no fee it passes its own chunk; only
  the check on the very last chunk excludes it from accepted blocks. Past the first chunk it may even publish
  anything, because the selected chunk is then an unconstrained number
  (`zksync/core/lib/circuit/src/circuit.rs:2583-2587`).
- After a window without logs the restoration saves an empty event list
  (`zksync/core/bin/data_restore/src/events_state.rs:107-109`), so a restart then forgets the committed blocks that
  wait for their verification, and the next verification panics. A stop between two blocks of one batch loses the rest
  of the batch, because the first saved block already resets the recovery state
  (`zksync/core/lib/storage/src/data_restore/mod.rs:43-73`). A restart before the first block was saved is refused.
  `Recovery.StopIsSafeIff` is the exact condition, and `Recovery.TurnsAreSafeIff` that for any number of stops.
- When handing over a replacement fails, the sender keeps its hash but the database rolls the record back
  (`zksync/core/bin/zksync_eth_sender/src/lib.rs:503-504`): `EthSender.DatabaseKnowsIff`.
- A head that moves backwards over logs makes the restoration read them again. What that does depends on the logs:
  blocks verified in them are processed twice, and otherwise it is repaired exactly if there are no logs or some
  revert goes back far enough (`HeadFalls.FallHealsIff`).
- The library's documentation promises the closest packable amount; `SdkUtils.ClosestIsGreatest` says when it is the
  greatest one not above, and 2048 is a fee for which it is not. The documented example 1000000003 fits the mantissa
  of an amount as it is.
- `reverseBits` reverses bytes only: the array with reversed bits is dropped. Its callers depend on that.
- The server executes some requests that the circuit cannot: an operation or a full exit of an account with the last
  nonce, a balance past 128 bits, a deposit to a new account at address zero, a key change that pays in a token past
  128, and a forced exit of the initiator itself. `ServerCircuit.CircuitAgreesIff` is the exact list. A fee in token
  128 is collected by the server and not by the circuit.
- A forced exit of the initiator itself writes the target over the payer
  (`zksync/core/lib/state/src/handler/forced_exit.rs:110-127`), and the updates it records apply in neither direction,
  so a batch that fails after one panics: `ServerUpdates.BatchIsAtomicIff`. It takes a key whose hash is zero, which
  nobody is expected to have.
- A forced exit waits in the mempool under the address of its target
  (`zksync/core/lib/types/src/tx/zksync_tx.rs:103-111`), so the initiator's nonce is compared with the target's. The
  target has no key and so has used no nonce: nothing is turned away for that, but a forced exit with a used nonce is
  not turned away either (`ServerJournal.NothingExecutableIsTurnedAway`).
- The library cuts a nonce to 32 bits without an error (`zksync/sdk/zksync.js/src/utils.ts:421-435`):
  `Signer.SignSyncTransfer`.
- Deleting an account can make a waiting batch too big for any block and block the mempool.

## Model

| member | source | states |
|---|---|---|
| `Merkle.PathRootSound` | zksync/core/lib/circuit/src/circuit.rs:2482-2545 | an audit path that leads to the root of a tree starts from the leaf at the low `depth` bits of its index, and leads from any other leaf to the root of the tree with that leaf replaced |
| `Merkle.AuditPathLeadsToRoot` | zksync/core/lib/circuit/src/circuit.rs:2482-2545 | the siblings of any leaf lead to the root |
| `Merkle.RootInjective` | zksync/core/lib/circuit/src/circuit.rs:2628-2721 | two trees of one height with one root have the same leaves |
| `Merkle.AllocateMerkleRoot` | zksync/core/lib/circuit/src/circuit.rs:2482-2545 | the ascent, level by level, gives the root claimed by the index read from its low bits; longer paths and indices are cut |
| `Merkle.EmptyRootIsRoot` | zksync/core/lib/circuit/src/utils.rs:404-427 | the repeated self-hash is the root of the full tree of equal leaves |
| `Merkle.EmptyTreeHashes` | zksync/core/lib/circuit/src/utils.rs:404-427 | the table holds, at each height, the root of the empty tree of that height |
| `Merkle.ContinueLeftmostIsRoot` | zksync/core/lib/circuit/src/circuit.rs:2723-2760 | hashing a subroot with the empty roots gives the root of the full tree whose right part is empty |
| `Merkle.ContinueLeftmostInjective` | zksync/core/lib/circuit/src/circuit.rs:2723-2760 | the continued root determines the subroot |
| `Merkle.ContinueLeftmostSubroot` | zksync/core/lib/circuit/src/circuit.rs:2723-2760 | the loop computes that continuation |
| `Merkle.PairUpRoot` | zksync/core/lib/circuit/src/circuit.rs:2628-2721 | hashing a row pairwise keeps the root |
| `Merkle.HashPairwise` | zksync/core/lib/circuit/src/circuit.rs:2628-2721 | the row-by-row loop ends in the root of the full tree |
| `Merkle.LeftTreeRoot` | zksync/core/lib/circuit/src/circuit.rs:2628-2721 | hashing the left leaves pairwise and padding with the empty table gives the root of the full tree of all leaves |
| `Bits.EncodeInjective` | zksync/core/lib/circuit/src/circuit.rs:964-988 | a list of fixed-width fields can be read back from its bits, whatever padding follows |
| `Bits.MultiPackInjective` | zksync/core/lib/circuit/src/utils.rs:429-456 | equal packed words mean equal bits, for bit strings of one length |
| `CircuitUtils.MultiAnd` | zksync/core/lib/circuit/src/utils.rs:195-210 | the accumulated conjunction is true exactly when every flag is |
| `CircuitUtils.MultiOr` | zksync/core/lib/circuit/src/circuit.rs:2610-2626 | the accumulated disjunction is true exactly when some flag is |
| `CircuitUtils.PackBitsToElement` | zksync/core/lib/circuit/src/utils.rs:232-259 | the packed number is the one whose bits, lowest first, were given |
| `CircuitUtils.VectorizedCompare` | zksync/core/lib/circuit/src/utils.rs:429-456 | the flag tells whether the held words are those of the bits, and the packed words are returned |
| `CircuitUtils.SelectPubdataChunk` | zksync/core/lib/circuit/src/circuit.rs:2576-2608 | the loop selects the packed chunk with the given number, and for a number past the end the value it starts from, which is free |
| `CircuitUtils.IsAccountEmpty` | zksync/core/lib/circuit/src/circuit.rs:2418-2466 | the word-wise test is true exactly for a zero nonce, key hash and address; balances do not matter |
| `CircuitUtils.AccountDataZero` | zksync/core/lib/circuit/src/circuit.rs:2418-2466 | the packed words of an account are all zero exactly when nonce, key hash and address are |
| `PrimeField.SubtractionDidNotWrap` | zksync/core/lib/circuit/src/circuit.rs:771-785 | a difference of 128-bit numbers that decomposes in 128 bits did not wrap in the field |
| `ZkSyncCircuit.CheckAccountData` | zksync/core/lib/circuit/src/circuit.rs:2369-2395 | the root computed for a branch, over any number of account levels |
| `ZkSyncCircuit.Circuit.constructor` | zksync/core/lib/circuit/src/circuit.rs:108-179 | the state before the first chunk: given root, zero fees, zero holders of the right sizes |
| `ZkSyncCircuit.Circuit.CheckPubdata` | zksync/core/lib/circuit/src/circuit.rs:976-1030 | the holder becomes the packed data of this chunk; the two flags compare it with the chunk before and with the published chunk |
| `ZkSyncCircuit.Circuit.IsSerializedTxCorrect` | zksync/core/lib/circuit/src/signature.rs:216-265 | the padded message equals the three signed parts |
| `ZkSyncCircuit.Circuit.Deposit` | zksync/core/lib/circuit/src/circuit.rs:1295-1431 | the gadget changes nothing but its holder for another type; for its own type its flag and the branch it leaves are those of the specification |
| `ZkSyncCircuit.Circuit.Transfer` | zksync/core/lib/circuit/src/circuit.rs:1939-2137 | the same for the transfer gadget |
| `ZkSyncCircuit.Circuit.TransferToNew` | zksync/core/lib/circuit/src/circuit.rs:1699-1937 | the same for the transfer to a new account |
| `ZkSyncCircuit.Circuit.Withdraw` | zksync/core/lib/circuit/src/circuit.rs:952-1130 | the same for the withdrawal |
| `ZkSyncCircuit.Circuit.FullExit` | zksync/core/lib/circuit/src/circuit.rs:1132-1293 | the same for the full exit |
| `ZkSyncCircuit.Circuit.ChangePubkeyOffchain` | zksync/core/lib/circuit/src/circuit.rs:1433-1632 | the same for the key change, whose flag does not depend on the published nonce |
| `ZkSyncCircuit.Circuit.Noop` | zksync/core/lib/circuit/src/circuit.rs:1634-1697 | the no-op flag, which asks for a zero chunk only in chunk zero; the branch stays |
| `ZkSyncCircuit.Circuit.ForcedExit` | zksync/core/lib/circuit/src/circuit.rs:2139-2366 | the same for the forced exit |
| `ZkSyncCircuit.Circuit.CheckArguments` | zksync/core/lib/circuit/src/circuit.rs:658-785 | tokens equal and at most 128, arguments repeated unless the chunk is first, a not below b; the arguments are remembered |
| `ZkSyncCircuit.Circuit.RunGadgets` | zksync/core/lib/circuit/src/circuit.rs:787-900 | all eight gadgets run in order on one branch give the flag, the branch and the holders of the selected gadget alone on the original branch |
| `ZkSyncCircuit.Circuit.CollectFees` | zksync/core/lib/circuit/src/circuit.rs:926-947 | on the last chunk the fee is added to the entry of the remembered token, if it has one |
| `ZkSyncCircuit.Circuit.OpenChunk` | zksync/core/lib/circuit/src/circuit.rs:185-226 | the constraints of a chunk that come before its gadget hold exactly when the specification says so |
| `ZkSyncCircuit.Circuit.CloseChunk` | zksync/core/lib/circuit/src/circuit.rs:908-947 | the whole new state after the gadgets |
| `ZkSyncCircuit.Circuit.ProcessChunk` | zksync/core/lib/circuit/src/circuit.rs:182-252 | one round of the main cycle is accepted exactly when the chunk is, and leaves the specified state |
| `ZkSyncCircuit.BalancesRoot` | zksync/core/lib/circuit/src/circuit.rs:2628-2721 | range flag and root of the balance tree with 128 processable tokens |
| `ZkSyncCircuit.RootFromOperator` | zksync/core/lib/circuit/src/circuit.rs:306-339 | range flag and root of the state tree with the given validator balances |
| `ZkSyncCircuit.Synthesize` | zksync/core/lib/circuit/src/circuit.rs:88-483 | the circuit accepts exactly the blocks and commitments of the specification |
| `ZkSyncCircuit.CloseBlock` | zksync/core/lib/circuit/src/circuit.rs:254-399 | the end of the block: the validator shows its leaf, the fees are added and range-checked, the root is continued |
| `Grammar.PubdataDeterminesFields` | zksync/core/lib/circuit/src/circuit.rs:964-988 | equal published bits mean equal published fields |
| `Grammar.LaterChunkCopies` | zksync/core/lib/circuit/src/circuit.rs:1017-1030 | an accepted later chunk that is no no-op repeats the type, arguments and published data of the chunk before |
| `Grammar.NoopInsideIsStuck` | zksync/core/lib/circuit/src/circuit.rs:1634-1696 | after a no-op inside an operation the run never ends with a last chunk |
| `Grammar.NoopPassesInsideAnOperation` | zksync/core/lib/circuit/src/circuit.rs:1634-1696 | after an inner chunk a no-op with any published chunk passes its own chunk if and only if the arguments carry no fee |
| `Grammar.OperationCompletes` | zksync/core/lib/circuit/src/circuit.rs:486-555 | from a first chunk on, an accepted run that ends with a last chunk goes through the whole operation |
| `Grammar.AcceptedChunksAreOperations` | zksync/core/lib/circuit/src/circuit.rs:254-263 | every accepted run between operations that ends with a last chunk is a sequence of complete operations |
| `Grammar.AcceptedBlockIsWellFormed` | zksync/core/lib/circuit/src/circuit.rs:182-263 | the chunk grammar of whole accepted blocks |
| `Ledger.BranchSound` | zksync/core/lib/circuit/src/circuit.rs:2369-2393 | a branch that leads to the root of a ledger shows its entry at the low 24 bits of the id, and other contents there lead to the root of the ledger with that entry replaced |
| `Ledger.ChunkIsLedgerStep` | zksync/core/lib/circuit/src/circuit.rs:200-251 | each accepted chunk reads and writes one ledger entry and moves the root with it |
| `Ledger.RunKeepsRoot` | zksync/core/lib/circuit/src/circuit.rs:182-252 | over any accepted run the rolling root is the root of the ledger |
| `Execution.FirstChunk` | zksync/core/lib/circuit/src/circuit.rs:788-890 | an accepted first chunk is the first half of its plain operation, which is allowed |
| `Execution.SecondChunk` | zksync/core/lib/circuit/src/circuit.rs:1869-1911 | an accepted second chunk of a two-sided operation is its second half, which is allowed |
| `Execution.QuietChunk` | zksync/core/lib/circuit/src/circuit.rs:1096-1116 | all other chunks leave the ledger as it is |
| `Execution.ChunkPublishes` | zksync/core/lib/circuit/src/circuit.rs:193-198 | the published bits of a chunk are its part of the operation's data |
| `Execution.OperationExecutes` | zksync/core/lib/circuit/src/circuit.rs:182-252 | a complete operation executes its transaction, collects its fee once and publishes its data once |
| `Execution.BlockExecutes` | zksync/core/lib/circuit/src/circuit.rs:182-252 | a whole block executes its transactions in order |
| `Execution.FeesAreSums` | zksync/core/lib/circuit/src/circuit.rs:926-947 | the collected fees are the true sums; they never wrap |
| `Soundness.FullRootIsTreeRoot` | zksync/core/lib/circuit/src/circuit.rs:393-399 | the continued root is the root of the full 32-level tree with empty accounts on the right |
| `Soundness.ValidatorShown` | zksync/core/lib/circuit/src/circuit.rs:274-347 | the validator's leaf shows its ledger entry, which holds no token beyond 128 |
| `Soundness.FeesReachTheValidator` | zksync/core/lib/circuit/src/circuit.rs:349-391 | the fee vector credits the true fees to the validator's entry, inside 128 bits |
| `Soundness.LedgerSoundness` | zksync/core/lib/circuit/src/circuit.rs:108-399 | the commitment of an accepted block over a ledger names the root of the ledger after its executable transactions with the fees credited, and their published data |
| `Acceptance.FirstChunkIff` | zksync/core/lib/circuit/src/circuit.rs:486-950 | between operations a chunk is accepted if and only if it shows the account its root belongs to, names an allowed operation, and carries the right arguments, published chunk and signature; nothing else is asked |
| `Acceptance.LaterChunkIff` | zksync/core/lib/circuit/src/circuit.rs:486-950 | inside an operation a chunk is accepted if and only if it has the next number, repeats arguments and published fields, shows the ledger reached so far, and the operation is executable |
| `Acceptance.OperationAcceptedIff` | zksync/core/lib/circuit/src/circuit.rs:182-252 | the exact witnesses of an operation: its chunks are accepted on a ledger if and only if the operation is executable there and they present it |
| `Blocks.BlockAcceptedIff` | zksync/core/lib/circuit/src/circuit.rs:88-483 | the exact witnesses of a block: accepted with a commitment if and only if it shows executable operations and then a validator with room for the fees, and the commitment names the ledger after them and their data |
| `Unread.UnreadIsFree` | zksync/core/lib/circuit/src/circuit.rs:952-2366 | every gadget accepts its chunk whatever the arguments hold that it does not read, and leaves the same branch |
| `Unread.TransferIgnoresFullAmount` | zksync/core/lib/circuit/src/circuit.rs:1939-2137 | the first chunk of a transfer is accepted with any full amount |
| `Unread.UnreadArgumentsAreFree` | zksync/core/lib/circuit/src/circuit.rs:88-483 | an accepted block with other values in the arguments its gadgets do not read, operation by operation, is accepted with the same commitment and runs the same operations |
| `Prover.ShownRoot` | zksync/core/lib/circuit/src/witness/utils.rs:328-349 | the branch and audit paths the prover shows for an entry lead to the root |
| `Prover.OpsPresent` | zksync/core/lib/circuit/src/witness/transfer.rs:112-369 | the prover's own chunks of an executable operation, with its arguments and both branches as it fills them in, present the operation |
| `Completeness.OperationIsAccepted` | zksync/core/lib/circuit/src/witness/utils.rs:599-744 | so they are accepted |
| `Completeness.ProverPresentsAll` | zksync/core/lib/circuit/src/witness/utils.rs:599-744 | and so do its chunks for a list of executable operations |
| `Completeness.ProverBlockIsAccepted` | zksync/core/lib/circuit/src/witness/utils.rs:599-744 | with a validator that has room for the fees and only processable tokens, the prover's block is accepted |
| `Completeness.AcceptedIffExecutable` | zksync/core/lib/circuit/src/circuit.rs:88-483 | some block running these transactions from this ledger is accepted if and only if there are any, each is executable in its turn and fits its published fields, and the validator's entry can take the fees; the needed signatures are assumed to exist |
| `Completeness.SomeAcceptedBlockMintsAFee` | zksync/core/lib/circuit/src/circuit.rs:1584-1603 | an accepted block can credit a fee that no account pays |
| `Completeness.SomeAcceptedBlockLosesABalance` | zksync/core/lib/circuit/src/circuit.rs:1896-1920 | over a ledger whose empty accounts hold nothing, two transfers to a new account at address zero have an accepted block, and every such block ends two units short |
| `Conservation.OperationBalance` | zksync/core/lib/circuit/src/circuit.rs:1096-1116 | the balance sheet of one operation in any token |
| `Conservation.RunBalance` | zksync/core/lib/circuit/src/circuit.rs:926-947 | the balance sheet of a list of operations, fees set aside |
| `Conservation.BlockBalance` | zksync/core/lib/circuit/src/circuit.rs:349-356 | the exact balance sheet of an accepted block, with the fees of token 128, unpaid fees and overwritten balances as explicit entries |
| `Conservation.ValueIsConserved` | zksync/core/lib/circuit/src/circuit.rs:349-356 | if paid key changes name their nonces, an accepted block creates no value in tokens below 128, and keeps every unit if and only if each transfer to a new account finds none of the token there; that is so when empty accounts hold nothing and new addresses are not zero |
| `Conservation.NothingCreatedIff` | zksync/core/lib/circuit/src/circuit.rs:1584-1603 | where no balance is overwritten, an accepted block creates no value, and keeps every unit, if and only if each paid key change takes effect |
| `Conservation.NothingMintedIff` | zksync/core/lib/circuit/src/circuit.rs:1584-1603 | unpaid fees are zero exactly when every paid key change takes effect |
| `Conservation.NothingOverwrittenIff` | zksync/core/lib/circuit/src/circuit.rs:1896-1920 | overwritten balances are zero exactly when each transfer to a new account finds none of the token there at its turn |
| `Conservation.OperationKeepsEmpty` | zksync/core/lib/circuit/src/circuit.rs:1896-1920 | empty accounts go on holding nothing, and no balance is overwritten, unless an account is opened at address zero |
| `Conservation.ForeignNonceMintsAFee` | zksync/core/lib/circuit/src/circuit.rs:1584-1603 | a key change with a foreign nonce charges nothing while its fee counts |
| `Conservation.TransferToNewLosesABalance` | zksync/core/lib/circuit/src/circuit.rs:1896-1920 | a transfer to an empty account that holds something loses what it held; an accepted block that does so is in `Completeness` |
| `Nonces.OperationNonce` | zksync/core/lib/circuit/src/circuit.rs:1118-1127 | an operation raises by one the nonce of the account that used it, and no other |
| `Nonces.BlockNonces` | zksync/core/lib/circuit/src/circuit.rs:2789-2799 | over an accepted block each nonce rises by exactly the operations that used it, and stays below 2^32 |
| `Nonces.FirstChunkAuthorised` | zksync/core/lib/circuit/src/signature.rs:216-265 | the first chunk of a signed operation carries a verified signature on a message with the account's current nonce |
| `Nonces.NoReplay` | zksync/core/lib/circuit/src/circuit.rs:1045-1061 | in one block, of two signed operations of one account the later carries a larger nonce and another signed message, if the earlier used its nonce |
| `Replay.RepeatedHadNoEffect` | zksync/core/lib/circuit/src/circuit.rs:1584-1603 | whenever two operations of an accepted block carry one signed message, the first is a key change without effect: its published nonce is not the account's, or is the last one |
| `Replay.RepeatedLaterHadNoEffect` | zksync/core/lib/circuit/src/circuit.rs:1584-1603 | the same for operations of two blocks of a chain of accepted blocks |
| `Replay.CanRepeatIff` | zksync/core/lib/circuit/src/circuit.rs:1584-1603 | after any executable operations, with room in the block and for the fees, an accepted block uses the message of a signed operation again if and only if the operation is such a key change |
| `Replay.SomeAcceptedBlockRepeatsAMessage` | zksync/core/lib/circuit/src/circuit.rs:1584-1603 | an accepted block with one signed message twice, whose fee is collected twice and paid by nobody |
| `Messages.MessageReadBack` | zksync/core/lib/circuit/src/signature.rs:216-265 | equal signed parts mean equal messages, across all kinds of operations |
| `Messages.MessageDetermines` | zksync/core/lib/circuit/src/circuit.rs:992-1002 | operations with one signed message have one nonce and agree on payer, token, amount and fee; on everything for a withdrawal; on the new address, on the new key and its account; but not on the receiving account, the slot of a new one, the target of a forced exit, or the nonce a key change publishes |
| `Messages.NamedAddressIsFree` | zksync/core/lib/circuit/src/circuit.rs:1984-1995 | the address that the message of a transfer or forced exit names is compared with no account: the first chunk is accepted with any address and its message, for the same operation and with the same next state |
| `Messages.NamedAddressesAreFree` | zksync/core/lib/circuit/src/circuit.rs:1984-1995 | so an accepted block with all these addresses replaced, and the messages that go with them, is accepted with the same commitment and the same operations |
| `WalletMessages.BytesAreFields` | zksync/core/lib/types/src/tx/transfer.rs:105-116 | the bits of the bytes a wallet signs, for each kind of transaction, are those of its fields, amounts packed |
| `WalletMessages.GenerateSigWitness` | zksync/core/lib/circuit/src/witness/utils.rs:231-243 | the three numbers hold the padded bits in order, and are the parts the circuit compares |
| `WalletMessages.SigDataInput` | zksync/core/lib/circuit/src/witness/utils.rs:423-466 | the parts the prover makes of a signed transaction are those of its bytes |
| `WalletMessages.WalletMessageIff` | zksync/core/lib/circuit/src/circuit.rs:992-1002 | the message a first chunk has to carry is the one the wallet signed if and only if the chunk shows everything that was signed, field by field |
| `WalletMessages.SignedIsDone` | zksync/core/lib/types/src/tx/withdraw.rs:110-121 | whenever an operation of an accepted block carries the message of a wallet's transaction it executes that transaction, amounts in full, for the account with the signed id, address and nonce |
| `WalletMessages.ProverMessageIff` | zksync/core/lib/circuit/src/witness/utils.rs:458-560 | the parts made of the signed bytes are those the circuit composes from the prover's first chunk if and only if the operation was made from that transaction |
| `WalletMessages.SignableIff` | zksync/core/lib/types/src/helpers.rs:31-58 | an operation carries a message that a wallet can sign if and only if its packed fields are the ones the encoders write for their numbers |
| `Signer.NumberToBytesBE` | zksync/sdk/zksync.js/src/utils.ts:428-435 | the big-endian bytes of the number's low 32 bits, although numbers from 2^31 on turn negative on the way |
| `Signer.SignSyncTransfer` | zksync/sdk/zksync.js/src/signer.ts:28-60 | succeeds exactly on serializable numbers and packable amounts, and signs the bytes the server composes; a nonce past 32 bits is cut |
| `Signer.SignSyncWithdraw` | zksync/sdk/zksync.js/src/signer.ts:62-101 | the same for a withdrawal, whose amount is written in full |
| `Signer.SignSyncForcedExit` | zksync/sdk/zksync.js/src/signer.ts:103-134 | the same for a forced exit |
| `Signer.SignSyncChangePubKey` | zksync/sdk/zksync.js/src/signer.ts:136-172 | the same for a key change |
| `ServerHandlers.ZkSyncState.ApplyTransferOp` | zksync/core/lib/state/src/handler/transfer.rs:77-197 | a transfer, also to the payer itself, moves the state as specified, or is refused without a trace |
| `ServerHandlers.ZkSyncState.ApplyTransferToNewOp` | zksync/core/lib/state/src/handler/transfer.rs:199-268 | the same for a new account; an account that exists is a panic |
| `ServerHandlers.ZkSyncState.ApplyWithdrawOp` | zksync/core/lib/state/src/handler/withdraw.rs:49-93 | the same for a withdrawal |
| `ServerHandlers.ZkSyncState.ApplyChangePubKeyOp` | zksync/core/lib/state/src/handler/change_pubkey.rs:53-107 | the same for a key change, which asks for the account's nonce |
| `ServerHandlers.ZkSyncState.ApplyForcedExitOp` | zksync/core/lib/state/src/handler/forced_exit.rs:66-150 | the same for a forced exit, which reads both accounts before it writes either |
| `ServerHandlers.ZkSyncState.ApplyDepositOp` | zksync/core/lib/state/src/handler/deposit.rs:44-75 | a deposit to a known or a new account |
| `ServerHandlers.ZkSyncState.ApplyFullExitOp` | zksync/core/lib/state/src/handler/full_exit.rs:49-93 | a full exit empties the balance, or changes nothing when it is not granted |
| `ServerHandlers.ZkSyncState.CollectFee` | zksync/core/lib/state/src/state.rs:253-286 | the fees are added to the fee account, token by token, and recorded |
| `ServerHandlers.ZkSyncState.ApplyTx` | zksync/core/lib/state/src/state.rs:130-140 | a request is executed and its updates are returned, or it is refused without a trace, or panics, as specified |
| `ServerHandlers.ZkSyncState.ApplyAccountUpdates` | zksync/core/lib/state/src/state.rs:143-196 | the updates are applied one by one, or an assertion fails |
| `ServerHandlers.ZkSyncState.ExecuteTxsBatch` | zksync/core/lib/state/src/state.rs:198-236 | a batch is executed, or refused and rolled back, or panics, as specified |
| `ServerState.PriorityRequestsAreExecutedIff` | zksync/core/lib/state/src/state.rs:130-140 | a priority request is executed if and only if its token can be processed, and is a panic otherwise |
| `ServerState.WalletTransactionsNeverPanic` | zksync/core/lib/state/src/handler/transfer.rs:199-224 | no wallet transaction makes the server panic, and an executed one names ids of the circuit's range |
| `ServerState.WalletTransactionIsExecutedIff` | zksync/core/lib/state/src/handler/mod.rs:18-35 | a wallet transaction is executed if and only if its account is there with its address, nonce and funds, the right key signed it, and what its kind asks for holds; receivers and nonces have no limit |
| `ServerState.OneNonceIsUsed` | zksync/core/lib/state/src/handler/withdraw.rs:49-93 | an executed wallet transaction uses one nonce of its own account, as a 32-bit number, and no other; a forced exit of the initiator itself uses none |
| `ServerState.StrangersAreRefused` | zksync/core/lib/state/src/handler/transfer.rs:16-50 | without the accounts it names a wallet transaction is refused |
| `ServerCircuit.CircuitAgreesIff` | zksync/core/lib/state/src/handler/mod.rs:18-35 | whenever the server executes a request, the circuit executes the operation with the same result if and only if it keeps the limits the server does not check: the last nonce, 128-bit balances, tokens of key changes, empty accounts, and a forced exit of the initiator itself |
| `ServerCircuit.ServerDecidesIff` | zksync/core/lib/state/src/handler/transfer.rs:16-50 | for a transaction of known accounts: the server executes it and the circuit does the same if and only if the circuit can execute what it asks for and the server's own checks pass, which are listed |
| `ServerState.PerformIsConsistent` | zksync/core/lib/state/src/state.rs:248-302 | after every executed request each address leads to its account, and ids have no gaps |
| `ServerBlocks.RunAgrees` | zksync/core/lib/circuit/src/witness/utils.rs:599-723 | over any run within these limits the circuit's ledger follows the server's state |
| `ServerBlocks.CollectedIsPaid` | zksync/core/lib/circuit/src/witness/utils.rs:637-640 | in every token the server collects what the circuit's operations pay |
| `ServerBlocks.ServerBlockIsProven` | zksync/core/lib/circuit/src/witness/utils.rs:725-744 | the prover's witness for a block of the server, padded with no-ops, is accepted, and every commitment it is accepted with names the roots of the server's state before and after it, fees collected |
| `ServerValue.ServerKeepsValue` | zksync/core/lib/state/src/handler/mod.rs:18-35 | over any run, what the server's accounts hold of a token, with the fees collected, is what they held, with the deposits and without what left |
| `ServerValue.ServerBlockKeepsValue` | zksync/core/bin/zksync_core/src/state_keeper/mod.rs:810-832 | the same over a whole block, after the fees are credited |
| `ServerValue.ServerIsSolvent` | zksync/core/bin/zksync_core/src/state_keeper/mod.rs:420-460 | from genesis on, over any blocks, the server's accounts hold of each token exactly what was deposited and did not leave |
| `ServerUpdates.ReverseUpdates` | zksync/core/lib/types/src/helpers.rs:19-24 | the updates in reverse order, each reversed |
| `ServerUpdates.AppliesIff` | zksync/core/lib/state/src/state.rs:143-196 | an update applies exactly where the old values it names are found, and then its reverse applies |
| `ServerUpdates.ReversedLeadsBackIff` | zksync/core/lib/types/src/account/account_update.rs:35-70 | the reversed update leads back to the state before if and only if the update created no account over another and deleted none that held something |
| `ServerUpdates.ReversedLeadBack` | zksync/core/lib/types/src/helpers.rs:19-24 | reversed updates undo a list of such updates |
| `ServerUpdates.UpdatesLeadIff` | zksync/core/lib/state/src/handler/forced_exit.rs:129-145 | the updates of an operation lead from the state before it to the state after it and can be undone, unless it is a forced exit of the initiator itself, whose updates fail |
| `ServerUpdates.UpdatesAreDistinct` | zksync/core/lib/state/src/handler/transfer.rs:118-137 | no operation records two updates of one kind for one account |
| `ServerUpdates.BatchGetsAsFar` | zksync/core/lib/state/src/state.rs:198-236 | a batch is executed up to the first transaction that is refused or panics |
| `ServerUpdates.BatchIsAtomicIff` | zksync/core/lib/state/src/state.rs:198-236 | a batch that fails leaves the state as it was, up to zero balances, with the same ledger, if and only if none of its executed transactions forced the exit of its own account; otherwise the rollback panics |
| `ServerUpdates.OwnForcedExitTakesZeroKey` | zksync/core/lib/state/src/handler/forced_exit.rs:12-46 | such a forced exit takes a key whose hash is zero |
| `ServerUpdates.SameGoOnAlike` | zksync/core/lib/state/src/state.rs:198-236 | states that are equal up to zero balances answer every request alike, so a rolled back batch has no effect later |
| `ServerJournal.BlockUpdatesLead` | zksync/core/lib/storage/src/chain/state/mod.rs:534-538 | the updates of a block lead from the state before it to the state after it, fees included, and their reverse leads back to the same ledger |
| `ServerJournal.FeeUpdatesRise` | zksync/core/lib/state/src/state.rs:263-281 | exactly the fees that are not empty are recorded |
| `ServerJournal.MempoolFollowsServer` | zksync/core/bin/zksync_core/src/committer.rs:181-185 | over any requests to the mempool and any blocks of the server, the mempool's two maps follow the server's accounts |
| `ServerJournal.TurnsKeepLocked` | zksync/core/lib/state/src/handler/change_pubkey.rs:53-107 | as long as no signature comes from a key with hash zero, accounts without a key have used no nonce |
| `ServerJournal.NothingExecutableIsTurnedAway` | zksync/core/bin/zksync_core/src/mempool.rs:208-218 | from genesis on, the mempool never turns away for its nonce what the server would execute, it accepts exactly the nonces not below those of the server's accounts, and every forced exit of an account without a key passes |
| `ServerJournal.QueuedCostsItsOperation` | zksync/core/bin/zksync_core/src/mempool.rs:379-434 | the chunks that the mempool counts for a transaction are those of the operation that the server makes of it |
| `ExitCircuit.Synthesize` | zksync/core/lib/circuit/src/exit_circuit.rs:43-101 | the circuit accepts exactly the branches that lead to the root and claim what they show |
| `ExitCircuit.ExitIsSound` | zksync/core/lib/circuit/src/exit_circuit.rs:43-101 | an accepted claim states the ledger's address and balance; an id beyond the used part gives an empty account |
| `ExitCircuit.ExitIsComplete` | zksync/core/lib/circuit/src/exit_circuit.rs:104-170 | every account can prove each of its balances |
| `ExitCircuit.ExitsProveTheLedger` | zksync/core/lib/circuit/src/exit_circuit.rs:43-101 | against the root of an accepted block exactly the entries of the executed ledger can be proved |
| `RollupOps.GetRollupOpsFromData` | zksync/core/bin/data_restore/src/rollup_ops.rs:82-99 | the pointer loop parses operation by operation, with its three outcomes |
| `RollupOps.AmountRoundTrip` | zksync/core/lib/types/src/helpers.rs:61-80 | a published packed amount unpacks on the server to the number the circuit used |
| `RollupOps.OperationRoundTrip` | zksync/core/lib/types/src/operations/mod.rs:108-156 | the data of any operation are read back as that operation, amounts in full |
| `RollupOps.PublishedDataParses` | zksync/core/bin/data_restore/src/rollup_ops.rs:82-99 | so are the glued data of complete operations |
| `RollupOps.PublicationRoundTrip` | zksync/core/bin/data_restore/src/rollup_ops.rs:82-99 | on the data of an accepted block the parser ends without error or slice out of range, with exactly the block's transactions in order |
| `DataAvailability.PublishedDataDetermineTxs` | zksync/core/lib/circuit/src/circuit.rs:193-198 | equal published data come from equal transactions |
| `DataAvailability.SameDataSameLedger` | zksync/core/lib/circuit/src/circuit.rs:466-480 | two accepted blocks from one ledger with one validator and equal published data leave the same ledger and root |
| `BlockEvents.VerifiedBlocksStay` | zksync/contracts/contracts/ZkSync.sol:285-326 | a verified block keeps its commit transaction whatever the contract emits later |
| `BlockEvents.LogsAreTracked` | zksync/core/bin/data_restore/src/events_state.rs:308-348 | reading the logs of a window keeps both lists those of the contract |
| `BlockEvents.PrefixCompletes` | zksync/core/bin/data_restore/src/events_state.rs:359-363 | the verified prefix of the commit events completes the list of verified blocks, and is never out of range |
| `BlockEvents.DrainIsTracked` | zksync/core/bin/data_restore/src/events_state.rs:352-357 | draining the processed events leaves the unverified blocks, and is never out of range |
| `DataRestore.RoundRestoresIff` | zksync/core/bin/data_restore/src/data_restore_driver.rs:248-310 | for a lawful contract one round never panics, and afterwards exactly the verified blocks are processed and the waiting ones kept if and only if the head did not fall back to an older contract |
| `DataRestore.RunRestoresIff` | zksync/core/bin/data_restore/src/data_restore_driver.rs:248-310 | that holds after every round of a run if and only if no head falls back to an older contract |
| `DataRestore.RunRestores` | zksync/core/bin/data_restore/src/data_restore_driver.rs:248-310 | for whole runs: no panic, and the verified blocks up to the last watched one, once each and in order |
| `DataRestore.MonotoneHeadsHold` | zksync/core/bin/data_restore/src/events_state.rs:150-165 | heads that never decrease meet that condition, also when the first ones are before the start |
| `DataRestore.CatchesUp` | zksync/core/bin/data_restore/src/events_state.rs:157-165 | each round covers a window of `step + 1` blocks or reaches the goal |
| `DataRestore.RestorationIsExact` | zksync/core/bin/data_restore/src/data_restore_driver.rs:248-310 | from genesis on, with heads that do not fall back, the processed blocks are the verified blocks, once each and in order, with the standing commit transactions, and every one up to a reached goal is among them |
| `HeadFalls.Overlay` | zksync/core/bin/data_restore/src/events_state.rs:308-348 | reading logs on top of any commit events: what was left survives below the lowest revert, above it are the events of the contract |
| `HeadFalls.FallHealsIff` | zksync/core/bin/data_restore/src/events_state.rs:150-165 | after a head fell back and its logs were read again in any windows, the restoration is as it should be if and only if no block was verified in these logs and, unless there are none, some revert goes back to the contract's height at the head or below |
| `HeadFalls.FallRepeatsBlocks` | zksync/core/bin/data_restore/src/events_state.rs:150-165 | a fall behind verifications processes as many blocks twice, unless it panics |
| `HeadFalls.BackwardHeadRepeatsABlock` | zksync/core/bin/data_restore/src/events_state.rs:150-165 | a concrete chain whose only block is processed twice |
| `Recovery.SafeIffRestored` | zksync/core/bin/data_restore/src/data_restore_driver.rs:248-310 | every lawful future, with heads that do not fall back and any windows, is restored exactly if and only if the processed blocks are the verified ones and the commit events that are left are those of the waiting blocks |
| `Recovery.RunSaves` | zksync/core/lib/storage/src/data_restore/mod.rs:167-197 | after every round the database holds the tree, the last watched block, and the events in order or none |
| `Recovery.RestartIsSafeIff` | zksync/core/bin/data_restore/src/data_restore_driver.rs:203-245 | a restart between rounds is refused without a processed block; otherwise every future is exact if and only if the database holds events or none were waiting |
| `Recovery.RunCanRestartIff` | zksync/core/bin/data_restore/src/data_restore_driver.rs:203-245 | so after any run from genesis: safe if and only if the database holds events or no block waits for its verification |
| `Recovery.ForgottenCommitPanics` | zksync/core/bin/data_restore/src/events_state.rs:107-109 | after an unsafe restart the round that reads the next verification panics, for every chain and window size |
| `Recovery.StopIsSafeIff` | zksync/core/bin/data_restore/src/data_restore_driver.rs:203-245 | a restart after a stop between any two writes of a round: safe in every future if and only if the database holds events or no block waits, and the stop was not between two blocks of one batch |
| `Recovery.RecoveredIsSaved` | zksync/core/bin/data_restore/src/data_restore_driver.rs:203-245 | what a restart recovers leaves the database as a round does |
| `Recovery.TurnsAreSafeIff` | zksync/core/bin/data_restore/src/data_restore_driver.rs:203-312 | over any number of rounds, stops and restarts, with heads that do not fall back, every future is exact after each of them if and only if each stop left blocks and was resumable |
| `Recovery.MonotoneTurnsHold` | zksync/core/bin/data_restore/src/data_restore_driver.rs:203-312 | heads that never decrease meet the condition on the heads, with stops as without |
| `Recovery.TurnsAreExact` | zksync/core/bin/data_restore/src/data_restore_driver.rs:203-312 | from genesis on, resumable stops leave exactly the verified blocks processed |
| `Recovery.QuietWindowLosesACommit` | zksync/core/bin/data_restore/src/events_state.rs:107-109 | a concrete run: a waiting commit, a window without logs, a restart, and the verification panics |
| `DataRestore.EventsState.RemoveVerifiedEvents` | zksync/core/bin/data_restore/src/events_state.rs:352-357 | drains as many commit events as there are verified ones, or panics |
| `DataRestore.EventsState.GetNewEventsAndLastWatchedBlock` | zksync/core/bin/data_restore/src/events_state.rs:142-184 | the window after the last watched block and its logs |
| `DataRestore.EventsState.UpdateBlocksState` | zksync/core/bin/data_restore/src/events_state.rs:283-350 | the lists after the logs, one by one, and whether there were any |
| `DataRestore.EventsState.UpdateEventsState` | zksync/core/bin/data_restore/src/events_state.rs:84-119 | the state after one window, and the returned events |
| `DataRestore.EventsState.GetOnlyVerifiedCommittedEvents` | zksync/core/bin/data_restore/src/events_state.rs:359-363 | as many commit events as there are verified ones, or a panic |
| `DataRestore.DataRestoreDriver.UpdateEventsState` | zksync/core/bin/data_restore/src/data_restore_driver.rs:316-340 | the next window is read and its events are saved, none after a window without logs |
| `DataRestore.DataRestoreDriver.UpdateOperationsState` | zksync/core/bin/data_restore/src/data_restore_driver.rs:375-401 | the blocks to process are returned and saved, or a panic |
| `DataRestore.DataRestoreDriver.UpdateTreeState` | zksync/core/bin/data_restore/src/data_restore_driver.rs:348-372 | the tree takes all blocks, and they are saved one by one |
| `DataRestore.DataRestoreDriver.UpdateState` | zksync/core/bin/data_restore/src/data_restore_driver.rs:254-261 | one round leaves exactly the specified state through exactly the specified writes, or panics exactly when the specification does |
| `DataRestore.DataRestoreDriver.LoadStateFromStorage` | zksync/core/bin/data_restore/src/data_restore_driver.rs:203-245 | what the database holds is recovered, with saved events and operations processed first; a database without blocks is refused |
| `DataRestore.DataRestoreDriver.RunStateUpdate` | zksync/core/bin/data_restore/src/data_restore_driver.rs:248-312 | the loop is the specified rounds; finite mode stops in the first round that left as many blocks as the contract reports, and panics then if no round met the expected root hash |
| `Restoration.ProvenBlocksSay` | zksync/core/bin/data_restore/src/rollup_ops.rs:26-74 | each proven block's data parse as its transactions |
| `Restoration.RestoredOperations` | zksync/core/bin/data_restore/src/data_restore_driver.rs:386-401 | over any windows, the operations parsed from the processed blocks are those of the proven blocks, block by block |
| `FloatConversions.MaxInteger` | zksync/core/lib/crypto/src/primitives.rs:242-255 | the saturating loop gives the largest representable number, saturated |
| `FloatConversions.GuessIsClose` | zksync/core/lib/crypto/src/primitives.rs:258-279 | the digit count of the guess is the least exponent or one below it, and the comparison decides which |
| `FloatConversions.ChosenPowerFits` | zksync/core/lib/crypto/src/primitives.rs:271-279 | the power of ten that is needed fits in 128 bits exactly for numbers up to `maxMantissa * 10^38`; mantissas of three bits or more always meet this |
| `FloatConversions.ChooseExponent` | zksync/core/lib/crypto/src/primitives.rs:257-284 | the least exponent and its quotient, with no operation leaving 128 bits |
| `FloatConversions.ToFloat` | zksync/core/lib/crypto/src/primitives.rs:236-308 | accepts exactly the numbers up to the largest float, and encodes the least exponent and its quotient |
| `FloatConversions.IntoBytesOrdered` | zksync/core/lib/crypto/src/primitives.rs:155-171 | the bytes of the bits, highest bit first |
| `FloatConversions.FromBeBytes` | zksync/core/lib/crypto/src/primitives.rs:174-184 | the bits of the bytes, highest bit first |
| `FloatConversions.LongMantissasFit` | zksync/core/lib/crypto/src/primitives.rs:258-279 | for mantissas of three bits or more no power of ten leaves 128 bits |
| `FloatConversions.Pack` | zksync/core/lib/crypto/src/primitives.rs:193-199 | succeeds exactly on accepted numbers, with the reversed float as bytes |
| `FloatConversions.Unpack` | zksync/core/lib/crypto/src/primitives.rs:203-231 | the decoded number, or none for a wrong length or an overflow |
| `FloatRoundTrip.ChosenPartsFit` | zksync/core/lib/crypto/src/primitives.rs:257-304 | exponent and mantissa of an accepted number fit their lengths |
| `FloatRoundTrip.DecodeEncode` | zksync/core/lib/crypto/src/primitives.rs:203-231 | unpacking reads back the packed exponent and mantissa |
| `FloatRoundTrip.PackUnpack` | zksync/core/lib/crypto/src/primitives.rs:193-231 | unpacking gives a number not above, off by at most ten parts in the largest mantissa, equal exactly for representable numbers, and stable under packing again |
| `SdkUtils.NumberToBits` | zksync/sdk/zksync.js/src/utils.ts:100-107 | halving the real number and testing the parity of its integer part gives the low bits |
| `SdkUtils.BitsIntoBytesInBEOrder` | zksync/sdk/zksync.js/src/utils.ts:60-98 | the bytes of the bits, or an error for a part of a byte |
| `SdkUtils.DivideDown` | zksync/sdk/zksync.js/src/utils.ts:124-129 | repeated division ends at the least exponent whose quotient is a mantissa |
| `SdkUtils.IntegerToFloat` | zksync/sdk/zksync.js/src/utils.ts:109-139 | an error exactly above the largest float or for part of a byte, else the encoded float, bytes reversed |
| `SdkUtils.ReverseBits` | zksync/sdk/zksync.js/src/utils.ts:141-151 | only the byte order is reversed, in place; the mapped array is dropped |
| `SdkUtils.PackWidths` | zksync/sdk/zksync.js/src/utils.ts:153-159 | the two reversals cancel |
| `SdkUtils.Buffer2BitsBE` | zksync/sdk/zksync.js/src/utils.ts:203-217 | the bits of the bytes, highest first |
| `SdkUtils.FloatToInteger` | zksync/sdk/zksync.js/src/utils.ts:28-58 | the decoded number, or an error for a wrong length |
| `SdkUtils.ClosestPackable` | zksync/sdk/zksync.js/src/utils.ts:180-197 | the number kept by packing and unpacking |
| `SdkUtils.PackChecked` | zksync/sdk/zksync.js/src/utils.ts:161-173 | succeeds exactly on representable amounts |
| `SdkUtils.SameExponent` | zksync/sdk/zksync.js/src/utils.ts:124-129 | on representable amounts both encoders choose one exponent |
| `SdkUtils.EncodersAgree` | zksync/sdk/zksync.js/src/utils.ts:109-159 | both encoders give the same bytes on representable amounts, and otherwise the library keeps at least as much as the server and at most the amount |
| `SdkUtils.ClosestIsGreatest` | zksync/sdk/zksync.js/src/utils.ts:175-183 | the closest packable amount is the greatest not above the amount if and only if no digit was dropped or ten times the mantissa reaches the largest one |
| `SdkUtils.ClosestMissesInGaps` | zksync/sdk/zksync.js/src/utils.ts:175-183 | in terms of the amount: it is not exactly when, for some exponent, the amount is at least the first mantissa too long for it and below a tenth of the largest mantissa, rounded up, at the next |
| `SdkUtils.FeePassesOverALargerNumber` | zksync/sdk/zksync.js/src/utils.ts:189-197 | a fee of 2048 becomes 2040 although 2047 is packable |
| `Mempool.ElementGetsCheaper` | zksync/core/bin/zksync_core/src/mempool.rs:123-145 | more known accounts never make a queued element dearer |
| `Mempool.Conservation` | zksync/core/bin/zksync_core/src/mempool.rs:321-376 | over any requests, what waited and was accepted is what was proposed followed by what waits, in order |
| `Mempool.FittingIsLongest` | zksync/core/bin/zksync_core/src/mempool.rs:418-434 | a proposal is the longest prefix of the queue that fits |
| `Mempool.QueueAlwaysFits` | zksync/core/bin/zksync_core/src/mempool.rs:273-296 | without deletions every admitted element fits an empty block for as long as it waits |
| `Mempool.BlocksEmptyTheQueueIff` | zksync/core/bin/zksync_core/src/mempool.rs:418-434 | full-size blocks empty the queue if and only if every element fits one |
| `Mempool.MempoolDrains` | zksync/core/bin/zksync_core/src/mempool.rs:321-376 | any run without deletions is emptied by enough full-size blocks |
| `Mempool.DeletionBlocksTheQueue` | zksync/core/bin/zksync_core/src/mempool.rs:350-353 | deleting the receiver of a waiting batch can block the queue for good |
| `MempoolAccounts.UpdateMirrorsIff` | zksync/core/bin/zksync_core/src/mempool.rs:343-374 | the two maps still follow the account map, moved by the update as `Account::apply_update` does, if and only if the update fits that map |
| `MempoolAccounts.RunMirrors` | zksync/core/bin/zksync_core/src/mempool.rs:321-376 | so over any requests whose updates fit |
| `MempoolAccounts.AcceptsUnusedNonces` | zksync/core/bin/zksync_core/src/mempool.rs:208-232 | over any run, transactions and batches are accepted exactly when no nonce in them is below the committed one of its account, besides the other checks |
| `MempoolAccounts.BatchIsRefused` | zksync/core/bin/zksync_core/src/mempool.rs:273-319 | why a batch is refused: each answer exactly when, in the order of the checks, in terms of the committed accounts |
| `MempoolAccounts.ApplyCommitted` | zksync/core/lib/types/src/helpers.rs:8-15 | the loop over the committed updates moves the account map one update at a time |
| `MempoolAccounts.RestoreFromDb` | zksync/core/bin/zksync_core/src/mempool.rs:147-168 | the maps restored from the committed accounts follow them, in whatever order they come |
| `MempoolAccounts.WithdrawalsAreCounted` | zksync/core/lib/types/src/tx/zksync_tx.rs:163-165 | the count of a batch is the number of its withdrawals and forced exits |
| `MempoolAccounts.ProposalFitsTheCircuit` | zksync/core/bin/zksync_core/src/mempool.rs:379-434 | the operations a proposal becomes, with the priority operations, take no more chunks of the circuit than a block has, and with the next waiting element they would |
| `Mempool.Mempool.AddTx` | zksync/core/bin/zksync_core/src/mempool.rs:208-218 | accepted exactly with a nonce not below the account's; the whole new state |
| `Mempool.Mempool.AddBatch` | zksync/core/bin/zksync_core/src/mempool.rs:273-319 | the answer by the order of the checks; the whole new state |
| `Mempool.Mempool.UpdateNoncesOf` | zksync/core/bin/zksync_core/src/mempool.rs:343-374 | the maps after the updates, one by one |
| `Mempool.Mempool.PrepareTxForBlock` | zksync/core/bin/zksync_core/src/mempool.rs:418-434 | the queue is cut after the fitting prefix, and the chunks left are exact |
| `Mempool.Mempool.Run` | zksync/core/bin/zksync_core/src/mempool.rs:321-377 | the request loop is the specified run |
| `TxQueue.ReturnUndoesPop` | zksync/core/bin/zksync_eth_sender/src/tx_queue/mod.rs:218-257 | returning what was popped restores the queue |
| `TxQueue.QueueStaysOrdered` | zksync/core/bin/zksync_eth_sender/src/tx_queue/mod.rs:244-303 | no verification is sent before its commit, no withdrawal ahead of the verifications, never more in flight than allowed |
| `TxQueue.TxQueue.AddOperation` | zksync/core/bin/zksync_eth_sender/src/lib.rs:733-762 | known operations are ignored, a verification below the next expected one panics |
| `TxQueue.TxQueue.PopFront` | zksync/core/bin/zksync_eth_sender/src/tx_queue/mod.rs:244-291 | the chosen operation and the queue without it |
| `TxQueue.TxQueue.ReturnPopped` | zksync/core/bin/zksync_eth_sender/src/tx_queue/mod.rs:219-240 | the queue with the element in front again |
| `EthSender.LookDecides` | zksync/core/bin/zksync_eth_sender/src/lib.rs:434-482 | which steps confirm and which replace, by the reported statuses |
| `EthSender.ReplacedIff` | zksync/core/lib/types/src/ethereum.rs:79-84 | a replacement is made if and only if the deadline is reached, no hash is included and a replacement could be signed |
| `EthSender.SiftIsSound` | zksync/core/bin/zksync_eth_sender/src/lib.rs:255-311 | a pass settles every operation as its step says, keeps the order, and panics only on a failed transaction |
| `EthSender.RunIsSound` | zksync/core/bin/zksync_eth_sender/src/lib.rs:180-195 | the invariant over all runs |
| `EthSender.SenderIsSafe` | zksync/core/bin/zksync_eth_sender/src/lib.rs:228-311 | bounded flight in nonce order, one payload per nonce, each operation confirmed at most once |
| `EthSender.DatabaseKnowsIff` | zksync/core/bin/zksync_eth_sender/src/lib.rs:483-504 | over any run, an operation in flight holds the hashes of all attempts under its nonce in order, and the database keeps all of them if and only if the network took every replacement |
| `SenderRuns.CompletionsAreCounted` | zksync/core/bin/zksync_eth_sender/src/lib.rs:286-296 | over any run a withdrawal transaction waits, is in flight or was confirmed exactly as often as it was loaded, and the completion of withdrawals once more for each confirmed verification with withdrawals |
| `SenderRuns.EveryOperationIsHeld` | zksync/core/bin/zksync_eth_sender/src/lib.rs:199-311 | when no block is loaded twice, every transaction waits, is in flight or was confirmed exactly as often as it was loaded, the due completions apart |
| `SenderRuns.NoncesHaveNoGaps` | zksync/core/bin/zksync_eth_sender/src/lib.rs:314-386 | over any run as many nonces were given out as there are operations in flight and confirmed, all with different ones |
| `SenderRuns.LastAttemptIsRemembered` | zksync/core/bin/zksync_eth_sender/src/lib.rs:483-504 | over any run each operation in flight remembers the hash and the gas price of its last attempt |
| `SenderRuns.AttemptsAreSpaced` | zksync/core/bin/zksync_eth_sender/src/lib.rs:434-507 | an attempt is made with the answers of the network, and the next one is due the configured number of blocks later: not earlier, and from then on whenever no hash is included |
| `SenderRuns.FirstAttempt` | zksync/core/bin/zksync_eth_sender/src/lib.rs:314-386 | the same for the first attempt of an operation |
| `SenderRuns.QueueGives` | zksync/core/bin/zksync_eth_sender/src/tx_queue/mod.rs:244-291 | with a free slot the queue gives an operation whenever one may be sent: a verification before a withdrawal before a commit, each kind in its order |
| `SenderRuns.PassSendsAll` | zksync/core/bin/zksync_eth_sender/src/lib.rs:232-253 | with as many answers as there are free slots, a pass goes on until no slot is free or nothing may be sent, whatever fails in between |
| `EthSender.ETHSender.InitializeOperation` | zksync/core/bin/zksync_eth_sender/src/lib.rs:314-386 | a new operation with the next nonce and one sent transaction, or no trace |
| `EthSender.ETHSender.PerformCommitmentStep` | zksync/core/bin/zksync_eth_sender/src/lib.rs:420-507 | the loop over the hashes is the specified step; nonce and payload of a replacement are the operation's, and its record is kept exactly when the network takes it |
| `EthSender.ETHSender.InitializeOperations` | zksync/core/bin/zksync_eth_sender/src/lib.rs:232-253 | what is taken from the queue is sent or returned |
| `EthSender.ETHSender.ProceedNextOperations` | zksync/core/bin/zksync_eth_sender/src/lib.rs:228-311 | the whole new state of a pass |
| `WitnessGenerator.BlocksArePartitioned` | zksync/core/bin/zksync_witness_generator/src/lib.rs:283-299 | each block above the verified one belongs to exactly one generator |
| `WitnessGenerator.EventKeepsDiligence` | zksync/core/bin/zksync_witness_generator/src/witness_generator.rs:232-262 | every event keeps: each generator stands on a block of its own and all its earlier blocks have a witness |
| `WitnessGenerator.PassedBlocksHaveWitnesses` | zksync/core/bin/zksync_witness_generator/src/witness_generator.rs:232-262 | over any interleaving and failures, every passed block has a stored witness |
| `WitnessGenerator.AllPassedMeansAllWitnessed` | zksync/core/bin/zksync_witness_generator/src/witness_generator.rs:232-262 | once all generators passed a block, every block up to it that was not verified has a witness |
| `WitnessGenerator.GeneratorsStayApart` | zksync/core/bin/zksync_witness_generator/src/lib.rs:283-299 | two generators never stand on one block |
| `WitnessGenerator.RoundsMakeProgress` | zksync/core/bin/zksync_witness_generator/src/witness_generator.rs:216-262 | in any interleaving each completed round takes a generator one block of its own further, until it is past the sealed blocks |
| `WitnessGenerator.SealedBlocksGetWitnesses` | zksync/core/bin/zksync_witness_generator/src/witness_generator.rs:216-262 | once each generator completed enough rounds, every block sealed by then and not verified at the start has a witness |
| `WitnessGenerator.TurnsMakeProgress` | zksync/core/bin/zksync_witness_generator/src/witness_generator.rs:216-262 | a generator is exactly as many of its blocks further as it completed turns |
| `WitnessGenerator.TurnIsTwoEvents` | zksync/core/bin/zksync_witness_generator/src/witness_generator.rs:239-260 | a round of the loop is a check and a store, whatever other generators do in between |
| `WitnessGenerator.WitnessGenerator.Maintain` | zksync/core/bin/zksync_witness_generator/src/witness_generator.rs:232-262 | the loop is the specified rounds |
| `WitnessGenerator.RunProverServer` | zksync/core/bin/zksync_witness_generator/src/lib.rs:283-299 | the generators with their starts and steps |

## Left out

- Rescue, SHA-256, Schnorr signatures and curve arithmetic: hashes are injective constructors, a signature is a
  boolean with the hash of the key that made it, on explicit message bits. The commitment is its preimage.
- Constraint-system internals: each gadget is the function it computes, decompositions are canonical, and the lookup
  of the chunk count is a table.
- `Soundness.LedgerSoundness`: blocks have fewer than 2^64 chunks, the size of a `usize`; with more, fee sums could
  wrap in the field.
- `FloatConversions.ToFloat`: the base is ten, exponents have at most 30 bits and mantissas at least one; the
  precondition is the exact condition under which no operation overflows, and it excludes nothing for mantissas of
  three bits or more.
- `SdkUtils.IntegerToFloat`: amounts are natural numbers and mantissas have at most 53 bits, beyond which the library
  throws.
- `HeadFalls.FallHealsIff`: the windows after a fall come back to exactly the block the head fell from; the logs of
  finished Ethereum blocks do not change.
- `Recovery.StopIsSafeIff`: a write of the database happens as a whole or not at all, and the stored tree is its list
  of blocks.
- `DataRestore.EventsState.GetNewEventsAndLastWatchedBlock`: a log query whose end is before its start returns
  nothing; token events are not modelled.
- `Mempool.Mempool.AddTx`: the database is a reply; transactions kept there across restarts are not modelled.
- `EthSender.DatabaseKnowsIff`: a restart of the sender from its database is not modelled.
- `Replay.CanRepeatIff`: the signatures of the witness are assumed to exist, as in
  `Completeness.AcceptedIffExecutable`.
- `EthSender.ETHSender.ProceedNextOperations`: database calls succeed; an operation that Ethereum does not answer for
  is tried again as often as the given list of answers says, where the code tries until it succeeds. Operations are
  values that are replaced, not objects.
- `WitnessGenerator.WitnessGenerator.Maintain`: block numbers are unbounded, so the wrap-around of 32-bit numbers is
  not modelled; building a witness and the shared account tree cache are not part of it.
- `RollupOps.GetRollupOpsFromData`: the fields that cannot be read from published data (addresses of known accounts,
  nonces, signatures) are dropped; so is decoding the contract call that carries the data.
- `TreeState`, which applies the parsed operations to a stored tree.
- `ServerHandlers.ZkSyncState.ApplyTx`: closing an account, which is disabled; signatures are the hash of the key that
  made them. Ids are given out without gaps, as `get_free_account_id` relies on.
- `ServerJournal.NothingExecutableIsTurnedAway`: no signature comes from a key whose hash is zero. Requests and blocks
  come in turns; the limits that the state keeper sets for a block (chunks, gas, withdrawals) are not modelled, so a
  block is any list of requests within the limits of the circuit.
- `ServerCircuit.CircuitAgreesIff`: fewer than 2^24 accounts, and full exits of ids below that, as the contract
  enforces; numbers of requests fit their fields and packed amounts can be packed, as `check_correctness` does.
- `Signer.SignSyncTransfer`: addresses are numbers, so malformed address strings are not modelled; the padding of a
  full amount is the number library's.
- `WalletMessages.SignedIsDone`: the wallet's amounts can be packed, as `check_correctness` demands.
- `Prover.OpsPresent`: the prover's tree is the ledger, and its signatures are assumed to exist.
- `MempoolAccounts.RunMirrors`: the committed updates fit the account map; `MempoolAccounts.UpdateMirrorsIff` says
  what happens otherwise.
- The Solidity contract beyond the order of its block events; priority requests and withdrawals on chain.
- Gas prices, which are answers of the environment.
- Storage schemas, HTTP servers, wallets, the explorer, deployment and proving.
