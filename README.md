# Multisig: transaction queue, confirmations and execution

This project models the Multisig contract. The contract is a multi-owner account that acts only through proposals. Each proposal is queued with an execution time inside a delay window. Every current owner must confirm it. It can be executed once, after its execution time. The Solidity contract itself is not part of this model. The behaviour modelled is the one pinned down by the hardhat tests in `test/Multisig.test.ts`.

- `multisig_spec.dfy`, module `MultisigSpec`: the contract's storage as a value (`State`: owners, the queue `txId -> QueuedTx`, and the flags `(txId, owner) -> bool`) and each public operation as a function from the old state to its outcome and the new state. The outcome is success or one of the revert reasons the tests check. A revert always leaves the state unchanged. `Valid` is the storage invariant: there is always an owner; every confirmation entry belongs to a queued transaction and to an owner; each record is stored under its own content-derived id; and `confirmationsCount` equals the number of owners whose flag is set. The lemmas prove the invariant is preserved and state the tested behaviour for all inputs.
- `multisig.dfy`, module `MultisigContract`: class `Multisig`, whose fields are that storage and whose methods update it in place, in the order the contract does (checks, then state changes; in `ExecuteTx` the record and its confirmations are deleted before the queued call runs). Each method is proved to produce exactly the outcome and state of the matching `MultisigSpec` operation and to keep `Valid`.
- `scenarios.dfy`, module `MultisigScenarios`: each `it` case of the test file, and its `addOwner` helper, as client code of the class, proved to end the way the test expects.

Host inputs are explicit parameters: the sender (`caller`), the block timestamp (`now`), the contract's own address (`self`) and the two delays fixed at deployment. The transaction id is the tuple `(to, data, value, executionTimestamp)` itself (`TxIdOf`). That makes the id injective, standing in for the keccak hash of the packed tuple. Call data is either a self-call `addOwner(address)` or opaque bytes that do not decode as one.

Modelling choices where the tests leave the behaviour open:
- `executeTx` reports "Too early" while `now <= executionTimestamp`. The test at test/Multisig.test.ts:328-335 confirms in a block at `executionTimestamp - 1`. It expects the execution in the next block, whose timestamp is at least `executionTimestamp`, to revert with "Too early". Only a strict comparison fits that test: with `now >= executionTimestamp` that execution would go through.
- Admission accepts `now + MINIMUM_DELAY <= executionTimestamp <= now + MAXIMUM_DELAY`. The tests stay clear of both edges.
- A caller that is not an owner gets `Unauthorized` from all four operations, checked first. `addOwner` gets `Unauthorized` from any caller but the contract itself. No test exercises either case.
- `addOwner` of an address that is already an owner changes nothing (the owners are a set).

## Model

| member | source | states |
|---|---|---|
| `MultisigSpec.Initial` | test/Multisig.test.ts:21-29 | after deployment the deployer is the only owner, nothing is queued, and the storage invariant holds |
| `MultisigSpec.Message` | test/Multisig.test.ts:73-335 | each revert reason has its own text ("invalid timestamp", "Transaction already in queue", "Already confirmed", "Not queued", "Not confirmed", "Tx doesnt exists", "Not enough confirmations", "Too early"), so reading the text back gives the reason |
| `MultisigSpec.TxIdOf` | test/Multisig.test.ts:356-361 | the id is built from the four packed fields, and each of them is read back unchanged from it |
| `MultisigSpec.TxIdOfInjective` | test/Multisig.test.ts:356-361 | the id is derived from `(to, data, value, executionTimestamp)` alone: two proposals get the same id exactly when those four agree |
| `MultisigSpec.GetQueuedTx` | test/Multisig.test.ts:48-54 | `getQueuedTx` returns a record exactly for a queued id (an unknown id reads as `None`); under the invariant the record carries that id's own fields and a count equal to its number of set flags |
| `MultisigSpec.TransactionExists` | test/Multisig.test.ts:270-273 | `transactionExists` holds exactly when `getQueuedTx` returns a record |
| `MultisigSpec.AbsentTxHasNoConfirmations` | test/Multisig.test.ts:269-273 | under the invariant, an id for which `transactionExists` is false reads as `None` and has no owner's flag set |
| `MultisigSpec.NonOwnerHasNoConfirmations` | test/Multisig.test.ts:269-272 | under the invariant, an address for which `isOwner` is false has no flag set for any transaction |
| `MultisigSpec.Confirmed` | test/Multisig.test.ts:132-133 | `confirmations(txId, owner)` reads an absent entry as false; under the invariant a set flag belongs to a queued transaction and a current owner |
| `MultisigSpec.ConfirmedIsCounted` | test/Multisig.test.ts:129-133 | a flag read by `confirmations` is set exactly when the owner is among those `confirmationsCount` counts; under the invariant the count of a queued transaction is the number of current owners whose flag is set |
| `MultisigSpec.AddTxToQueue` | test/Multisig.test.ts:57-107 | a rejected admission ("invalid timestamp", "Transaction already in queue") leaves the storage unchanged |
| `MultisigSpec.ConfirmTx` | test/Multisig.test.ts:174-214 | a rejected confirmation ("Not queued", "Already confirmed") leaves the storage unchanged |
| `MultisigSpec.CancelTxConfirmation` | test/Multisig.test.ts:207-235 | a rejected cancellation ("Not queued", "Not confirmed") leaves the storage unchanged |
| `MultisigSpec.AddOwner` | test/Multisig.test.ts:339-346 | the registry mutator that the queued calls target; a rejected call leaves the storage unchanged |
| `MultisigSpec.Retire` | test/Multisig.test.ts:269-273 | after retiring an id the transaction no longer exists and no owner's flag for it is set |
| `MultisigSpec.Dispatch` | test/Multisig.test.ts:264-273 | the executed call leaves the queue and the flags alone and only ever adds to the owners: at most the nominee, and only for a self-call `addOwner(nominee)` |
| `MultisigSpec.ExecuteTx` | test/Multisig.test.ts:276-336 | a rejected execution ("Tx doesnt exists", "Not enough confirmations", "Too early") leaves the storage unchanged |
| `MultisigSpec.AddTxToQueuePreservesValid` | test/Multisig.test.ts:43-54 | admission keeps the storage invariant: the new record's count of 0 matches its empty set of flags |
| `MultisigSpec.ConfirmTxPreservesValid` | test/Multisig.test.ts:126-133 | confirming keeps `confirmationsCount` equal to the number of set flags for every transaction |
| `MultisigSpec.CancelTxConfirmationPreservesValid` | test/Multisig.test.ts:163-171 | cancelling keeps `confirmationsCount` equal to the number of set flags for every transaction |
| `MultisigSpec.RetirePreservesValid` | test/Multisig.test.ts:269-273 | removing a transaction with its confirmations keeps the invariant for every other transaction |
| `MultisigSpec.AddOwnerPreservesValid` | test/Multisig.test.ts:339-346 | adding an owner keeps the invariant |
| `MultisigSpec.ExecuteTxPreservesValid` | test/Multisig.test.ts:266-273 | execution, including the self-call it performs, keeps the invariant |
| `MultisigSpec.QuorumIsUnanimity` | test/Multisig.test.ts:258-266 | for a queued transaction, having at least as many confirmations as there are current owners is equivalent to every current owner having confirmed it |
| `MultisigSpec.AddTxToQueueOutcome` | test/Multisig.test.ts:43-54 | admission succeeds exactly for an owner, an execution time in the window and an id not yet queued; it then returns the content-derived id and `getQueuedTx` gives back the submitted `to`, `data`, `value`, `executionTimestamp` with count 0, while every other record, the owners and the flags stay as they were |
| `MultisigSpec.TimestampWindow` | test/Multisig.test.ts:89-106 | an owner's proposal is rejected with "invalid timestamp" exactly when its execution time is before `now + MINIMUM_DELAY` or after `now + MAXIMUM_DELAY` |
| `MultisigSpec.DuplicateProposalRejected` | test/Multisig.test.ts:57-76 | proposing the same four values again is rejected with "Transaction already in queue" and the first proposal stays queued, untouched |
| `MultisigSpec.ConfirmTxOutcome` | test/Multisig.test.ts:126-133 | confirming succeeds exactly for an owner who has not yet confirmed a queued transaction; it then sets that owner's flag and raises the count by one, and changes no other flag, record field or record |
| `MultisigSpec.CancelTxConfirmationOutcome` | test/Multisig.test.ts:153-171 | cancelling succeeds exactly for an owner who has confirmed a queued transaction; it then clears that owner's flag and lowers the count by one, and changes nothing else |
| `MultisigSpec.ConfirmThenCancel` | test/Multisig.test.ts:153-171 | a confirmation followed by the same owner's cancellation succeeds and restores the queue, the owners and every flag to what they were before |
| `MultisigSpec.ConfirmTwiceRejected` | test/Multisig.test.ts:191-195 | a second confirmation by the same owner fails with "Already confirmed" |
| `MultisigSpec.CancelWithoutConfirmRejected` | test/Multisig.test.ts:228-234 | cancelling without a prior confirmation fails with "Not confirmed" |
| `MultisigSpec.NotQueuedRejected` | test/Multisig.test.ts:198-214 | confirming or cancelling an id that is not queued fails with "Not queued" |
| `MultisigSpec.ExecuteTxOutcome` | test/Multisig.test.ts:276-336 | for an owner, execution fails with "Tx doesnt exists" exactly when the id is not queued; with "Not enough confirmations" exactly when it is queued but some current owner has not confirmed (whatever the time); with "Too early" exactly when every owner has confirmed but `now` has not passed the execution time; and succeeds exactly otherwise |
| `MultisigSpec.ExecuteTxEffect` | test/Multisig.test.ts:264-273 | a successful execution removes the transaction and all its flags and keeps every other record and flag; a queued self-call `addOwner(n)` makes `n` an owner and grows the owner count by one when `n` was new; any other call leaves the owners unchanged |
| `MultisigSpec.ExecutesAtMostOnce` | test/Multisig.test.ts:266-273 | after a successful execution, the next execution of the same id fails, for an owner with "Tx doesnt exists" |
| `MultisigSpec.NoRequeueAfterExecution` | test/Multisig.test.ts:266-273 | after a successful execution, proposing the same id again fails in every state and every block no earlier than the executing one, for an owner with "invalid timestamp" |
| `MultisigSpec.Apply` | test/Multisig.test.ts:372-407 | any single call of the contract's external functions keeps the storage invariant |
| `MultisigSpec.Run` | test/Multisig.test.ts:372-407 | every state reached by a sequence of calls keeps the storage invariant |
| `MultisigSpec.ApplyKeepsRetired` | test/Multisig.test.ts:266-273 | no single call in a block no earlier than the clock brings back an absent id whose execution time lies before the clock |
| `MultisigSpec.RunKeepsRetired` | test/Multisig.test.ts:266-273 | such an id stays absent under every sequence of calls that does not turn the clock back |
| `MultisigSpec.ExecutionIsFinal` | test/Multisig.test.ts:266-281 | each transaction executes at most once: after a successful execution, whatever calls follow while the clock does not go back, the id never exists again and every later execution of it fails, for an owner with "Tx doesnt exists" |
| `MultisigSpec.LaterQuorumNeedsNewOwner` | test/Multisig.test.ts:284-311 | once an `addOwner(n)` proposal has executed, any queued transaction that `n` has not confirmed fails with "Not enough confirmations" |
| `MultisigSpec.OwnersChangeOnlyThroughExecution` | test/Multisig.test.ts:339-346 | `addOwner` from anyone but the contract itself fails with "Unauthorized" and changes nothing; admission, confirmation and cancellation never change the owners |
| `MultisigSpec.QueueEntriesAreNotRewritten` | test/Multisig.test.ts:356-361 | confirming and cancelling add or remove no queue entry and change only `confirmationsCount`; execution only removes entries |
| `MultisigContract.Multisig.constructor` | test/Multisig.test.ts:21-29 | deployment stores the deployer as the only owner, an empty queue and no flags, with the given delays |
| `MultisigContract.Multisig.GetQueuedTx` | test/Multisig.test.ts:48-54 | returns the stored record for a queued id and `None` for an unknown one |
| `MultisigContract.Multisig.TransactionExists` | test/Multisig.test.ts:270-273 | holds exactly when a record is stored under the id |
| `MultisigContract.Multisig.IsOwner` | test/Multisig.test.ts:269-272 | holds exactly for the stored owners |
| `MultisigContract.Multisig.Confirmations` | test/Multisig.test.ts:156-171 | an absent entry reads as false; under the invariant a set flag belongs to a queued transaction and a current owner |
| `MultisigContract.Multisig.AddTxToQueue` | test/Multisig.test.ts:43-107 | the in-place admission returns and stores exactly what `MultisigSpec.AddTxToQueue` does, and keeps the invariant |
| `MultisigContract.Multisig.ConfirmTx` | test/Multisig.test.ts:126-134 | the in-place confirmation returns and stores exactly what `MultisigSpec.ConfirmTx` does, and keeps the invariant |
| `MultisigContract.Multisig.CancelTxConfirmation` | test/Multisig.test.ts:163-171 | the in-place cancellation returns and stores exactly what `MultisigSpec.CancelTxConfirmation` does, and keeps the invariant |
| `MultisigContract.Multisig.AddOwner` | test/Multisig.test.ts:339-346 | the in-place registry update matches `MultisigSpec.AddOwner` and keeps the invariant |
| `MultisigContract.Multisig.ExecuteTx` | test/Multisig.test.ts:266-273 | the in-place execution deletes the record and its flags before making the queued call, and the result matches `MultisigSpec.ExecuteTx` |
| `MultisigScenarios.AddOwnerTxData` | test/Multisig.test.ts:339-346 | the call data `createAddOwnerTx` encodes is `addOwner(nominee)`, sent to the contract itself |
| `MultisigScenarios.OwnersCanAddTxToQueue` | test/Multisig.test.ts:31-55 | on a fresh contract the deployer's proposal returns the content-derived id and is stored with the submitted fields and count 0 |
| `MultisigScenarios.CantAddTxAlreadyInQueue` | test/Multisig.test.ts:57-76 | the second identical proposal reverts with "Transaction already in queue" and the first stays queued |
| `MultisigScenarios.CantAddTxWithInvalidTimelock` | test/Multisig.test.ts:79-107 | in the block after `before`, `before + MINIMUM_DELAY` and `before + MAXIMUM_DELAY + 100` revert with "invalid timestamp"; `before + MAXIMUM_DELAY - 100` is accepted |
| `MultisigScenarios.OwnersCanConfirmAndCancel` | test/Multisig.test.ts:109-172 | after confirming, the count is 1 and the flag true; after cancelling, 0 and false |
| `MultisigScenarios.CantConfirmTwice` | test/Multisig.test.ts:174-196 | the second confirmation reverts with "Already confirmed" |
| `MultisigScenarios.CantConfirmOrCancelNonQueued` | test/Multisig.test.ts:198-214 | on a fresh contract, confirming and cancelling any id revert with "Not queued" |
| `MultisigScenarios.CantCancelMissingConfirmation` | test/Multisig.test.ts:216-235 | cancelling a confirmation never given reverts with "Not confirmed" |
| `MultisigScenarios.ConfirmByAll` | test/Multisig.test.ts:390-397 | when the listed owners are exactly the current owners, each once, and none has confirmed yet, confirming in turn leaves every current owner confirmed, keeps the proposal's fields and changes no other record and no other transaction's confirmation flags |
| `MultisigScenarios.AddOwnerFlow` | test/Multisig.test.ts:372-407 | queueing a self-call `addOwner(nominee)`, letting each current owner confirm it in turn and executing it after its timelock succeeds: the nominee becomes an owner, the proposal is gone, and the queue and every confirmation flag are as they were before |
| `MultisigScenarios.AnyOwnerCanExecuteConfirmedTx` | test/Multisig.test.ts:237-274 | with two owners who both confirmed, the second owner's execution after the timelock succeeds, the nominee is an owner and the transaction no longer exists |
| `MultisigScenarios.CantExecuteNonExistentTx` | test/Multisig.test.ts:276-282 | executing an unknown id reverts with "Tx doesnt exists" |
| `MultisigScenarios.CantExecuteWithoutAllConfirmations` | test/Multisig.test.ts:284-311 | with two owners and only the deployer's confirmation, execution after the timelock reverts with "Not enough confirmations" |
| `MultisigScenarios.CantExecuteBeforeTimelock` | test/Multisig.test.ts:313-336 | with full quorum, execution at or before the execution time reverts with "Too early" |

## Left out

- Deployment, signers, block mining and `time.setNextBlockTimestamp`: host plumbing. The sender and the block time are parameters; the scenarios advance the time by one second per mined transaction, and a reverting call is not mined.
- A block clock that goes back: block timestamps never decrease, and `NoRequeueAfterExecution` and `ExecutionIsFinal` assume so. The model does not rule out re-proposing an executed id at an earlier time.
- ABI encoding, `solidityPack` and `keccak256`: foreign library code. The id is the tuple itself, and call data is a datatype that distinguishes `addOwner(address)` from opaque bytes. `OpaqueCall` stands only for data that does not decode as `addOwner(address)`, so the same call has a single representation.
- Events (`Queued`, confirmations, `ExecutedTx`): not modelled. The id that `Queued` carries is the value `addTxToQueue` returns.
- Calls to other contracts, native value transfer and gas: EVM runtime concerns. Executed calls other than `addOwner` on the contract itself are treated as succeeding with no effect on the modelled storage, whatever their `value`. A failing call (`CallFailed`) is not represented.
- Reentrancy: the only call modelled cannot re-enter. The deletion-before-call order is kept in `Multisig.ExecuteTx`.
- `removeOwner` and any other registry operation: no test exercises them.
- The constant values of `MINIMUM_DELAY` and `MAXIMUM_DELAY`: they are not in the test file, so they are deployment parameters. The scenarios assume only the gaps between them that the tests rely on.
- 256-bit arithmetic: timestamps, values and counts are unbounded naturals. No overflow of `now + MAXIMUM_DELAY` or of the count is modelled.
- `getQueuedTx` of an unknown id: the contract would return a zeroed record; the model returns `None`.
- The revert text for a non-owner caller is not asserted by any test. `Message(Unauthorized)` is this model's choice.
