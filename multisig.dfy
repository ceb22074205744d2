/** The Multisig contract as an object whose storage its methods update in
    place. Each public method takes the sender (`caller`) and, where the
    contract reads it, the block timestamp (`now`) as explicit arguments, and
    returns success or the revert reason. Each is proved to leave the storage
    exactly as the corresponding operation of MultisigSpec does, so the
    properties proved there hold of this class.
 */
module MultisigContract {
  import opened MultisigSpec

  class Multisig {
    /** The contract's own address: the only sender `addOwner` accepts. */
    const self: Address
    const MinimumDelay: nat
    const MaximumDelay: nat

    var owners: set<Address>
    var queue: map<TxId, QueuedTx>
    var confirmations: map<(TxId, Address), bool>

    /** What was fixed at deployment. */
    function Cfg(): (k: Config)
    {
      Config(self, MinimumDelay, MaximumDelay)
    }

    /** The storage as a value. */
    function Storage(): (s: State)
      reads this
    {
      State(owners, queue, confirmations)
    }

    ghost predicate Valid()
      reads this
    {
      MultisigSpec.Valid(Storage())
    }

    /** Deployment: the deployer becomes the only owner. */
    constructor (deployer: Address, self: Address, minimumDelay: nat, maximumDelay: nat)
      ensures Valid()
      ensures Storage() == Initial(deployer)
      ensures Cfg() == Config(self, minimumDelay, maximumDelay)
    {
      this.self := self;
      MinimumDelay := minimumDelay;
      MaximumDelay := maximumDelay;
      owners := {deployer};
      queue := map[];
      confirmations := map[];
    }

    /** `getQueuedTx(txId)`: the stored record, or None for an unknown id. */
    function GetQueuedTx(txId: TxId): (r: Option<QueuedTx>)
      reads this
      ensures r.Some? <==> txId in queue
      ensures r.Some? ==> r.value == queue[txId]
    {
      MultisigSpec.GetQueuedTx(Storage(), txId)
    }

    /** `transactionExists(txId)` */
    predicate TransactionExists(txId: TxId): (b: bool)
      reads this
      ensures b <==> txId in queue
    {
      MultisigSpec.TransactionExists(Storage(), txId)
    }

    /** `isOwner(address)` */
    predicate IsOwner(a: Address): (b: bool)
      reads this
      ensures b <==> a in owners
    {
      MultisigSpec.IsOwner(Storage(), a)
    }

    /** `confirmations(txId, owner)`: an absent entry reads as false, and a
        set flag belongs to a queued transaction and an owner. */
    predicate Confirmations(txId: TxId, owner: Address): (b: bool)
      reads this
      ensures (txId, owner) !in confirmations ==> !b
      ensures Valid() && b ==> txId in queue && owner in owners
    {
      Confirmed(Storage(), txId, owner)
    }

    method AddTxToQueue(caller: Address, to: Address, data: Call, value: nat, executionTimestamp: nat, now: nat)
      returns (r: Result<TxId>)
      requires Valid()
      modifies this
      ensures Valid()
      ensures var step := MultisigSpec.AddTxToQueue(Cfg(), old(Storage()), caller, to, data, value, executionTimestamp, now);
              r == step.result && Storage() == step.post
    {
      AddTxToQueuePreservesValid(Cfg(), Storage(), caller, to, data, value, executionTimestamp, now);
      if caller !in owners {
        return Revert(Unauthorized);
      }
      if executionTimestamp < now + MinimumDelay || executionTimestamp > now + MaximumDelay {
        return Revert(InvalidTimestamp);
      }
      var txId := TxIdOf(to, data, value, executionTimestamp);
      if txId in queue {
        return Revert(AlreadyQueued);
      }
      queue := queue[txId := QueuedTx(to, data, value, executionTimestamp, 0)];
      r := Ok(txId);
    }

    method ConfirmTx(caller: Address, txId: TxId) returns (r: Result<()>)
      requires Valid()
      modifies this
      ensures Valid()
      ensures var step := MultisigSpec.ConfirmTx(old(Storage()), caller, txId);
              r == step.result && Storage() == step.post
    {
      ConfirmTxPreservesValid(Storage(), caller, txId);
      if caller !in owners {
        return Revert(Unauthorized);
      }
      if txId !in queue {
        return Revert(NotQueued);
      }
      if (txId, caller) in confirmations && confirmations[(txId, caller)] {
        return Revert(AlreadyConfirmed);
      }
      confirmations := confirmations[(txId, caller) := true];
      var tx := queue[txId];
      queue := queue[txId := tx.(confirmationsCount := tx.confirmationsCount + 1)];
      r := Ok(());
    }

    method CancelTxConfirmation(caller: Address, txId: TxId) returns (r: Result<()>)
      requires Valid()
      modifies this
      ensures Valid()
      ensures var step := MultisigSpec.CancelTxConfirmation(old(Storage()), caller, txId);
              r == step.result && Storage() == step.post
    {
      CancelTxConfirmationPreservesValid(Storage(), caller, txId);
      CancelTxConfirmationOutcome(Storage(), caller, txId);
      if caller !in owners {
        return Revert(Unauthorized);
      }
      if txId !in queue {
        return Revert(NotQueued);
      }
      if !((txId, caller) in confirmations && confirmations[(txId, caller)]) {
        return Revert(NotConfirmed);
      }
      confirmations := confirmations[(txId, caller) := false];
      var tx := queue[txId];
      queue := queue[txId := tx.(confirmationsCount := tx.confirmationsCount - 1)];
      r := Ok(());
    }

    /** `addOwner(address)`, which only the contract itself may call. */
    method AddOwner(caller: Address, newOwner: Address) returns (r: Result<()>)
      requires Valid()
      modifies this
      ensures Valid()
      ensures var step := MultisigSpec.AddOwner(Cfg(), old(Storage()), caller, newOwner);
              r == step.result && Storage() == step.post
    {
      if caller != self {
        return Revert(Unauthorized);
      }
      owners := owners + {newOwner};
      r := Ok(());
    }

    /** `executeTx(txId)`: after the checks, the record and its confirmations
        are deleted first, and only then is the queued call made, with the
        contract as its sender. */
    method ExecuteTx(caller: Address, txId: TxId, now: nat) returns (r: Result<()>)
      requires Valid()
      modifies this
      ensures Valid()
      ensures var step := MultisigSpec.ExecuteTx(Cfg(), old(Storage()), caller, txId, now);
              r == step.result && Storage() == step.post
    {
      if caller !in owners {
        return Revert(Unauthorized);
      }
      if txId !in queue {
        return Revert(TxDoesntExist);
      }
      var tx := queue[txId];
      if tx.confirmationsCount < |owners| {
        return Revert(NotEnoughConfirmations);
      }
      if now <= tx.executionTimestamp {
        return Revert(TooEarly);
      }
      RetirePreservesValid(Storage(), txId);
      queue := queue - {txId};
      confirmations := map p | p in confirmations && p.0 != txId :: confirmations[p];
      if tx.to == self && tx.data.AddOwnerCall? {
        var _ := AddOwner(self, tx.data.newOwner);
      }
      r := Ok(());
    }
  }
}
