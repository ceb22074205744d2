/** The test cases of test/Multisig.test.ts as client code of the class.

    Each test deploys a fresh contract (the deployer is the only owner), then
    sends transactions. Every accepted transaction is mined in a block of its
    own, so one sent after the latest block with timestamp `latest` runs at
    `latest + 1`, unless the test sets the next block's timestamp itself. A
    reverting call is not mined, so it leaves the clock where it was. The
    contract's address is `self`, and the delay constants are parameters since
    their values are not part of this model.
 */
module MultisigScenarios {
  import opened MultisigSpec
  import opened MultisigContract

  /** The call the tests queue: the contract's own `addOwner(nominee)`. */
  function AddOwnerTxData(nominee: Address): (c: Call)
    ensures c.AddOwnerCall? && c.newOwner == nominee
  {
    AddOwnerCall(nominee)
  }

  /** "Owners can add tx to queue": the stored record holds exactly the
      submitted fields and no confirmations. */
  method OwnersCanAddTxToQueue(deployer: Address, self: Address, nominee: Address,
                               minimumDelay: nat, maximumDelay: nat, latest: nat)
    returns (r: Result<TxId>, queued: Option<QueuedTx>)
    requires minimumDelay + 14 <= maximumDelay
    ensures var timelock := latest + minimumDelay + 15;
            && r == Ok(TxIdOf(self, AddOwnerTxData(nominee), 0, timelock))
            && queued == Some(QueuedTx(self, AddOwnerTxData(nominee), 0, timelock, 0))
  {
    var m := new Multisig(deployer, self, minimumDelay, maximumDelay);
    var timelock := latest + minimumDelay + 15;
    r := m.AddTxToQueue(deployer, self, AddOwnerTxData(nominee), 0, timelock, latest + 1);
    queued := m.GetQueuedTx(TxIdOf(self, AddOwnerTxData(nominee), 0, timelock));
  }

  /** "Cant add tx that already in queue": the second identical proposal is
      rejected and the first stays queued. */
  method CantAddTxAlreadyInQueue(deployer: Address, self: Address,
                                 minimumDelay: nat, maximumDelay: nat, latest: nat)
    returns (r1: Result<TxId>, r2: Result<TxId>, stillQueued: bool)
    requires minimumDelay + 14 <= maximumDelay
    ensures r1.Ok? && r2 == Revert(AlreadyQueued) && stillQueued
    ensures Message(r2.reason) == "Transaction already in queue"
  {
    var m := new Multisig(deployer, self, minimumDelay, maximumDelay);
    var timelock := latest + minimumDelay + 15;
    r1 := m.AddTxToQueue(deployer, self, AddOwnerTxData(deployer), 0, timelock, latest + 1);
    r2 := m.AddTxToQueue(deployer, self, AddOwnerTxData(deployer), 0, timelock, latest + 2);
    stillQueued := m.TransactionExists(TxIdOf(self, AddOwnerTxData(deployer), 0, timelock));
  }

  /** "Cant add tx to que with invalid timelock": in the next block after
      `before`, `before + MINIMUM_DELAY` is too soon, `before + MAXIMUM_DELAY
      + 100` is too late, and `before + MAXIMUM_DELAY - 100` is accepted. The
      two rejected calls are not mined, so all three run at `before + 1`. */
  method CantAddTxWithInvalidTimelock(deployer: Address, self: Address,
                                      minimumDelay: nat, maximumDelay: nat, before: nat)
    returns (r1: Result<TxId>, r2: Result<TxId>, r3: Result<TxId>)
    requires minimumDelay + 101 <= maximumDelay
    ensures r1 == Revert(InvalidTimestamp) && r2 == Revert(InvalidTimestamp) && r3.Ok?
    ensures Message(r1.reason) == "invalid timestamp"
  {
    var m := new Multisig(deployer, self, minimumDelay, maximumDelay);
    r1 := m.AddTxToQueue(deployer, self, AddOwnerTxData(deployer), 0, before + minimumDelay, before + 1);
    r2 := m.AddTxToQueue(deployer, self, AddOwnerTxData(deployer), 0, before + maximumDelay + 100, before + 1);
    r3 := m.AddTxToQueue(deployer, self, AddOwnerTxData(deployer), 0, before + maximumDelay - 100, before + 1);
  }

  /** "Owners can confirm queued tx" and "Owners can cancel their own
      confirmations": the count goes 0, 1, 0 and the owner's flag true, false. */
  method OwnersCanConfirmAndCancel(deployer: Address, self: Address, nominee: Address,
                                   minimumDelay: nat, maximumDelay: nat, latest: nat)
    returns (afterConfirm: Option<QueuedTx>, flagAfterConfirm: bool,
             afterCancel: Option<QueuedTx>, flagAfterCancel: bool)
    requires minimumDelay + 14 <= maximumDelay
    ensures afterConfirm.Some? && afterConfirm.value.confirmationsCount == 1 && flagAfterConfirm
    ensures afterCancel.Some? && afterCancel.value.confirmationsCount == 0 && !flagAfterCancel
  {
    var m := new Multisig(deployer, self, minimumDelay, maximumDelay);
    var timelock := latest + minimumDelay + 15;
    var r := m.AddTxToQueue(deployer, self, AddOwnerTxData(nominee), 0, timelock, latest + 1);
    var txId := TxIdOf(self, AddOwnerTxData(nominee), 0, timelock);
    var c := m.ConfirmTx(deployer, txId);
    afterConfirm := m.GetQueuedTx(txId);
    flagAfterConfirm := m.Confirmations(txId, deployer);
    var x := m.CancelTxConfirmation(deployer, txId);
    afterCancel := m.GetQueuedTx(txId);
    flagAfterCancel := m.Confirmations(txId, deployer);
  }

  /** "Cant confirm tx that already confimred". */
  method CantConfirmTwice(deployer: Address, self: Address,
                          minimumDelay: nat, maximumDelay: nat, latest: nat)
    returns (r1: Result<()>, r2: Result<()>)
    requires minimumDelay + 14 <= maximumDelay
    ensures r1.Ok? && r2 == Revert(AlreadyConfirmed)
    ensures Message(r2.reason) == "Already confirmed"
  {
    var m := new Multisig(deployer, self, minimumDelay, maximumDelay);
    var timelock := latest + minimumDelay + 15;
    var r := m.AddTxToQueue(deployer, self, AddOwnerTxData(deployer), 0, timelock, latest + 1);
    var txId := TxIdOf(self, AddOwnerTxData(deployer), 0, timelock);
    r1 := m.ConfirmTx(deployer, txId);
    r2 := m.ConfirmTx(deployer, txId);
  }

  /** "Cant confirm non queued tx" and "Cant cancel confirm for non existent
      tx": on a fresh contract any identifier is unknown. */
  method CantConfirmOrCancelNonQueued(deployer: Address, self: Address,
                                      minimumDelay: nat, maximumDelay: nat, fakeTxId: TxId)
    returns (r1: Result<()>, r2: Result<()>)
    ensures r1 == Revert(NotQueued) && r2 == Revert(NotQueued)
    ensures Message(r1.reason) == "Not queued"
  {
    var m := new Multisig(deployer, self, minimumDelay, maximumDelay);
    r1 := m.ConfirmTx(deployer, fakeTxId);
    r2 := m.CancelTxConfirmation(deployer, fakeTxId);
  }

  /** "Cant cancel confirmation that doesnt exists". */
  method CantCancelMissingConfirmation(deployer: Address, self: Address, nominee: Address,
                                       minimumDelay: nat, maximumDelay: nat, latest: nat)
    returns (r: Result<()>)
    requires minimumDelay + 14 <= maximumDelay
    ensures r == Revert(NotConfirmed)
    ensures Message(r.reason) == "Not confirmed"
  {
    var m := new Multisig(deployer, self, minimumDelay, maximumDelay);
    var timelock := latest + minimumDelay + 15;
    var q := m.AddTxToQueue(deployer, self, AddOwnerTxData(nominee), 0, timelock, latest + 1);
    r := m.CancelTxConfirmation(deployer, TxIdOf(self, AddOwnerTxData(nominee), 0, timelock));
  }

  /** The loop of the helper `addOwner`: each listed owner confirms `txId` in
      turn. The listed owners must be exactly the current owners, each once,
      none of whom has confirmed yet; afterwards every current owner has. */
  method ConfirmByAll(m: Multisig, txId: TxId, owners: seq<Address>)
    requires m.Valid()
    requires txId in m.queue
    requires forall i, j | 0 <= i < j < |owners| :: owners[i] != owners[j]
    requires forall o: Address :: o in m.owners <==> o in owners
    requires forall o: Address :: !Confirmed(m.Storage(), txId, o)
    modifies m
    ensures m.Valid()
    ensures m.owners == old(m.owners)
    ensures Unanimous(m.Storage(), txId)
    ensures txId in m.queue && m.queue[txId].(confirmationsCount := 0) == old(m.queue[txId]).(confirmationsCount := 0)
    ensures m.queue - {txId} == old(m.queue) - {txId}
    ensures forall j: TxId, o: Address | j != txId :: Confirmed(m.Storage(), j, o) == Confirmed(old(m.Storage()), j, o)
  {
    var i := 0;
    while i < |owners|
      invariant 0 <= i <= |owners|
      invariant m.Valid()
      invariant m.owners == old(m.owners)
      invariant txId in m.queue && m.queue[txId].(confirmationsCount := 0) == old(m.queue[txId]).(confirmationsCount := 0)
      invariant forall j | 0 <= j < |owners| :: Confirmed(m.Storage(), txId, owners[j]) <==> j < i
      invariant m.queue - {txId} == old(m.queue) - {txId}
      invariant forall j: TxId, o: Address | j != txId :: Confirmed(m.Storage(), j, o) == Confirmed(old(m.Storage()), j, o)
    {
      ghost var before := m.Storage();
      ConfirmTxOutcome(before, owners[i], txId);
      var c := m.ConfirmTx(owners[i], txId);
      assert c.Ok?;
      i := i + 1;
    }
    ghost var s1 := m.Storage();
    forall o: Address | o in s1.owners ensures Confirmed(s1, txId, o) {
      var j :| 0 <= j < |owners| && owners[j] == o;
    }
  }

  /** The helper `addOwner(nominee, owners)`: `owners[0]` queues a self-call of
      `addOwner(nominee)` with a delay of MINIMUM_DELAY + 15, every listed
      owner confirms it in turn, and `owners[0]` executes it one second after
      its execution time. The listed owners must be exactly the current owners,
      each once. Afterwards `nominee` is an owner and the proposal is gone;
      the result is the timestamp of the executing block. */
  method AddOwnerFlow(m: Multisig, nominee: Address, owners: seq<Address>, latest: nat)
    returns (executedAt: nat)
    requires m.Valid()
    requires forall i, j | 0 <= i < j < |owners| :: owners[i] != owners[j]
    requires forall o: Address :: o in m.owners <==> o in owners
    requires m.MinimumDelay + 14 <= m.MaximumDelay
    requires !m.TransactionExists(TxIdOf(m.self, AddOwnerTxData(nominee), 0, latest + m.MinimumDelay + 15))
    modifies m
    ensures m.Valid()
    ensures m.IsOwner(nominee)
    ensures m.owners == old(m.owners) + {nominee}
    ensures !m.TransactionExists(TxIdOf(m.self, AddOwnerTxData(nominee), 0, latest + m.MinimumDelay + 15))
    ensures m.queue == old(m.queue)
    ensures forall j: TxId, o: Address :: Confirmed(m.Storage(), j, o) == Confirmed(old(m.Storage()), j, o)
    ensures executedAt == latest + m.MinimumDelay + 16
  {
    var timelock := latest + m.MinimumDelay + 15;
    var txId := TxIdOf(m.self, AddOwnerTxData(nominee), 0, timelock);
    ghost var s0 := m.Storage();
    AddTxToQueueOutcome(m.Cfg(), s0, owners[0], m.self, AddOwnerTxData(nominee), 0, timelock, latest + 1);
    var q := m.AddTxToQueue(owners[0], m.self, AddOwnerTxData(nominee), 0, timelock, latest + 1);
    assert q.Ok? && m.confirmations == s0.confirmations;
    assert s0.queue == m.queue - {txId};
    forall o: Address ensures !Confirmed(m.Storage(), txId, o) {
      assert (txId, o) !in s0.confirmations;
    }

    ConfirmByAll(m, txId, owners);
    ghost var s1 := m.Storage();
    assert s1.queue - {txId} == s0.queue;
    executedAt := timelock + 1;
    ExecuteTxOutcome(m.Cfg(), s1, owners[0], txId, executedAt);
    ExecuteTxEffect(m.Cfg(), s1, owners[0], txId, executedAt);
    var e := m.ExecuteTx(owners[0], txId, executedAt);
    assert e.Ok?;
    assert m.queue == s1.queue - {txId};
    forall j: TxId, o: Address ensures Confirmed(m.Storage(), j, o) == Confirmed(s0, j, o) {
      if j == txId {
        assert (txId, o) !in s0.confirmations;
      }
    }
  }

  /** "Any owner can execute tx that was confirmed": with the deployer and a
      second owner, a proposal to add a third owner confirmed by both is
      executed by the second owner after its timelock; the nominee is then an
      owner and the transaction no longer exists. */
  method AnyOwnerCanExecuteConfirmedTx(deployer: Address, anotherOwner: Address, nominee: Address,
                                       self: Address, minimumDelay: nat, maximumDelay: nat, latest: nat)
    returns (r: Result<()>, isOwner: bool, txExists: bool)
    requires deployer != anotherOwner
    requires minimumDelay + 14 <= maximumDelay
    ensures r == Ok(()) && isOwner && !txExists
  {
    var m := new Multisig(deployer, self, minimumDelay, maximumDelay);
    ghost var init := m.Storage();
    var now := AddOwnerFlow(m, anotherOwner, [deployer], latest);
    var timelock := now + minimumDelay + 15;
    var txId := TxIdOf(self, AddOwnerTxData(nominee), 0, timelock);
    assert txId != TxIdOf(self, AddOwnerTxData(anotherOwner), 0, latest + minimumDelay + 15);
    assert m.GetQueuedTx(txId) == None;
    ghost var s0 := m.Storage();
    assert s0.owners == {deployer, anotherOwner} && !TransactionExists(s0, txId);
    AddTxToQueueOutcome(m.Cfg(), s0, deployer, self, AddOwnerTxData(nominee), 0, timelock, now + 1);
    var q := m.AddTxToQueue(deployer, self, AddOwnerTxData(nominee), 0, timelock, now + 1);
    assert q.Ok? && m.confirmations == s0.confirmations;
    forall o: Address ensures !Confirmed(m.Storage(), txId, o) {
      assert Confirmed(s0, txId, o) == Confirmed(init, txId, o);
    }
    ConfirmByAll(m, txId, [deployer, anotherOwner]);
    ghost var s3 := m.Storage();
    ExecuteTxOutcome(m.Cfg(), s3, anotherOwner, txId, timelock + 1);
    ExecuteTxEffect(m.Cfg(), s3, anotherOwner, txId, timelock + 1);
    r := m.ExecuteTx(anotherOwner, txId, timelock + 1);
    isOwner := m.IsOwner(nominee);
    txExists := m.TransactionExists(txId);
  }

  /** "Cant execute non existent tx". */
  method CantExecuteNonExistentTx(deployer: Address, self: Address,
                                  minimumDelay: nat, maximumDelay: nat, fakeTxId: TxId, now: nat)
    returns (r: Result<()>)
    ensures r == Revert(TxDoesntExist)
    ensures Message(r.reason) == "Tx doesnt exists"
  {
    var m := new Multisig(deployer, self, minimumDelay, maximumDelay);
    r := m.ExecuteTx(deployer, fakeTxId, now);
  }

  /** "Cant execute tx that doesnt confrimed by all owners": with two owners
      and only the deployer's confirmation, execution after the timelock fails. */
  method CantExecuteWithoutAllConfirmations(deployer: Address, anotherOwner: Address, nominee: Address,
                                            self: Address, minimumDelay: nat, maximumDelay: nat, latest: nat)
    returns (r: Result<()>)
    requires deployer != anotherOwner
    requires minimumDelay + 14 <= maximumDelay
    ensures r == Revert(NotEnoughConfirmations)
    ensures Message(r.reason) == "Not enough confirmations"
  {
    var m := new Multisig(deployer, self, minimumDelay, maximumDelay);
    ghost var init := m.Storage();
    var now := AddOwnerFlow(m, anotherOwner, [deployer], latest);
    var timelock := now + minimumDelay + 15;
    var txId := TxIdOf(self, AddOwnerTxData(nominee), 0, timelock);
    assert txId != TxIdOf(self, AddOwnerTxData(anotherOwner), 0, latest + minimumDelay + 15);
    assert m.GetQueuedTx(txId) == None;
    ghost var s0 := m.Storage();
    assert s0.owners == {deployer, anotherOwner} && !TransactionExists(s0, txId);
    AddTxToQueueOutcome(m.Cfg(), s0, deployer, self, AddOwnerTxData(nominee), 0, timelock, now + 1);
    var q := m.AddTxToQueue(deployer, self, AddOwnerTxData(nominee), 0, timelock, now + 1);
    ghost var s1 := m.Storage();
    assert q.Ok? && s1.confirmations == s0.confirmations;
    assert !Confirmed(s1, txId, anotherOwner) by {
      assert Confirmed(s0, txId, anotherOwner) == Confirmed(init, txId, anotherOwner);
    }
    ConfirmTxOutcome(s1, deployer, txId);
    var c := m.ConfirmTx(deployer, txId);
    ghost var s2 := m.Storage();
    assert c.Ok? && !Confirmed(s2, txId, anotherOwner);
    assert s2.queue[txId].confirmationsCount == 1 && |s2.owners| == 2;
    ExecuteTxOutcome(m.Cfg(), s2, deployer, txId, timelock + 1);
    r := m.ExecuteTx(deployer, txId, timelock + 1);
  }

  /** "Cant execute tx before timelock exceed": the only owner has confirmed
      in a block at `timelock - 1`, so quorum is met, and the execution, mined
      in a later block at the execution time or before it, is too early. */
  method CantExecuteBeforeTimelock(deployer: Address, nominee: Address, self: Address,
                                   minimumDelay: nat, maximumDelay: nat, latest: nat, executeAt: nat)
    returns (r: Result<()>)
    requires minimumDelay + 14 <= maximumDelay
    requires executeAt <= latest + minimumDelay + 15
    ensures r == Revert(TooEarly)
    ensures Message(r.reason) == "Too early"
  {
    var m := new Multisig(deployer, self, minimumDelay, maximumDelay);
    var timelock := latest + minimumDelay + 15;
    var txId := TxIdOf(self, AddOwnerTxData(nominee), 0, timelock);
    var q := m.AddTxToQueue(deployer, self, AddOwnerTxData(nominee), 0, timelock, latest + 1);
    var c := m.ConfirmTx(deployer, txId);
    r := m.ExecuteTx(deployer, txId, executeAt);
  }
}
