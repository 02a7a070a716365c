/** The relayer's executor and state machine (bridge/bridges/ethMultiversX, bridge/stateMachine) with their fields. */
module RelayerMachine {
  import opened Collections
  import opened Transactions
  import opened MultisigTable
  import opened RelayerSteps

  /** Overwrites surplus statuses and appends missing ones. */
  method ResolveStatuses(statuses: seq<nat>, newNumDeposits: nat) returns (resolved: seq<nat>)
    ensures resolved == ResolveNewDeposits(statuses, newNumDeposits)
  {
    resolved := statuses;
    var oldLen := |statuses|;
    if newNumDeposits == oldLen {
      return;
    }
    for i := newNumDeposits to if newNumDeposits <= oldLen then oldLen else newNumDeposits
      invariant |resolved| == oldLen
      invariant forall k :: 0 <= k < oldLen ==> resolved[k] == if newNumDeposits <= k < i then REJECTED else statuses[k]
    {
      resolved := resolved[i := REJECTED];
    }
    while newNumDeposits > |resolved|
      invariant |resolved| == oldLen || oldLen <= |resolved| <= newNumDeposits
      invariant forall k :: 0 <= k < |resolved| ==>
        resolved[k] == if k < oldLen && k < newNumDeposits then statuses[k] else REJECTED
    {
      resolved := resolved + [REJECTED];
    }
  }

  /** Waits and asks until the statuses are final, a wait is interrupted, or the attempts are used up. */
  method WaitAndReturnFinalBatchStatuses(a: Answers) returns (statuses: seq<nat>)
    ensures statuses == FinalStatuses(Rounds(a))
  {
    var rounds := Rounds(a);
    for i := 0 to |rounds|
      invariant FinalStatuses(rounds) == FinalStatuses(rounds[i..])
    {
      if !rounds[i].waited {
        return [];
      }
      if rounds[i].statuses.Some? && rounds[i].statuses.value != [] {
        return rounds[i].statuses.value;
      }
      assert rounds[i..][1..] == rounds[i + 1..];
    }
    statuses := [];
  }

  method VerifyDepositNonces(deposits: seq<Deposit>, lastNonce: nat) returns (ok: bool)
    ensures ok <==> NoncesFollow(deposits, lastNonce)
  {
    var startNonce := Next64(lastNonce);
    for i := 0 to |deposits|
      invariant startNonce == (lastNonce + 1 + i) % U64
      invariant NoncesFollow(deposits[..i], lastNonce)
    {
      if deposits[i].nonce != startNonce {
        return false;
      }
      WrapOnce(lastNonce + 1 + i);
      startNonce := Next64(startNonce);
    }
    ok := true;
  }

  lemma {:induction false} WrapOnce(n: nat)
    ensures (n % U64 + 1) % U64 == (n + 1) % U64
  {
    var q, r := n / U64, n % U64;
    assert n == q * U64 + r;
    if r + 1 == U64 {
      assert n + 1 == (q + 1) * U64;
    } else {
      assert n + 1 == q * U64 + (r + 1);
    }
  }

  class BridgeExecutor {
    var batch: Option<TransferBatch>
    var actionId: nat
    var msgHash: nat
    var quorumRetriesOnEthereum: nat
    var quorumRetriesOnMultiversX: nat
    var retriesOnWasProposed: nat
    const limits: Limits
    /** What was learnt and sent so far. */
    var log: seq<Event>

    constructor (limits: Limits)
      ensures State() == Executor(None, 0, 0, 0, 0, 0) && log == [] && this.limits == limits
    {
      this.limits := limits;
      batch, actionId, msgHash, log := None, 0, 0, [];
      quorumRetriesOnEthereum, quorumRetriesOnMultiversX, retriesOnWasProposed := 0, 0, 0;
    }

    function State(): Executor
      reads this
    {
      Executor(batch, actionId, msgHash, quorumRetriesOnEthereum, quorumRetriesOnMultiversX, retriesOnWasProposed)
    }

    /** The executor has gone through a step as specified. */
    ghost predicate Did(r: StepResult, before: seq<Event>, next: StepId)
      reads this
    {
      State() == r.executor && log == before + r.events && next == r.next
    }

    method Note(e: Event)
      modifies this`log
      ensures log == old(log) + [e]
    {
      log := log + [e];
    }

    /** Each of the three retry counters: true once the limit is reached, otherwise one more attempt. */
    method ProcessMaxQuorumRetriesOnEthereum() returns (reached: bool)
      modifies this`quorumRetriesOnEthereum
      ensures reached <==> old(quorumRetriesOnEthereum) >= limits.quorumOnEthereum
      ensures quorumRetriesOnEthereum == old(quorumRetriesOnEthereum) + if reached then 0 else 1
    {
      reached := quorumRetriesOnEthereum >= limits.quorumOnEthereum;
      if !reached {
        quorumRetriesOnEthereum := quorumRetriesOnEthereum + 1;
      }
    }

    method ProcessMaxQuorumRetriesOnMultiversX() returns (reached: bool)
      modifies this`quorumRetriesOnMultiversX
      ensures reached <==> old(quorumRetriesOnMultiversX) >= limits.quorumOnMultiversX
      ensures quorumRetriesOnMultiversX == old(quorumRetriesOnMultiversX) + if reached then 0 else 1
    {
      reached := quorumRetriesOnMultiversX >= limits.quorumOnMultiversX;
      if !reached {
        quorumRetriesOnMultiversX := quorumRetriesOnMultiversX + 1;
      }
    }

    method ProcessMaxRetriesOnWasTransferProposed() returns (reached: bool)
      modifies this`retriesOnWasProposed
      ensures reached <==> old(retriesOnWasProposed) >= limits.wasProposed
      ensures retriesOnWasProposed == old(retriesOnWasProposed) + if reached then 0 else 1
    {
      reached := retriesOnWasProposed >= limits.wasProposed;
      if !reached {
        retriesOnWasProposed := retriesOnWasProposed + 1;
      }
    }

    // ----- MultiversX to Ethereum -----

    method GetPendingFromMultiversX(a: Answers) returns (next: StepId)
      modifies this
      ensures Did(RelayerSteps.GetPendingFromMultiversX(old(State()), a), old(log), next)
    {
      next := GettingPendingBatchFromMultiversX;
      quorumRetriesOnEthereum, quorumRetriesOnMultiversX, retriesOnWasProposed := 0, 0, 0;
      if a.pending.None? {
        return;
      }
      batch := a.pending;
      if a.valid.None? || !a.valid.value {
        return;
      }
      Note(Validated(batch.value));
      if a.performedOnEthereum.None? {
        return;
      }
      if a.performedOnEthereum.value {
        Note(TransferDone(batch.value));
        assert log == old(log) + [Validated(batch.value), TransferDone(batch.value)];
        next := ResolvingSetStatusOnMultiversX;
      } else {
        next := SigningProposedTransferOnEthereum;
      }
    }

    method SignTransferOnEthereum(a: Answers) returns (next: StepId)
      modifies this
      ensures Did(RelayerSteps.SignTransferOnEthereum(old(State()), a), old(log), next)
    {
      if batch.None? || a.hash.None? {
        return GettingPendingBatchFromMultiversX;
      }
      msgHash := a.hash.value;
      Note(Hashed(batch.value, msgHash));
      next := WaitingForQuorumOnTransfer;
    }

    method WaitForQuorumOnTransfer(a: Answers) returns (next: StepId)
      modifies this
      ensures Did(RelayerSteps.WaitForQuorumOnTransfer(limits, old(State()), a), old(log), next)
    {
      var reached := ProcessMaxQuorumRetriesOnEthereum();
      if reached || a.ethereumQuorum.None? {
        return GettingPendingBatchFromMultiversX;
      }
      if !a.ethereumQuorum.value {
        return WaitingForQuorumOnTransfer;
      }
      Note(EthereumQuorum(msgHash));
      next := PerformingTransfer;
    }

    method PerformTransfer(a: Answers) returns (next: StepId)
      modifies this
      ensures Did(RelayerSteps.PerformTransfer(old(State()), a), old(log), next)
    {
      if batch.None? || a.performedOnEthereum.None? {
        return GettingPendingBatchFromMultiversX;
      }
      if a.performedOnEthereum.value {
        Note(TransferDone(batch.value));
        return ResolvingSetStatusOnMultiversX;
      }
      if a.leader {
        if a.quorumSize.None? {
          return GettingPendingBatchFromMultiversX;
        }
        Note(TransferSent(msgHash, batch.value));
        if !a.sendOk {
          return GettingPendingBatchFromMultiversX;
        }
      }
      next := WaitingTransferConfirmation;
    }

    method ResolveSetStatus(a: Answers) returns (next: StepId)
      modifies this
      ensures Did(RelayerSteps.ResolveSetStatus(old(State()), a), old(log), next)
    {
      if batch.None? || a.pending.None? {
        return GettingPendingBatchFromMultiversX;
      }
      var statuses := WaitAndReturnFinalBatchStatuses(a);
      if |statuses| == 0 {
        return GettingPendingBatchFromMultiversX;
      }
      var resolved := ResolveStatuses(statuses, |a.pending.value.statuses|);
      batch := Some(batch.value.(statuses := resolved));
      Note(StatusesSet(batch.value));
      next := ProposingSetStatusOnMultiversX;
    }

    method ProposeSetStatus(a: Answers) returns (next: StepId)
      modifies this
      ensures Did(RelayerSteps.ProposeSetStatus(limits, old(State()), a), old(log), next)
    {
      if batch.None? {
        return GettingPendingBatchFromMultiversX;
      }
      var reached := ProcessMaxRetriesOnWasTransferProposed();
      if reached || a.proposed.None? {
        return GettingPendingBatchFromMultiversX;
      }
      if a.proposed.value {
        return SigningProposedSetStatusOnMultiversX;
      }
      if !a.leader {
        return ProposingSetStatusOnMultiversX;
      }
      Note(StatusProposed(batch.value));
      next := if a.sendOk then SigningProposedSetStatusOnMultiversX else GettingPendingBatchFromMultiversX;
    }

    // ----- Ethereum to MultiversX -----

    method GetPendingFromEthereum(a: Answers) returns (next: StepId)
      modifies this
      ensures Did(RelayerSteps.GetPendingFromEthereum(old(State()), a), old(log), next)
    {
      next := GettingPendingBatchFromEthereum;
      quorumRetriesOnMultiversX := 0;
      if a.lastEthBatch.None? {
        return;
      }
      var stored := GetAndStoreBatchFromEthereum(Next64(a.lastEthBatch.value), a.ethBatch);
      if !stored || a.valid.None? || !a.valid.value {
        return;
      }
      Note(Validated(batch.value));
      if a.lastEthTx.None? {
        return;
      }
      var verified := VerifyDepositNonces(batch.value.deposits, a.lastEthTx.value);
      if !verified {
        return;
      }
      Note(NoncesVerified(batch.value, a.lastEthBatch.value, a.lastEthTx.value));
      assert log == old(log) + [Validated(batch.value),
                                NoncesVerified(batch.value, a.lastEthBatch.value, a.lastEthTx.value)];
      next := ProposingTransferOnMultiversX;
    }

    /** Refuses a batch with another id and a batch without deposits. */
    method GetAndStoreBatchFromEthereum(nonce: nat, fetched: Option<TransferBatch>) returns (stored: bool)
      modifies this`batch
      ensures stored <==> fetched.Some? && fetched.value.id == nonce && fetched.value.deposits != []
      ensures batch == if stored then fetched else old(batch)
    {
      stored := fetched.Some? && fetched.value.id == nonce && |fetched.value.deposits| != 0;
      if stored {
        batch := fetched;
      }
    }

    method ProposeTransfer(a: Answers) returns (next: StepId)
      modifies this
      ensures Did(RelayerSteps.ProposeTransfer(old(State()), a), old(log), next)
    {
      if batch.None? || a.proposed.None? {
        return GettingPendingBatchFromEthereum;
      }
      if a.proposed.value {
        return SigningProposedTransferOnMultiversX;
      }
      if !a.leader {
        return ProposingTransferOnMultiversX;
      }
      Note(TransferProposed(batch.value));
      next := if a.sendOk then SigningProposedTransferOnMultiversX else GettingPendingBatchFromEthereum;
    }

    // ----- Both machines -----

    /** Asks for the id of the action proposed for the stored batch. */
    method GetAndStoreActionId(answer: Option<nat>) returns (found: bool)
      modifies this`actionId, this`log
      ensures found <==> batch.Some? && answer.Some?
      ensures actionId == if found then answer.value else old(actionId)
      ensures log == if found then old(log) + [ActionFor(batch.value, actionId)] else old(log)
    {
      found := batch.Some? && answer.Some?;
      if found {
        actionId := answer.value;
        Note(ActionFor(batch.value, actionId));
      }
    }

    method SignAction(home: StepId, onward: StepId, a: Answers) returns (next: StepId)
      modifies this
      ensures Did(RelayerSteps.SignAction(home, onward, old(State()), a), old(log), next)
    {
      ghost var before := log;
      var found := GetAndStoreActionId(a.actionId);
      if !found || actionId == INVALID_ACTION_ID || a.signed.None? {
        return home;
      }
      if a.signed.value {
        return onward;
      }
      Note(ActionSigned(actionId));
      assert log == before + [ActionFor(batch.value, actionId), ActionSigned(actionId)];
      next := if a.sendOk then onward else home;
    }

    method WaitForMultiversXQuorum(home: StepId, self: StepId, onward: StepId, a: Answers) returns (next: StepId)
      modifies this
      ensures Did(RelayerSteps.WaitForMultiversXQuorum(home, self, onward, limits, old(State()), a), old(log), next)
    {
      var reached := ProcessMaxQuorumRetriesOnMultiversX();
      if reached || a.multiversXQuorum.None? {
        return home;
      }
      if !a.multiversXQuorum.value {
        return self;
      }
      Note(MultiversXQuorum(actionId));
      next := onward;
    }

    method PerformAction(home: StepId, self: StepId, a: Answers) returns (next: StepId)
      modifies this
      ensures Did(RelayerSteps.PerformAction(home, self, old(State()), a), old(log), next)
    {
      if a.executed.None? || a.executed.value {
        return home;
      }
      if !a.leader {
        return self;
      }
      if batch.None? {
        return home;
      }
      Note(ActionPerformed(actionId, batch.value));
      next := if a.sendOk then self else home;
    }

    /** Runs the step with the given identifier. */
    method Execute(at: StepId, a: Answers) returns (next: StepId)
      modifies this
      ensures Did(RelayerSteps.Execute(limits, at, old(State()), a), old(log), next)
    {
      match at {
        case GettingPendingBatchFromMultiversX => next := GetPendingFromMultiversX(a);
        case SigningProposedTransferOnEthereum => next := SignTransferOnEthereum(a);
        case WaitingForQuorumOnTransfer => next := WaitForQuorumOnTransfer(a);
        case PerformingTransfer => next := PerformTransfer(a);
        case WaitingTransferConfirmation => next := PerformingTransfer;
        case ResolvingSetStatusOnMultiversX => next := ResolveSetStatus(a);
        case ProposingSetStatusOnMultiversX => next := ProposeSetStatus(a);
        case SigningProposedSetStatusOnMultiversX =>
          next := SignAction(GettingPendingBatchFromMultiversX, WaitingForQuorumOnSetStatus, a);
        case WaitingForQuorumOnSetStatus =>
          next := WaitForMultiversXQuorum(
            GettingPendingBatchFromMultiversX, WaitingForQuorumOnSetStatus, PerformingSetStatus, a);
        case PerformingSetStatus => next := PerformAction(GettingPendingBatchFromMultiversX, PerformingSetStatus, a);
        case GettingPendingBatchFromEthereum => next := GetPendingFromEthereum(a);
        case ProposingTransferOnMultiversX => next := ProposeTransfer(a);
        case SigningProposedTransferOnMultiversX =>
          next := SignAction(GettingPendingBatchFromEthereum, WaitingForQuorum, a);
        case WaitingForQuorum =>
          next := WaitForMultiversXQuorum(GettingPendingBatchFromEthereum, WaitingForQuorum, PerformingActionID, a);
        case PerformingActionID => next := PerformAction(GettingPendingBatchFromEthereum, PerformingActionID, a);
      }
    }
  }

  class StateMachine {
    const direction: Direction
    const executor: BridgeExecutor
    var currentStep: Option<StepId>

    constructor (direction: Direction, executor: BridgeExecutor)
      requires executor.State() == Executor(None, 0, 0, 0, 0, 0) && executor.log == []
      ensures this.direction == direction && this.executor == executor
      ensures Started(State())
    {
      this.direction, this.executor := direction, executor;
      currentStep := LookUp(direction, StartStep(direction));
    }

    function State(): Machine
      reads this, executor
    {
      Machine(direction, executor.limits, currentStep, executor.State(), executor.log)
    }

    /** Executes the current step and looks the next one up; `ok` is false if the step map has no such entry. */
    method ExecuteStep(a: Answers) returns (ok: bool)
      requires currentStep.Some?
      modifies this, executor
      ensures State() == RelayerSteps.ExecuteStep(old(State()), a)
      ensures ok <==> currentStep.Some?
    {
      var at := currentStep.value;
      executor.Note(Ran(at));
      var nextId := executor.Execute(at, a);
      currentStep := LookUp(direction, nextId);
      ok := currentStep.Some?;
    }
  }

  // ----- The relayer's checks against the contract's -----

  /**
   * A batch that passed the relayer's checks against the executed counters is acceptable to the multisig: apart from
   * who proposes and whether it was proposed before, nothing can refuse it.
   */
  lemma {:induction false} VerifiedBatchIsProposable(
    m: Multisig, hash: Hasher, caller: nat, b: TransferBatch, transfers: seq<EthTransaction>)
    requires b.id == Next64(m.lastEthBatch) && m.lastEthBatch + 1 < U64
    requires NoncesFollow(b.deposits, m.lastEthTx) && m.lastEthTx + |b.deposits| < U64
    requires |transfers| == |b.deposits|
    requires forall i :: 0 <= i < |transfers| ==> transfers[i].nonce == b.deposits[i].nonce
    ensures MultisigTable.ProposeTransfer(m, hash, caller, b.id, transfers).Some? <==>
            IsBoardMember(m, caller) && !m.paused && hash(transfers) !in TransferIds(m, b.id)
  {
    forall i | 0 <= i < |transfers| ensures transfers[i].nonce == m.lastEthTx + 1 + i {
      assert transfers[i].nonce == b.deposits[i].nonce;
    }
  }

  /**
   * The statuses a relayer proposes for a batch of n deposits pass the multisig's count exactly if n is below six and
   * Ethereum gave no surplus, or Ethereum gave n + n/6 statuses; only in the first case are there as many as deposits.
   */
  lemma {:induction false} ProposedStatusCount(statuses: seq<nat>, n: nat)
    ensures var proposed := |ResolveNewDeposits(statuses, n)|;
            && (proposed == CountByFields(n) <==> (n < 6 && |statuses| <= n) || |statuses| == n + n / 6)
            && (proposed == CountByFields(n) && proposed == n <==> n < 6 && |statuses| <= n)
  {
    CountByFieldsExact(n);
  }
}
