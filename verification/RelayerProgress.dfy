/** A relayer gets somewhere: from every reachable state, favourable answers lead to a performed action. */
module RelayerProgress {
  import opened Collections
  import opened RelayerSteps
  import opened RelayerRuns

  /** What a step has to hear to move on. What it does not ask for may be anything. */
  predicate Favourable(at: StepId, a: Answers) {
    match at
    case GettingPendingBatchFromMultiversX => a.pending.Some? && a.valid == Some(true) && a.performedOnEthereum.Some?
    case SigningProposedTransferOnEthereum => a.hash.Some?
    case WaitingForQuorumOnTransfer => a.ethereumQuorum == Some(true)
    case PerformingTransfer => a.performedOnEthereum == Some(true)
    case WaitingTransferConfirmation => true
    case ResolvingSetStatusOnMultiversX => a.pending.Some? && FinalStatuses(Rounds(a)) != []
    case ProposingSetStatusOnMultiversX => ProposalGoes(a)
    case SigningProposedSetStatusOnMultiversX => SignatureGoes(a)
    case WaitingForQuorumOnSetStatus => a.multiversXQuorum == Some(true)
    case PerformingSetStatus => a.executed == Some(false) && a.leader
    case GettingPendingBatchFromEthereum =>
      && a.lastEthBatch.Some? && a.ethBatch.Some? && a.valid == Some(true) && a.lastEthTx.Some?
      && a.ethBatch.value.id == Next64(a.lastEthBatch.value) && a.ethBatch.value.deposits != []
      && NoncesFollow(a.ethBatch.value.deposits, a.lastEthTx.value)
    case ProposingTransferOnMultiversX => ProposalGoes(a)
    case SigningProposedTransferOnMultiversX => SignatureGoes(a)
    case WaitingForQuorum => a.multiversXQuorum == Some(true)
    case PerformingActionID => a.executed == Some(false) && a.leader
  }

  predicate ProposalGoes(a: Answers) {
    a.proposed == Some(true) || (a.proposed == Some(false) && a.leader && a.sendOk)
  }

  predicate SignatureGoes(a: Answers) {
    && a.actionId.Some? && a.actionId.value != INVALID_ACTION_ID
    && (a.signed == Some(true) || (a.signed == Some(false) && a.sendOk))
  }

  /** How many favourable steps lie ahead, at most, before the step that performs. */
  function Distance(at: StepId): nat {
    match at
    case GettingPendingBatchFromMultiversX => 8
    case SigningProposedTransferOnEthereum => 7
    case WaitingForQuorumOnTransfer => 6
    case WaitingTransferConfirmation => 6
    case PerformingTransfer => 5
    case ResolvingSetStatusOnMultiversX => 4
    case ProposingSetStatusOnMultiversX => 3
    case SigningProposedSetStatusOnMultiversX => 2
    case WaitingForQuorumOnSetStatus => 1
    case PerformingSetStatus => 0
    case GettingPendingBatchFromEthereum => 4
    case ProposingTransferOnMultiversX => 3
    case SigningProposedTransferOnMultiversX => 2
    case WaitingForQuorum => 1
    case PerformingActionID => 0
  }

  /** The executor is created with retry limits of at least one. */
  predicate LimitsPositive(l: Limits) {
    l.quorumOnEthereum > 0 && l.quorumOnMultiversX > 0 && l.wasProposed > 0
  }

  /** No retry counter of a waiting step ahead is used up. A fetch resets them. */
  predicate Room(d: Direction, l: Limits, e: Executor, at: StepId) {
    IsFetch(at)
    || (&& (d == ToEthereum && Distance(at) >= 6 ==> e.ethereumRetries < l.quorumOnEthereum)
        && (d == ToEthereum && Distance(at) >= 3 ==> e.proposedRetries < l.wasProposed)
        && (Distance(at) >= 1 ==> e.multiversXRetries < l.quorumOnMultiversX))
  }

  /** An upper bound on the favourable steps still needed; a used-up counter costs one more round. */
  function Potential(d: Direction, l: Limits, e: Executor, at: StepId): nat {
    Distance(at) + if Room(d, l, e, at) then 0 else 9
  }

  ghost predicate Performs(r: StepResult) {
    r.events != [] && r.events[|r.events| - 1].ActionPerformed?
  }

  lemma {:induction false} FavourableToEthereum(l: Limits, e: Executor, at: StepId, a: Answers)
    requires at in StepMap(ToEthereum) && LimitsPositive(l) && Favourable(at, a) && (IsFetch(at) || e.batch.Some?)
    ensures var r := Execute(l, at, e, a);
            Performs(r) || Potential(ToEthereum, l, r.executor, r.next) < Potential(ToEthereum, l, e, at)
  {
  }

  lemma {:induction false} FavourableToMultiversX(l: Limits, e: Executor, at: StepId, a: Answers)
    requires at in StepMap(ToMultiversX) && LimitsPositive(l) && Favourable(at, a) && (IsFetch(at) || e.batch.Some?)
    ensures var r := Execute(l, at, e, a);
            Performs(r) || Potential(ToMultiversX, l, r.executor, r.next) < Potential(ToMultiversX, l, e, at)
  {
  }

  /** A favourable step either performs or comes closer. */
  lemma {:induction false} FavourableStep(d: Direction, l: Limits, e: Executor, at: StepId, a: Answers)
    requires at in StepMap(d) && LimitsPositive(l) && Favourable(at, a) && (IsFetch(at) || e.batch.Some?)
    ensures var r := Execute(l, at, e, a);
            Performs(r) || Potential(d, l, r.executor, r.next) < Potential(d, l, e, at)
  {
    if d == ToEthereum {
      FavourableToEthereum(l, e, at, a);
    } else {
      FavourableToMultiversX(l, e, at, a);
    }
  }

  /** An error sends the machine back to fetching, whatever the step. */
  predicate Fails(at: StepId, a: Answers) {
    match at
    case GettingPendingBatchFromMultiversX => a.pending.None? || a.valid.None? || a.performedOnEthereum.None?
    case SigningProposedTransferOnEthereum => a.hash.None?
    case WaitingForQuorumOnTransfer => a.ethereumQuorum.None?
    case PerformingTransfer => a.performedOnEthereum.None?
    case WaitingTransferConfirmation => false
    case ResolvingSetStatusOnMultiversX => a.pending.None? || a.rounds == []
    case ProposingSetStatusOnMultiversX => a.proposed.None?
    case SigningProposedSetStatusOnMultiversX => a.actionId.None? || a.signed.None?
    case WaitingForQuorumOnSetStatus => a.multiversXQuorum.None?
    case PerformingSetStatus => a.executed.None?
    case GettingPendingBatchFromEthereum =>
      a.lastEthBatch.None? || a.ethBatch.None? || a.valid.None? || a.lastEthTx.None?
    case ProposingTransferOnMultiversX => a.proposed.None?
    case SigningProposedTransferOnMultiversX => a.actionId.None? || a.signed.None?
    case WaitingForQuorum => a.multiversXQuorum.None?
    case PerformingActionID => a.executed.None?
  }

  lemma {:induction false} ErrorsGoHome(d: Direction, l: Limits, e: Executor, at: StepId, a: Answers)
    requires at in StepMap(d) && Fails(at, a)
    ensures Execute(l, at, e, a).next == StartStep(d)
  {
  }

  /** What is reported as already done is not done again: the machine goes on without sending anything. */
  lemma {:induction false} DoneIsSkipped(l: Limits, e: Executor, a: Answers)
    requires e.batch.Some?
    ensures a.performedOnEthereum == Some(true) ==>
            Execute(l, PerformingTransfer, e, a)
            == StepResult(ResolvingSetStatusOnMultiversX, e, [TransferDone(e.batch.value)])
    ensures a.proposed == Some(true) && e.proposedRetries < l.wasProposed ==>
            Execute(l, ProposingSetStatusOnMultiversX, e, a)
            == StepResult(SigningProposedSetStatusOnMultiversX, e.(proposedRetries := e.proposedRetries + 1), [])
    ensures a.proposed == Some(true) ==>
            Execute(l, ProposingTransferOnMultiversX, e, a) == StepResult(SigningProposedTransferOnMultiversX, e, [])
    ensures a.actionId.Some? && a.actionId.value != 0 && a.signed == Some(true) ==>
            var signed := e.(actionId := a.actionId.value);
            && Execute(l, SigningProposedSetStatusOnMultiversX, e, a)
               == StepResult(WaitingForQuorumOnSetStatus, signed, [ActionFor(e.batch.value, a.actionId.value)])
            && Execute(l, SigningProposedTransferOnMultiversX, e, a)
               == StepResult(WaitingForQuorum, signed, [ActionFor(e.batch.value, a.actionId.value)])
    ensures a.executed == Some(true) ==>
            && Execute(l, PerformingSetStatus, e, a) == StepResult(GettingPendingBatchFromMultiversX, e, [])
            && Execute(l, PerformingActionID, e, a) == StepResult(GettingPendingBatchFromEthereum, e, [])
  {
  }

  /** An invalid batch is not acted on. */
  lemma {:induction false} InvalidIsDropped(l: Limits, e: Executor, a: Answers)
    requires a.valid == Some(false)
    ensures var r := Execute(l, GettingPendingBatchFromMultiversX, e, a);
            r.next == GettingPendingBatchFromMultiversX && r.events == []
    ensures var r := Execute(l, GettingPendingBatchFromEthereum, e, a);
            r.next == GettingPendingBatchFromEthereum && r.events == []
  {
  }

  /** A negative answer makes a waiting step wait, as long as it has retries left, and one more is used up. */
  lemma {:induction false} NegativeAnswersWait(l: Limits, e: Executor, a: Answers)
    requires e.batch.Some?
    ensures e.ethereumRetries < l.quorumOnEthereum && a.ethereumQuorum == Some(false) ==>
            Execute(l, WaitingForQuorumOnTransfer, e, a)
            == StepResult(WaitingForQuorumOnTransfer, e.(ethereumRetries := e.ethereumRetries + 1), [])
    ensures e.proposedRetries < l.wasProposed && a.proposed == Some(false) && !a.leader ==>
            Execute(l, ProposingSetStatusOnMultiversX, e, a)
            == StepResult(ProposingSetStatusOnMultiversX, e.(proposedRetries := e.proposedRetries + 1), [])
    ensures e.multiversXRetries < l.quorumOnMultiversX && a.multiversXQuorum == Some(false) ==>
            && Execute(l, WaitingForQuorumOnSetStatus, e, a)
               == StepResult(WaitingForQuorumOnSetStatus, e.(multiversXRetries := e.multiversXRetries + 1), [])
            && Execute(l, WaitingForQuorum, e, a)
               == StepResult(WaitingForQuorum, e.(multiversXRetries := e.multiversXRetries + 1), [])
    ensures a.executed == Some(false) && !a.leader ==>
            && Execute(l, PerformingSetStatus, e, a) == StepResult(PerformingSetStatus, e, [])
            && Execute(l, PerformingActionID, e, a) == StepResult(PerformingActionID, e, [])
  {
  }

  /** Every answer of the sequence is favourable for the step that hears it. */
  ghost predicate FavourableAlong(m: Machine, answers: seq<Answers>)
    decreases |answers|
  {
    answers == []
    || (m.at.Some? && Favourable(m.at.value, answers[0]) && FavourableAlong(ExecuteStep(m, answers[0]), answers[1..]))
  }

  lemma {:induction false} RunFront(m: Machine, answers: seq<Answers>)
    requires answers != []
    ensures RunMachine(m, answers) == RunMachine(ExecuteStep(m, answers[0]), answers[1..])
  {
    var n := |answers| - 1;
    if n == 0 {
      assert answers[..0] == [] && answers[1..] == [];
    } else {
      RunFront(m, answers[..n]);
      assert answers[..n][1..] == answers[1..][..n - 1];
    }
  }

  lemma {:induction false} LogGrows(m: Machine, answers: seq<Answers>)
    ensures m.log <= RunMachine(m, answers).log
  {
    if answers != [] {
      LogGrows(m, answers[..|answers| - 1]);
    }
  }

  /** An action is performed between `m` and `r`. */
  ghost predicate PerformsBetween(m: Machine, r: Machine) {
    exists j :: |m.log| <= j < |r.log| && r.log[j].ActionPerformed?
  }

  lemma {:induction false} StepPerforms(m: Machine, a: Answers, answers: seq<Answers>)
    requires m.at.Some? && Performs(Execute(m.limits, m.at.value, m.executor, a))
    ensures PerformsBetween(m, RunMachine(ExecuteStep(m, a), answers))
  {
    var n := ExecuteStep(m, a);
    LogGrows(n, answers);
    assert n.log[|n.log| - 1].ActionPerformed?;
  }

  ghost function MachinePotential(m: Machine): nat
    requires m.at.Some?
  {
    Potential(m.direction, m.limits, m.executor, m.at.value)
  }

  lemma {:induction false} Closer(m: Machine, a: Answers)
    requires MachineOk(m) && LimitsPositive(m.limits) && Favourable(m.at.value, a)
    ensures var n := ExecuteStep(m, a);
            && MachineOk(n) && n.limits == m.limits && m.log <= n.log
            && (|| Performs(Execute(m.limits, m.at.value, m.executor, a))
                || MachinePotential(n) < MachinePotential(m))
  {
    FavourableStep(m.direction, m.limits, m.executor, m.at.value, a);
    StepKeepsOk(m, a);
  }

  lemma {:induction false} PerformsEarlier(m: Machine, n: Machine, r: Machine)
    requires m.log <= n.log && PerformsBetween(n, r)
    ensures PerformsBetween(m, r)
  {
  }

  lemma {:induction false} Progress(m: Machine, answers: seq<Answers>)
    requires MachineOk(m) && LimitsPositive(m.limits) && FavourableAlong(m, answers)
    requires |answers| > MachinePotential(m)
    ensures PerformsBetween(m, RunMachine(m, answers))
    decreases |answers|
  {
    var a, n := answers[0], ExecuteStep(m, answers[0]);
    RunFront(m, answers);
    Closer(m, a);
    if Performs(Execute(m.limits, m.at.value, m.executor, a)) {
      StepPerforms(m, a, answers[1..]);
    } else {
      Progress(n, answers[1..]);
      PerformsEarlier(m, n, RunMachine(n, answers[1..]));
    }
  }

  /** From every state a relayer can get into, whatever went wrong before, seventeen favourable answers in a row (each
      only about what its step asks) are enough for the multisig to be told to perform an action. */
  lemma {:induction false} RelayerMakesProgress(m: Machine, before: seq<Answers>, answers: seq<Answers>)
    requires Started(m) && LimitsPositive(m.limits)
    requires FavourableAlong(RunMachine(m, before), answers) && |answers| >= 17
    ensures PerformsBetween(RunMachine(m, before), RunMachine(RunMachine(m, before), answers))
  {
    RelayerIsSafe(m, before);
    RunTracksWaits(m, before);
    Progress(RunMachine(m, before), answers);
  }
}
