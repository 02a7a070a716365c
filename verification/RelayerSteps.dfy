/** One execution of each step of the two relayer state machines (bridge/bridges/ethMultiversX), as functions. */
module RelayerSteps {
  import opened Collections

  const REJECTED: nat := 4
  const INVALID_ACTION_ID: nat := 0

  /** Unsigned 64-bit increment. */
  function Next64(n: nat): nat {
    (n + 1) % U64
  }

  datatype Deposit = Deposit(
    nonce: nat, from: seq<nat>, to: seq<nat>, token: seq<nat>, converted: seq<nat>, amount: nat)

  datatype TransferBatch = TransferBatch(id: nat, deposits: seq<Deposit>, statuses: seq<nat>)

  datatype StepId =
    // MultiversX to Ethereum
    | GettingPendingBatchFromMultiversX
    | SigningProposedTransferOnEthereum
    | WaitingForQuorumOnTransfer
    | PerformingTransfer
    | WaitingTransferConfirmation
    | ResolvingSetStatusOnMultiversX
    | ProposingSetStatusOnMultiversX
    | SigningProposedSetStatusOnMultiversX
    | WaitingForQuorumOnSetStatus
    | PerformingSetStatus
    // Ethereum to MultiversX
    | GettingPendingBatchFromEthereum
    | ProposingTransferOnMultiversX
    | SigningProposedTransferOnMultiversX
    | WaitingForQuorum
    | PerformingActionID

  datatype Direction = ToEthereum | ToMultiversX

  function StepMap(d: Direction): set<StepId> {
    match d
    case ToEthereum =>
      {GettingPendingBatchFromMultiversX, SigningProposedTransferOnEthereum, WaitingForQuorumOnTransfer,
       PerformingTransfer, WaitingTransferConfirmation, ResolvingSetStatusOnMultiversX,
       ProposingSetStatusOnMultiversX, SigningProposedSetStatusOnMultiversX, WaitingForQuorumOnSetStatus,
       PerformingSetStatus}
    case ToMultiversX =>
      {GettingPendingBatchFromEthereum, ProposingTransferOnMultiversX, SigningProposedTransferOnMultiversX,
       WaitingForQuorum, PerformingActionID}
  }

  function StartStep(d: Direction): StepId {
    if d == ToEthereum then GettingPendingBatchFromMultiversX else GettingPendingBatchFromEthereum
  }

  predicate IsFetch(s: StepId) {
    s == GettingPendingBatchFromMultiversX || s == GettingPendingBatchFromEthereum
  }

  datatype Limits = Limits(quorumOnEthereum: nat, quorumOnMultiversX: nat, wasProposed: nat)

  datatype Executor = Executor(
    batch: Option<TransferBatch>, actionId: nat, msgHash: nat,
    ethereumRetries: nat, multiversXRetries: nat, proposedRetries: nat)

  /** One round of waiting for the statuses: did the wait succeed, and the answer if there was one. */
  datatype StatusRound = StatusRound(waited: bool, statuses: Option<seq<nat>>)

  /** What the outside world answers during one step. None: the call returned an error. */
  datatype Answers = Answers(
    pending: Option<TransferBatch>, lastEthBatch: Option<nat>, lastEthTx: Option<nat>, ethBatch: Option<TransferBatch>,
    valid: Option<bool>, performedOnEthereum: Option<bool>, hash: Option<nat>, ethereumQuorum: Option<bool>,
    quorumSize: Option<nat>, rounds: seq<StatusRound>, proposed: Option<bool>, actionId: Option<nat>,
    signed: Option<bool>, multiversXQuorum: Option<bool>, executed: Option<bool>, leader: bool, sendOk: bool)

  /** What a relayer learns and does, in order. */
  datatype Event =
    | Ran(step: StepId)
    | Validated(batch: TransferBatch)
    | NoncesVerified(batch: TransferBatch, lastBatch: nat, lastTx: nat)
    | Hashed(batch: TransferBatch, hash: nat)
    | EthereumQuorum(hash: nat)
    | TransferSent(hash: nat, batch: TransferBatch)
    | TransferDone(batch: TransferBatch)
    | StatusesSet(batch: TransferBatch)
    | StatusProposed(batch: TransferBatch)
    | TransferProposed(batch: TransferBatch)
    | ActionFor(batch: TransferBatch, id: nat)
    | ActionSigned(id: nat)
    | MultiversXQuorum(id: nat)
    | ActionPerformed(id: nat, batch: TransferBatch)

  datatype StepResult = StepResult(next: StepId, executor: Executor, events: seq<Event>)

  // ----- MultiversX to Ethereum -----

  function GetPendingFromMultiversX(e: Executor, a: Answers): StepResult {
    var home, reset := GettingPendingBatchFromMultiversX,
                       e.(ethereumRetries := 0, multiversXRetries := 0, proposedRetries := 0);
    if a.pending.None? then StepResult(home, reset, [])
    else
      var stored := reset.(batch := a.pending);
      if a.valid != Some(true) then StepResult(home, stored, [])
      else StepResult(if a.performedOnEthereum.None? then home
                      else if a.performedOnEthereum.value then ResolvingSetStatusOnMultiversX
                      else SigningProposedTransferOnEthereum,
                      stored,
                      if a.performedOnEthereum == Some(true)
                      then [Validated(a.pending.value), TransferDone(a.pending.value)]
                      else [Validated(a.pending.value)])
  }

  function SignTransferOnEthereum(e: Executor, a: Answers): StepResult {
    if e.batch.None? || a.hash.None? then StepResult(GettingPendingBatchFromMultiversX, e, [])
    else StepResult(WaitingForQuorumOnTransfer, e.(msgHash := a.hash.value), [Hashed(e.batch.value, a.hash.value)])
  }

  function WaitForQuorumOnTransfer(l: Limits, e: Executor, a: Answers): StepResult {
    if e.ethereumRetries >= l.quorumOnEthereum then StepResult(GettingPendingBatchFromMultiversX, e, [])
    else
      var counted := e.(ethereumRetries := e.ethereumRetries + 1);
      if a.ethereumQuorum.None? then StepResult(GettingPendingBatchFromMultiversX, counted, [])
      else if !a.ethereumQuorum.value then StepResult(WaitingForQuorumOnTransfer, counted, [])
      else StepResult(PerformingTransfer, counted, [EthereumQuorum(e.msgHash)])
  }

  function PerformTransfer(e: Executor, a: Answers): StepResult {
    if e.batch.None? || a.performedOnEthereum.None? then StepResult(GettingPendingBatchFromMultiversX, e, [])
    else if a.performedOnEthereum.value
    then StepResult(ResolvingSetStatusOnMultiversX, e, [TransferDone(e.batch.value)])
    else if !a.leader then StepResult(WaitingTransferConfirmation, e, [])
    else if a.quorumSize.None? then StepResult(GettingPendingBatchFromMultiversX, e, [])
    else StepResult(if a.sendOk then WaitingTransferConfirmation else GettingPendingBatchFromMultiversX,
                    e, [TransferSent(e.msgHash, e.batch.value)])
  }

  const SPLITS: nat := 10

  /** The first non-empty answer, as long as every wait up to it succeeds. */
  function FinalStatuses(rounds: seq<StatusRound>): seq<nat> {
    if rounds == [] || !rounds[0].waited then []
    else if rounds[0].statuses.Some? && rounds[0].statuses.value != [] then rounds[0].statuses.value
    else FinalStatuses(rounds[1..])
  }

  function Rounds(a: Answers): seq<StatusRound> {
    if |a.rounds| <= SPLITS then a.rounds else a.rounds[..SPLITS]
  }

  /** Statuses beyond the expected number count as rejected; missing ones are added as rejected. */
  function ResolveNewDeposits(statuses: seq<nat>, n: nat): seq<nat> {
    seq(if n <= |statuses| then |statuses| else n,
        i requires 0 <= i => if i < |statuses| && i < n then statuses[i] else REJECTED)
  }

  function ResolveSetStatus(e: Executor, a: Answers): StepResult {
    var statuses := FinalStatuses(Rounds(a));
    if e.batch.None? || a.pending.None? || statuses == []
    then StepResult(GettingPendingBatchFromMultiversX, e, [])
    else
      var resolved := e.batch.value.(statuses := ResolveNewDeposits(statuses, |a.pending.value.statuses|));
      StepResult(ProposingSetStatusOnMultiversX, e.(batch := Some(resolved)), [StatusesSet(resolved)])
  }

  function ProposeSetStatus(l: Limits, e: Executor, a: Answers): StepResult {
    if e.batch.None? || e.proposedRetries >= l.wasProposed
    then StepResult(GettingPendingBatchFromMultiversX, e, [])
    else
      var counted := e.(proposedRetries := e.proposedRetries + 1);
      if a.proposed.None? then StepResult(GettingPendingBatchFromMultiversX, counted, [])
      else if a.proposed.value then StepResult(SigningProposedSetStatusOnMultiversX, counted, [])
      else if !a.leader then StepResult(ProposingSetStatusOnMultiversX, counted, [])
      else StepResult(if a.sendOk then SigningProposedSetStatusOnMultiversX else GettingPendingBatchFromMultiversX,
                      counted, [StatusProposed(e.batch.value)])
  }

  // ----- Ethereum to MultiversX -----

  /** Deposit nonces follow `last` one by one, in 64-bit arithmetic. */
  predicate NoncesFollow(deposits: seq<Deposit>, last: nat) {
    forall i :: 0 <= i < |deposits| ==> deposits[i].nonce == (last + 1 + i) % U64
  }

  function GetPendingFromEthereum(e: Executor, a: Answers): StepResult {
    var home, reset := GettingPendingBatchFromEthereum, e.(multiversXRetries := 0);
    if a.lastEthBatch.None? || a.ethBatch.None?
       || a.ethBatch.value.id != Next64(a.lastEthBatch.value) || a.ethBatch.value.deposits == []
    then StepResult(home, reset, [])
    else
      var b, stored := a.ethBatch.value, reset.(batch := a.ethBatch);
      if a.valid != Some(true) then StepResult(home, stored, [])
      else if a.lastEthTx.None? || !NoncesFollow(b.deposits, a.lastEthTx.value)
      then StepResult(home, stored, [Validated(b)])
      else StepResult(ProposingTransferOnMultiversX, stored,
                      [Validated(b), NoncesVerified(b, a.lastEthBatch.value, a.lastEthTx.value)])
  }

  function ProposeTransfer(e: Executor, a: Answers): StepResult {
    if e.batch.None? || a.proposed.None? then StepResult(GettingPendingBatchFromEthereum, e, [])
    else if a.proposed.value then StepResult(SigningProposedTransferOnMultiversX, e, [])
    else if !a.leader then StepResult(ProposingTransferOnMultiversX, e, [])
    else StepResult(if a.sendOk then SigningProposedTransferOnMultiversX else GettingPendingBatchFromEthereum,
                    e, [TransferProposed(e.batch.value)])
  }

  // ----- Signing, waiting and performing on MultiversX: the same in both machines -----

  function SignAction(home: StepId, next: StepId, e: Executor, a: Answers): StepResult {
    if e.batch.None? || a.actionId.None? then StepResult(home, e, [])
    else
      var id, stored := a.actionId.value, e.(actionId := a.actionId.value);
      var found := ActionFor(e.batch.value, id);
      if id == INVALID_ACTION_ID || a.signed.None? then StepResult(home, stored, [found])
      else if a.signed.value then StepResult(next, stored, [found])
      else StepResult(if a.sendOk then next else home, stored, [found, ActionSigned(id)])
  }

  function WaitForMultiversXQuorum(home: StepId, self: StepId, next: StepId, l: Limits, e: Executor, a: Answers)
    : StepResult
  {
    if e.multiversXRetries >= l.quorumOnMultiversX then StepResult(home, e, [])
    else
      var counted := e.(multiversXRetries := e.multiversXRetries + 1);
      if a.multiversXQuorum.None? then StepResult(home, counted, [])
      else if !a.multiversXQuorum.value then StepResult(self, counted, [])
      else StepResult(next, counted, [MultiversXQuorum(e.actionId)])
  }

  function PerformAction(home: StepId, self: StepId, e: Executor, a: Answers): StepResult {
    if a.executed != Some(false) then StepResult(home, e, [])
    else if !a.leader then StepResult(self, e, [])
    else if e.batch.None? then StepResult(home, e, [])
    else StepResult(if a.sendOk then self else home, e, [ActionPerformed(e.actionId, e.batch.value)])
  }

  // ----- The machines -----

  function Execute(l: Limits, at: StepId, e: Executor, a: Answers): StepResult {
    match at
    case GettingPendingBatchFromMultiversX => GetPendingFromMultiversX(e, a)
    case SigningProposedTransferOnEthereum => SignTransferOnEthereum(e, a)
    case WaitingForQuorumOnTransfer => WaitForQuorumOnTransfer(l, e, a)
    case PerformingTransfer => PerformTransfer(e, a)
    case WaitingTransferConfirmation => StepResult(PerformingTransfer, e, [])
    case ResolvingSetStatusOnMultiversX => ResolveSetStatus(e, a)
    case ProposingSetStatusOnMultiversX => ProposeSetStatus(l, e, a)
    case SigningProposedSetStatusOnMultiversX =>
      SignAction(GettingPendingBatchFromMultiversX, WaitingForQuorumOnSetStatus, e, a)
    case WaitingForQuorumOnSetStatus =>
      WaitForMultiversXQuorum(
        GettingPendingBatchFromMultiversX, WaitingForQuorumOnSetStatus, PerformingSetStatus, l, e, a)
    case PerformingSetStatus => PerformAction(GettingPendingBatchFromMultiversX, PerformingSetStatus, e, a)
    case GettingPendingBatchFromEthereum => GetPendingFromEthereum(e, a)
    case ProposingTransferOnMultiversX => ProposeTransfer(e, a)
    case SigningProposedTransferOnMultiversX => SignAction(GettingPendingBatchFromEthereum, WaitingForQuorum, e, a)
    case WaitingForQuorum =>
      WaitForMultiversXQuorum(GettingPendingBatchFromEthereum, WaitingForQuorum, PerformingActionID, l, e, a)
    case PerformingActionID => PerformAction(GettingPendingBatchFromEthereum, PerformingActionID, e, a)
  }

  /** A machine at work: the step it will execute next (None: the step map had no entry) and its events so far. */
  datatype Machine = Machine(
    direction: Direction, limits: Limits, at: Option<StepId>, executor: Executor, log: seq<Event>)

  function LookUp(d: Direction, id: StepId): Option<StepId> {
    if id in StepMap(d) then Some(id) else None
  }

  function ExecuteStep(m: Machine, a: Answers): Machine {
    if m.at.None? then m
    else
      var r := Execute(m.limits, m.at.value, m.executor, a);
      m.(at := LookUp(m.direction, r.next), executor := r.executor, log := m.log + [Ran(m.at.value)] + r.events)
  }

  predicate Started(m: Machine) {
    && m.at == Some(StartStep(m.direction)) && m.log == []
    && m.executor == Executor(None, 0, 0, 0, 0, 0)
  }

  /** The machine after any number of steps, whatever the world answers. */
  function RunMachine(m: Machine, answers: seq<Answers>): Machine {
    if answers == [] then m
    else ExecuteStep(RunMachine(m, answers[..|answers| - 1]), answers[|answers| - 1])
  }
}
