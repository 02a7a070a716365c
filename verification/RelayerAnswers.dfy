/** A relayer reports and does only what it was told: every event of a run against the answers that led to it. */
module RelayerAnswers {
  import opened Collections
  import opened Transactions
  import opened RelayerSteps
  import opened RelayerRuns

  // ----- Statuses -----

  /** Round `i` is the one whose answer counts: the first non-empty one, reached without an interrupted wait, among
      ten. */
  ghost predicate FirstAnswer(rounds: seq<StatusRound>, i: nat) {
    && i < |rounds| && i < 10 && Given(rounds[i])
    && (forall j :: 0 <= j <= i ==> rounds[j].waited)
    && (forall j :: 0 <= j < i ==> !Given(rounds[j]))
  }

  predicate Given(r: StatusRound) {
    r.statuses.Some? && r.statuses.value != []
  }

  /** With `n` deposits expected: what was given, position by position, and rejected where nothing was given or nothing
      was expected. */
  ghost predicate ResolvedFrom(out: seq<nat>, given: seq<nat>, n: nat) {
    && (|out| == |given| || |out| == n) && |out| >= |given| && |out| >= n
    && forall i :: 0 <= i < |out| ==> out[i] == if i < n && i < |given| then given[i] else StatusCode(Rejected)
  }

  lemma {:induction false} ResolvedIs(given: seq<nat>, n: nat)
    ensures ResolvedFrom(ResolveNewDeposits(given, n), given, n)
  {
  }

  lemma {:induction false} FinalStatusesIs(rounds: seq<StatusRound>)
    requires |rounds| <= 10 && FinalStatuses(rounds) != []
    ensures exists i: nat :: FirstAnswer(rounds, i) && rounds[i].statuses == Some(FinalStatuses(rounds))
  {
    if Given(rounds[0]) {
      assert FirstAnswer(rounds, 0);
    } else {
      FinalStatusesIs(rounds[1..]);
      var i: nat :| FirstAnswer(rounds[1..], i) && rounds[1..][i].statuses == Some(FinalStatuses(rounds[1..]));
      assert forall j :: 1 <= j <= i + 1 ==> rounds[j] == rounds[1..][j - 1];
      assert FirstAnswer(rounds, i + 1);
    }
  }

  /** No answer counts only if there is none to count. */
  lemma {:induction false} NoFinalStatuses(rounds: seq<StatusRound>)
    requires |rounds| <= 10 && FinalStatuses(rounds) == []
    ensures forall i: nat :: !FirstAnswer(rounds, i)
  {
    if rounds != [] && rounds[0].waited && !Given(rounds[0]) {
      NoFinalStatuses(rounds[1..]);
      forall i: nat ensures !FirstAnswer(rounds, i) {
        if FirstAnswer(rounds, i) {
          assert i > 0 && forall j :: 0 <= j < i ==> rounds[1..][j] == rounds[j + 1];
          assert FirstAnswer(rounds[1..], i - 1);
        }
      }
    }
  }

  /** The statuses come from Ethereum's answer for as many deposits as the pending batch has. */
  ghost predicate Answered(a: Answers, statuses: seq<nat>) {
    && a.pending.Some?
    && exists i: nat :: FirstAnswer(a.rounds, i)
                   && ResolvedFrom(statuses, a.rounds[i].statuses.value, |a.pending.value.statuses|)
  }

  // ----- Every event was heard -----

  /** What the world said in the step in which the event happened. */
  ghost predicate Heard(a: Answers, x: Event) {
    match x
    case Ran(_) => true
    case Validated(b) => a.valid == Some(true) && (a.pending == Some(b) || a.ethBatch == Some(b))
    case NoncesVerified(b, lastBatch, lastTx) =>
      a.ethBatch == Some(b) && a.lastEthBatch == Some(lastBatch) && a.lastEthTx == Some(lastTx)
    case Hashed(_, hash) => a.hash == Some(hash)
    case EthereumQuorum(_) => a.ethereumQuorum == Some(true)
    case TransferSent(_, _) => a.leader && a.performedOnEthereum == Some(false) && a.quorumSize.Some?
    case TransferDone(_) => a.performedOnEthereum == Some(true)
    case StatusesSet(b) => Answered(a, b.statuses)
    case StatusProposed(_) => a.leader && a.proposed == Some(false)
    case TransferProposed(_) => a.leader && a.proposed == Some(false)
    case ActionFor(_, id) => a.actionId == Some(id)
    case ActionSigned(id) => a.actionId == Some(id) && a.signed == Some(false)
    case MultiversXQuorum(_) => a.multiversXQuorum == Some(true)
    case ActionPerformed(_, _) => a.leader && a.executed == Some(false)
  }

  lemma {:induction false} ResolveHeard(e: Executor, a: Answers)
    ensures forall x :: x in ResolveSetStatus(e, a).events ==> Heard(a, x)
  {
    var given := FinalStatuses(Rounds(a));
    if e.batch.Some? && a.pending.Some? && given != [] {
      FinalStatusesIs(Rounds(a));
      var i: nat :| FirstAnswer(Rounds(a), i) && Rounds(a)[i].statuses == Some(given);
      assert forall j :: 0 <= j <= i ==> Rounds(a)[j] == a.rounds[j];
      assert FirstAnswer(a.rounds, i);
      ResolvedIs(given, |a.pending.value.statuses|);
    }
  }

  lemma {:induction false} StepHeard(l: Limits, at: StepId, e: Executor, a: Answers)
    ensures forall x :: x in Execute(l, at, e, a).events ==> Heard(a, x)
  {
    if at == ResolvingSetStatusOnMultiversX {
      ResolveHeard(e, a);
    }
  }

  /** Event `k` of the log happened in step `n` of the run, and was heard there. */
  ghost predicate HeardIn(m: Machine, answers: seq<Answers>, k: nat, n: nat, x: Event) {
    && n < |answers| && |RunMachine(m, answers[..n]).log| <= k < |RunMachine(m, answers[..n + 1]).log|
    && Heard(answers[n], x)
  }

  lemma {:induction false} NewEventsHeard(m: Machine, a: Answers, k: nat)
    requires |m.log| <= k < |ExecuteStep(m, a).log|
    ensures Heard(a, ExecuteStep(m, a).log[k])
  {
    var events := Execute(m.limits, m.at.value, m.executor, a).events;
    StepHeard(m.limits, m.at.value, m.executor, a);
    assert ExecuteStep(m, a).log[k] == ([Ran(m.at.value)] + events)[k - |m.log|];
  }

  lemma {:induction false} OldEventsStay(m: Machine, a: Answers, k: nat)
    requires k < |m.log|
    ensures k < |ExecuteStep(m, a).log| && ExecuteStep(m, a).log[k] == m.log[k]
  {
  }

  lemma {:induction false} HeardLater(m: Machine, answers: seq<Answers>, last: Answers, k: nat, n: nat, x: Event)
    requires HeardIn(m, answers, k, n, x)
    ensures HeardIn(m, answers + [last], k, n, x)
  {
    assert (answers + [last])[..n] == answers[..n] && (answers + [last])[..n + 1] == answers[..n + 1];
  }

  lemma {:induction false} HeardLast(m: Machine, answers: seq<Answers>, last: Answers, k: nat)
    requires |RunMachine(m, answers).log| <= k < |ExecuteStep(RunMachine(m, answers), last).log|
    ensures HeardIn(m, answers + [last], k, |answers|, ExecuteStep(RunMachine(m, answers), last).log[k])
  {
    var longer := answers + [last];
    assert longer[..|answers|] == answers && longer[..|answers| + 1] == longer;
    assert RunMachine(m, longer) == ExecuteStep(RunMachine(m, answers), last);
    NewEventsHeard(RunMachine(m, answers), last, k);
  }

  /** In every run, every event happened in a step in which the world said what it needs: relayers validate, sign,
      propose, send and perform on answers they got, and send, propose and perform only as leader and only if not yet
      done. */
  lemma {:induction false} EventsWereHeard(m: Machine, answers: seq<Answers>, k: nat)
    requires m.log == [] && k < |RunMachine(m, answers).log|
    ensures exists n: nat :: HeardIn(m, answers, k, n, RunMachine(m, answers).log[k])
  {
    var n := |answers| - 1;
    var init, last := answers[..n], answers[n];
    var u := RunMachine(m, init);
    assert init + [last] == answers && RunMachine(m, answers) == ExecuteStep(u, last);
    if k < |u.log| {
      EventsWereHeard(m, init, k);
      OldEventsStay(u, last, k);
      var i: nat :| HeardIn(m, init, k, i, u.log[k]);
      HeardLater(m, init, last, k, i, u.log[k]);
    } else {
      HeardLast(m, init, last, k);
    }
  }

  lemma {:induction false} InOrderMember(log: seq<Event>, wanted: seq<Event>, x: Event)
    requires InOrder(log, wanted) && x in wanted
    ensures x in log
  {
    var init, last := log[..|log| - 1], log[|log| - 1];
    assert log == init + [last];
    if InOrder(init, wanted) {
      InOrderMember(init, wanted, x);
    } else if x != last {
      var rest := wanted[..|wanted| - 1];
      assert wanted == rest + [last];
      InOrderMember(init, rest, x);
    }
  }

  lemma {:induction false} SetBefore(m: Machine, answers: seq<Answers>, k: nat)
    requires Started(m) && k < |RunMachine(m, answers).log| && RunMachine(m, answers).log[k].StatusProposed?
    ensures StatusesSet(RunMachine(m, answers).log[k].batch) in RunMachine(m, answers).log
  {
    var r := RunMachine(m, answers);
    var b, c := r.log[k].batch, Cycle(r.log[..k]);
    RelayerIsSafe(m, answers);
    assert JustifiedIn(r.direction)(c, r.log[k]);
    var s :| InOrder(c, ValidAndDone(b.(statuses := s)) + ([StatusesSet(b)] + []));
    InOrderMember(c, ValidAndDone(b.(statuses := s)) + ([StatusesSet(b)] + []), StatusesSet(b));
    CycleIsSuffix(r.log[..k]);
  }

  /** Every status list a relayer proposes was resolved from an answer that Ethereum gave in that run. So it
      calls a deposit executed only if Ethereum did, at the same position, and everything Ethereum did not answer
      for rejected. */
  lemma {:induction false} ProposedStatusesWereAnswered(m: Machine, answers: seq<Answers>, k: nat)
    requires Started(m) && k < |RunMachine(m, answers).log| && RunMachine(m, answers).log[k].StatusProposed?
    ensures exists n :: 0 <= n < |answers| && Answered(answers[n], RunMachine(m, answers).log[k].batch.statuses)
  {
    var log := RunMachine(m, answers).log;
    SetBefore(m, answers, k);
    var j :| 0 <= j < |log| && log[j] == StatusesSet(log[k].batch);
    EventsWereHeard(m, answers, j);
    var n: nat :| HeardIn(m, answers, j, n, log[j]);
  }

  lemma {:induction false} ExecutedOnlyIfAnswered(a: Answers, statuses: seq<nat>, i: nat)
    requires Answered(a, statuses) && i < |statuses| && statuses[i] == StatusCode(Executed)
    ensures exists r: nat :: FirstAnswer(a.rounds, r) && i < |a.rounds[r].statuses.value|
                        && a.rounds[r].statuses.value[i] == StatusCode(Executed)
  {
    var r: nat :| FirstAnswer(a.rounds, r)
                  && ResolvedFrom(statuses, a.rounds[r].statuses.value, |a.pending.value.statuses|);
  }
}
