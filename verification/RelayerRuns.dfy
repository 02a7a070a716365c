/** What every run of a relayer's state machine guarantees, whatever the chains and services answer. */
module RelayerRuns {
  import opened Collections
  import opened RelayerSteps

  /** The events since the last execution of the fetching step. */
  function Cycle(log: seq<Event>): seq<Event> {
    if log == [] then []
    else
      var last := log[|log| - 1];
      if last.Ran? && IsFetch(last.step) then [] else Cycle(log[..|log| - 1]) + [last]
  }

  /** `wanted` occurs in `log` in this order, possibly with other events in between. */
  ghost predicate InOrder(log: seq<Event>, wanted: seq<Event>) {
    wanted == []
    || (log != []
        && (|| (log[|log| - 1] == wanted[|wanted| - 1] && InOrder(log[..|log| - 1], wanted[..|wanted| - 1]))
            || InOrder(log[..|log| - 1], wanted)))
  }

  function Count(log: seq<Event>, s: StepId): nat {
    if log == [] then 0 else Count(log[..|log| - 1], s) + if log[|log| - 1] == Ran(s) then 1 else 0
  }

  lemma {:induction false} CycleAppend(log: seq<Event>, e: Event)
    ensures Cycle(log + [e]) == if e.Ran? && IsFetch(e.step) then [] else Cycle(log) + [e]
  {
    assert (log + [e])[..|log|] == log;
  }

  lemma {:induction false} InOrderAppend(log: seq<Event>, wanted: seq<Event>, e: Event)
    requires InOrder(log, wanted)
    ensures InOrder(log + [e], wanted) && InOrder(log + [e], wanted + [e])
  {
    assert (log + [e])[..|log|] == log && (wanted + [e])[..|wanted|] == wanted;
  }

  lemma {:induction false} InOrderFirst(log: seq<Event>, e: Event)
    ensures InOrder(log + [e], [e])
  {
    InOrderAppend(log, [], e);
    assert [] + [e] == [e];
  }

  lemma {:induction false} CountAppend(log: seq<Event>, e: Event, s: StepId)
    ensures Count(log + [e], s) == Count(log, s) + if e == Ran(s) then 1 else 0
  {
    assert (log + [e])[..|log|] == log;
  }

  // ----- Evidence: what has happened in the present cycle when the machine stands at a step -----

  /** The batch was validated in this cycle and then reported as done on Ethereum; the statuses may have been filled in
      since. */
  ghost predicate DoneBefore(c: seq<Event>, b: TransferBatch, rest: seq<Event>) {
    exists s :: InOrder(c, ValidAndDone(b.(statuses := s)) + rest)
  }

  function ValidAndDone(b: TransferBatch): seq<Event> {
    [Validated(b), TransferDone(b)]
  }

  ghost predicate NoncesChecked(c: seq<Event>, b: TransferBatch, rest: seq<Event>) {
    exists lastBatch, lastTx ::
      && b.id == Next64(lastBatch) && b.deposits != [] && NoncesFollow(b.deposits, lastTx)
      && InOrder(c, [Validated(b), NoncesVerified(b, lastBatch, lastTx)] + rest)
  }

  /** What a machine knows about its batch from the point where it starts to deal with the multisig. */
  ghost predicate Known(d: Direction, c: seq<Event>, b: TransferBatch, rest: seq<Event>) {
    if d == ToEthereum then DoneBefore(c, b, [StatusesSet(b)] + rest) else NoncesChecked(c, b, rest)
  }

  /** What has happened in this cycle before the machine executes step `at`, in this order. */
  ghost predicate Evidence(c: seq<Event>, e: Executor, at: StepId) {
    IsFetch(at) || (e.batch.Some? && EvidenceFor(c, e.batch.value, e.msgHash, e.actionId, at))
  }

  ghost predicate EvidenceFor(c: seq<Event>, b: TransferBatch, hash: nat, id: nat, at: StepId) {
    match at
    case GettingPendingBatchFromMultiversX => true
    case SigningProposedTransferOnEthereum => InOrder(c, [Validated(b)])
    case WaitingForQuorumOnTransfer => InOrder(c, [Validated(b), Hashed(b, hash)])
    case PerformingTransfer => InOrder(c, [Validated(b), Hashed(b, hash), EthereumQuorum(hash)])
    case WaitingTransferConfirmation => InOrder(c, [Validated(b), Hashed(b, hash), EthereumQuorum(hash)])
    case ResolvingSetStatusOnMultiversX => DoneBefore(c, b, [])
    case ProposingSetStatusOnMultiversX => Known(ToEthereum, c, b, [])
    case SigningProposedSetStatusOnMultiversX => Known(ToEthereum, c, b, [])
    case WaitingForQuorumOnSetStatus => id != INVALID_ACTION_ID && Known(ToEthereum, c, b, [ActionFor(b, id)])
    case PerformingSetStatus =>
      id != INVALID_ACTION_ID && Known(ToEthereum, c, b, [ActionFor(b, id), MultiversXQuorum(id)])
    case GettingPendingBatchFromEthereum => true
    case ProposingTransferOnMultiversX => Known(ToMultiversX, c, b, [])
    case SigningProposedTransferOnMultiversX => Known(ToMultiversX, c, b, [])
    case WaitingForQuorum => id != INVALID_ACTION_ID && Known(ToMultiversX, c, b, [ActionFor(b, id)])
    case PerformingActionID =>
      id != INVALID_ACTION_ID && Known(ToMultiversX, c, b, [ActionFor(b, id), MultiversXQuorum(id)])
  }

  /** What must have happened in cycle `c` before a relayer emits event `e`. */
  ghost predicate Justified(d: Direction, c: seq<Event>, e: Event) {
    match e
    case Ran(_) => true
    case Validated(_) => true
    case NoncesVerified(b, lastBatch, lastTx) =>
      b.id == Next64(lastBatch) && b.deposits != [] && NoncesFollow(b.deposits, lastTx)
    case Hashed(b, _) => InOrder(c, [Validated(b)])
    case EthereumQuorum(_) => true
    case TransferSent(h, b) => d == ToEthereum && InOrder(c, [Validated(b), Hashed(b, h), EthereumQuorum(h)])
    case TransferDone(b) => InOrder(c, [Validated(b)])
    case StatusesSet(b) => DoneBefore(c, b, [])
    case StatusProposed(b) => d == ToEthereum && Known(d, c, b, [])
    case TransferProposed(b) => d == ToMultiversX && Known(d, c, b, [])
    case ActionFor(b, _) => Known(d, c, b, [])
    case ActionSigned(id) => id != INVALID_ACTION_ID && exists b :: Known(d, c, b, [ActionFor(b, id)])
    case MultiversXQuorum(id) => id != INVALID_ACTION_ID && exists b :: Known(d, c, b, [ActionFor(b, id)])
    case ActionPerformed(id, b) =>
      id != INVALID_ACTION_ID && Known(d, c, b, [ActionFor(b, id), MultiversXQuorum(id)])
  }

  ghost function JustifiedIn(d: Direction): (seq<Event>, Event) -> bool {
    (c: seq<Event>, e: Event) => Justified(d, c, e)
  }

  /** Every event of a log satisfies `P` together with the part of its cycle before it. */
  ghost predicate AllEvents(P: (seq<Event>, Event) -> bool, log: seq<Event>) {
    forall k :: 0 <= k < |log| ==> P(Cycle(log[..k]), log[k])
  }

  /** The same for the events of one step. */
  ghost predicate Chain(P: (seq<Event>, Event) -> bool, c: seq<Event>, es: seq<Event>) {
    es == []
    || (var n := |es| - 1; Chain(P, c, es[..n]) && !es[n].Ran? && P(c + es[..n], es[n]))
  }

  lemma {:induction false} AllEventsAppend(P: (seq<Event>, Event) -> bool, log: seq<Event>, e: Event)
    requires AllEvents(P, log) && P(Cycle(log), e)
    ensures AllEvents(P, log + [e])
  {
    var longer := log + [e];
    forall k | 0 <= k < |longer| ensures P(Cycle(longer[..k]), longer[k]) {
      assert longer[..k] == if k == |log| then log else log[..k];
    }
  }

  lemma {:induction false} ChainAppend(P: (seq<Event>, Event) -> bool, log: seq<Event>, es: seq<Event>)
    requires AllEvents(P, log) && Chain(P, Cycle(log), es)
    ensures AllEvents(P, log + es) && Cycle(log + es) == Cycle(log) + es
  {
    if es == [] {
      assert log + es == log;
    } else {
      var init, last := es[..|es| - 1], es[|es| - 1];
      ChainAppend(P, log, init);
      ChainStep(P, log, init, last);
      assert init + [last] == es;
    }
  }

  lemma {:induction false} ChainStep(P: (seq<Event>, Event) -> bool, log: seq<Event>, init: seq<Event>, last: Event)
    requires AllEvents(P, log + init) && Cycle(log + init) == Cycle(log) + init
    requires !last.Ran? && P(Cycle(log) + init, last)
    ensures AllEvents(P, log + (init + [last])) && Cycle(log + (init + [last])) == Cycle(log) + (init + [last])
  {
    AllEventsAppend(P, log + init, last);
    CycleAppend(log + init, last);
    assert log + (init + [last]) == log + init + [last];
    assert Cycle(log) + (init + [last]) == Cycle(log) + init + [last];
  }

  // ----- One event more -----

  lemma {:induction false} DoneGrows(c: seq<Event>, b: TransferBatch, rest: seq<Event>, e: Event)
    requires DoneBefore(c, b, rest)
    ensures DoneBefore(c + [e], b, rest) && DoneBefore(c + [e], b, rest + [e])
  {
    var s :| InOrder(c, ValidAndDone(b.(statuses := s)) + rest);
    InOrderAppend(c, ValidAndDone(b.(statuses := s)) + rest, e);
    assert ValidAndDone(b.(statuses := s)) + rest + [e] == ValidAndDone(b.(statuses := s)) + (rest + [e]);
  }

  lemma {:induction false} NoncesGrow(c: seq<Event>, b: TransferBatch, rest: seq<Event>, e: Event)
    requires NoncesChecked(c, b, rest)
    ensures NoncesChecked(c + [e], b, rest) && NoncesChecked(c + [e], b, rest + [e])
  {
    var lastBatch, lastTx :|
      && b.id == Next64(lastBatch) && b.deposits != [] && NoncesFollow(b.deposits, lastTx)
      && InOrder(c, [Validated(b), NoncesVerified(b, lastBatch, lastTx)] + rest);
    var wanted := [Validated(b), NoncesVerified(b, lastBatch, lastTx)];
    InOrderAppend(c, wanted + rest, e);
    assert wanted + rest + [e] == wanted + (rest + [e]);
  }

  lemma {:induction false} KnownGrows(d: Direction, c: seq<Event>, b: TransferBatch, rest: seq<Event>, x: Event)
    requires Known(d, c, b, rest)
    ensures Known(d, c + [x], b, rest) && Known(d, c + [x], b, rest + [x])
  {
    if d == ToEthereum {
      DoneGrows(c, b, [StatusesSet(b)] + rest, x);
      assert [StatusesSet(b)] + rest + [x] == [StatusesSet(b)] + (rest + [x]);
    } else {
      NoncesGrow(c, b, rest, x);
    }
  }

  lemma {:induction false} EvidenceGrows(c: seq<Event>, b: TransferBatch, hash: nat, id: nat, at: StepId, x: Event)
    requires EvidenceFor(c, b, hash, id, at)
    ensures EvidenceFor(c + [x], b, hash, id, at)
  {
    match at {
      case GettingPendingBatchFromMultiversX =>
      case SigningProposedTransferOnEthereum => InOrderAppend(c, [Validated(b)], x);
      case WaitingForQuorumOnTransfer => InOrderAppend(c, [Validated(b), Hashed(b, hash)], x);
      case PerformingTransfer => InOrderAppend(c, [Validated(b), Hashed(b, hash), EthereumQuorum(hash)], x);
      case WaitingTransferConfirmation => InOrderAppend(c, [Validated(b), Hashed(b, hash), EthereumQuorum(hash)], x);
      case ResolvingSetStatusOnMultiversX => DoneGrows(c, b, [], x);
      case ProposingSetStatusOnMultiversX => KnownGrows(ToEthereum, c, b, [], x);
      case SigningProposedSetStatusOnMultiversX => KnownGrows(ToEthereum, c, b, [], x);
      case WaitingForQuorumOnSetStatus => KnownGrows(ToEthereum, c, b, [ActionFor(b, id)], x);
      case PerformingSetStatus => KnownGrows(ToEthereum, c, b, [ActionFor(b, id), MultiversXQuorum(id)], x);
      case GettingPendingBatchFromEthereum =>
      case ProposingTransferOnMultiversX => KnownGrows(ToMultiversX, c, b, [], x);
      case SigningProposedTransferOnMultiversX => KnownGrows(ToMultiversX, c, b, [], x);
      case WaitingForQuorum => KnownGrows(ToMultiversX, c, b, [ActionFor(b, id)], x);
      case PerformingActionID => KnownGrows(ToMultiversX, c, b, [ActionFor(b, id), MultiversXQuorum(id)], x);
    }
  }

  // ----- One step: its events are justified and the next step has its evidence -----

  ghost predicate GoodResult(d: Direction, c: seq<Event>, r: StepResult) {
    && r.next in StepMap(d)
    && Chain(JustifiedIn(d), c, r.events)
    && Evidence(c + r.events, r.executor, r.next)
  }

  lemma {:induction false} NoEvents(d: Direction, c: seq<Event>, r: StepResult)
    requires r.events == [] && r.next in StepMap(d) && Evidence(c, r.executor, r.next)
    ensures GoodResult(d, c, r)
  {
    assert c + r.events == c;
  }

  lemma {:induction false} OneEvent(d: Direction, c: seq<Event>, r: StepResult, x: Event)
    requires r.events == [x] && !x.Ran? && r.next in StepMap(d)
    requires Justified(d, c, x) && Evidence(c + [x], r.executor, r.next)
    ensures GoodResult(d, c, r)
  {
    assert [x][..0] == [] && c + [] == c;
  }

  lemma {:induction false} TwoEvents(d: Direction, c: seq<Event>, r: StepResult, x: Event, y: Event)
    requires r.events == [x, y] && !x.Ran? && !y.Ran? && r.next in StepMap(d)
    requires Justified(d, c, x) && Justified(d, c + [x], y) && Evidence(c + [x] + [y], r.executor, r.next)
    ensures GoodResult(d, c, r)
  {
    assert [x][..0] == [] && c + [] == c && [x, y][..1] == [x] && c + [x, y] == c + [x] + [y];
  }

  lemma {:induction false} JustDone(c: seq<Event>, b: TransferBatch)
    requires InOrder(c, [Validated(b)])
    ensures DoneBefore(c + [TransferDone(b)], b, [])
  {
    InOrderAppend(c, [Validated(b)], TransferDone(b));
    assert b.(statuses := b.statuses) == b;
    assert [Validated(b)] + [TransferDone(b)] == ValidAndDone(b) + [];
  }

  lemma {:induction false} FetchGood(c: seq<Event>, l: Limits, e: Executor, a: Answers)
    ensures GoodResult(ToEthereum, c, Execute(l, GettingPendingBatchFromMultiversX, e, a))
  {
    var r := Execute(l, GettingPendingBatchFromMultiversX, e, a);
    if r.events == [] {
      NoEvents(ToEthereum, c, r);
    } else {
      var b := a.pending.value;
      InOrderFirst(c, Validated(b));
      if |r.events| == 1 {
        OneEvent(ToEthereum, c, r, Validated(b));
      } else {
        JustDone(c + [Validated(b)], b);
        TwoEvents(ToEthereum, c, r, Validated(b), TransferDone(b));
      }
    }
  }

  lemma {:induction false} FetchFromEthereumGood(c: seq<Event>, l: Limits, e: Executor, a: Answers)
    ensures GoodResult(ToMultiversX, c, Execute(l, GettingPendingBatchFromEthereum, e, a))
  {
    var r := Execute(l, GettingPendingBatchFromEthereum, e, a);
    if r.events == [] {
      NoEvents(ToMultiversX, c, r);
    } else if |r.events| == 1 {
      OneEvent(ToMultiversX, c, r, Validated(a.ethBatch.value));
    } else {
      var b, lastBatch, lastTx := a.ethBatch.value, a.lastEthBatch.value, a.lastEthTx.value;
      InOrderFirst(c, Validated(b));
      InOrderAppend(c + [Validated(b)], [Validated(b)], NoncesVerified(b, lastBatch, lastTx));
      assert [Validated(b)] + [NoncesVerified(b, lastBatch, lastTx)]
          == [Validated(b), NoncesVerified(b, lastBatch, lastTx)] + [];
      TwoEvents(ToMultiversX, c, r, Validated(b), NoncesVerified(b, lastBatch, lastTx));
    }
  }

  lemma {:induction false} SignTransferGood(c: seq<Event>, l: Limits, e: Executor, a: Answers)
    requires Evidence(c, e, SigningProposedTransferOnEthereum)
    ensures GoodResult(ToEthereum, c, Execute(l, SigningProposedTransferOnEthereum, e, a))
  {
    var r := Execute(l, SigningProposedTransferOnEthereum, e, a);
    if r.events == [] {
      NoEvents(ToEthereum, c, r);
    } else {
      var b, x := e.batch.value, Hashed(e.batch.value, a.hash.value);
      InOrderAppend(c, [Validated(b)], x);
      assert [Validated(b)] + [x] == [Validated(b), x];
      OneEvent(ToEthereum, c, r, x);
    }
  }

  lemma {:induction false} WaitTransferGood(c: seq<Event>, l: Limits, e: Executor, a: Answers)
    requires Evidence(c, e, WaitingForQuorumOnTransfer)
    ensures GoodResult(ToEthereum, c, Execute(l, WaitingForQuorumOnTransfer, e, a))
  {
    var r := Execute(l, WaitingForQuorumOnTransfer, e, a);
    if r.events == [] {
      NoEvents(ToEthereum, c, r);
    } else {
      var b, h, x := e.batch.value, e.msgHash, EthereumQuorum(e.msgHash);
      InOrderAppend(c, [Validated(b), Hashed(b, h)], x);
      assert [Validated(b), Hashed(b, h)] + [x] == [Validated(b), Hashed(b, h), x];
      OneEvent(ToEthereum, c, r, x);
    }
  }

  lemma {:induction false} PerformTransferGood(c: seq<Event>, l: Limits, e: Executor, a: Answers)
    requires Evidence(c, e, PerformingTransfer)
    ensures GoodResult(ToEthereum, c, Execute(l, PerformingTransfer, e, a))
  {
    var r, b := Execute(l, PerformingTransfer, e, a), e.batch.value;
    if r.events == [] {
      NoEvents(ToEthereum, c, r);
    } else if r.next == ResolvingSetStatusOnMultiversX {
      ValidatedFirst(c, b, e.msgHash);
      JustDone(c, b);
      OneEvent(ToEthereum, c, r, TransferDone(b));
    } else {
      EvidenceGrows(c, b, e.msgHash, e.actionId, PerformingTransfer, TransferSent(e.msgHash, b));
      OneEvent(ToEthereum, c, r, TransferSent(e.msgHash, b));
    }
  }

  lemma {:induction false} ValidatedFirst(c: seq<Event>, b: TransferBatch, hash: nat)
    requires InOrder(c, [Validated(b), Hashed(b, hash), EthereumQuorum(hash)])
    ensures InOrder(c, [Validated(b)])
  {
    var hashed, quorum := Hashed(b, hash), EthereumQuorum(hash);
    assert [Validated(b), hashed] + [quorum] == [Validated(b), hashed, quorum];
    InOrderPrefix(c, [Validated(b), hashed], quorum);
    assert [Validated(b)] + [hashed] == [Validated(b), hashed];
    InOrderPrefix(c, [Validated(b)], hashed);
  }

  /** Dropping the end of what is known to have happened. */
  lemma {:induction false} InOrderPrefix(c: seq<Event>, wanted: seq<Event>, x: Event)
    requires InOrder(c, wanted + [x])
    ensures InOrder(c, wanted)
  {
    assert (wanted + [x])[..|wanted|] == wanted;
    var init := c[..|c| - 1];
    assert c == init + [c[|c| - 1]];
    if !InOrder(init, wanted) {
      InOrderPrefix(init, wanted, x);
    }
    InOrderAppend(init, wanted, c[|c| - 1]);
  }

  lemma {:induction false} SameButStatuses(c: seq<Event>, b: TransferBatch, n: TransferBatch)
    requires DoneBefore(c, b, []) && n == b.(statuses := n.statuses)
    ensures DoneBefore(c, n, [])
  {
    var s :| InOrder(c, ValidAndDone(b.(statuses := s)) + []);
    assert n.(statuses := s) == b.(statuses := s);
  }

  lemma {:induction false} ResolveGood(c: seq<Event>, l: Limits, e: Executor, a: Answers)
    requires Evidence(c, e, ResolvingSetStatusOnMultiversX)
    ensures GoodResult(ToEthereum, c, Execute(l, ResolvingSetStatusOnMultiversX, e, a))
  {
    var r, b := Execute(l, ResolvingSetStatusOnMultiversX, e, a), e.batch.value;
    if r.events == [] {
      NoEvents(ToEthereum, c, r);
    } else {
      var n := r.executor.batch.value;
      SameButStatuses(c, b, n);
      DoneGrows(c, n, [], StatusesSet(n));
      assert [] + [StatusesSet(n)] == [StatusesSet(n)] + [];
      OneEvent(ToEthereum, c, r, StatusesSet(n));
    }
  }

  lemma {:induction false} ProposeStatusGood(c: seq<Event>, l: Limits, e: Executor, a: Answers)
    requires Evidence(c, e, ProposingSetStatusOnMultiversX)
    ensures GoodResult(ToEthereum, c, Execute(l, ProposingSetStatusOnMultiversX, e, a))
  {
    var r, b := Execute(l, ProposingSetStatusOnMultiversX, e, a), e.batch.value;
    if r.events == [] {
      NoEvents(ToEthereum, c, r);
    } else {
      EvidenceGrows(c, b, e.msgHash, e.actionId, ProposingSetStatusOnMultiversX, StatusProposed(b));
      OneEvent(ToEthereum, c, r, StatusProposed(b));
    }
  }

  lemma {:induction false} ProposeTransferGood(c: seq<Event>, l: Limits, e: Executor, a: Answers)
    requires Evidence(c, e, ProposingTransferOnMultiversX)
    ensures GoodResult(ToMultiversX, c, Execute(l, ProposingTransferOnMultiversX, e, a))
  {
    var r, b := Execute(l, ProposingTransferOnMultiversX, e, a), e.batch.value;
    if r.events == [] {
      NoEvents(ToMultiversX, c, r);
    } else {
      EvidenceGrows(c, b, e.msgHash, e.actionId, ProposingTransferOnMultiversX, TransferProposed(b));
      OneEvent(ToMultiversX, c, r, TransferProposed(b));
    }
  }

  function QuorumStep(d: Direction): StepId {
    if d == ToEthereum then WaitingForQuorumOnSetStatus else WaitingForQuorum
  }

  lemma {:induction false} QuorumEvidence(d: Direction, c: seq<Event>, e: Executor, at: StepId)
    requires IsFetch(at) || at == QuorumStep(d)
    requires e.batch.Some? && Known(d, c, e.batch.value, [ActionFor(e.batch.value, e.actionId)])
    requires at == QuorumStep(d) ==> e.actionId != INVALID_ACTION_ID
    ensures Evidence(c, e, at)
  {
  }

  /** The three ways a signing step can end. */
  lemma {:induction false} SignShape(d: Direction, e: Executor, a: Answers)
    requires e.batch.Some?
    ensures var r, b := SignAction(StartStep(d), QuorumStep(d), e, a), e.batch.value;
            || (r.events == [] && r.next == StartStep(d))
            || (a.actionId.Some?
                && r.executor.batch == Some(b) && r.executor.actionId == a.actionId.value
                && (r.next == StartStep(d) || (r.next == QuorumStep(d) && a.actionId.value != INVALID_ACTION_ID))
                && (|| r.events == [ActionFor(b, a.actionId.value)]
                    || (r.events == [ActionFor(b, a.actionId.value), ActionSigned(a.actionId.value)]
                        && a.actionId.value != INVALID_ACTION_ID)))
  {
  }

  lemma {:induction false} SignActionGood(d: Direction, c: seq<Event>, e: Executor, a: Answers)
    requires e.batch.Some? && Known(d, c, e.batch.value, [])
    ensures GoodResult(d, c, SignAction(StartStep(d), QuorumStep(d), e, a))
  {
    var r, b := SignAction(StartStep(d), QuorumStep(d), e, a), e.batch.value;
    SignShape(d, e, a);
    if r.events == [] {
      NoEvents(d, c, r);
    } else {
      var id := a.actionId.value;
      KnownGrows(d, c, b, [], ActionFor(b, id));
      assert [] + [ActionFor(b, id)] == [ActionFor(b, id)];
      if |r.events| == 1 {
        FoundGood(d, c, r, b, id);
      } else {
        SignedGood(d, c, r, b, id);
      }
    }
  }

  lemma {:induction false} FoundGood(d: Direction, c: seq<Event>, r: StepResult, b: TransferBatch, id: nat)
    requires Known(d, c, b, []) && Known(d, c + [ActionFor(b, id)], b, [ActionFor(b, id)])
    requires r.events == [ActionFor(b, id)] && r.executor.batch == Some(b) && r.executor.actionId == id
    requires r.next == StartStep(d) || (r.next == QuorumStep(d) && id != INVALID_ACTION_ID)
    ensures GoodResult(d, c, r)
  {
    QuorumEvidence(d, c + [ActionFor(b, id)], r.executor, r.next);
    OneEvent(d, c, r, ActionFor(b, id));
  }

  lemma {:induction false} SignedGood(d: Direction, c: seq<Event>, r: StepResult, b: TransferBatch, id: nat)
    requires Known(d, c, b, []) && Known(d, c + [ActionFor(b, id)], b, [ActionFor(b, id)]) && id != INVALID_ACTION_ID
    requires r.events == [ActionFor(b, id), ActionSigned(id)]
    requires r.executor.batch == Some(b) && r.executor.actionId == id
    requires r.next == StartStep(d) || r.next == QuorumStep(d)
    ensures GoodResult(d, c, r)
  {
    var found, signed := ActionFor(b, id), ActionSigned(id);
    KnownGrows(d, c + [found], b, [found], signed);
    QuorumEvidence(d, c + [found] + [signed], r.executor, r.next);
    TwoEvents(d, c, r, found, signed);
  }

  lemma {:induction false} WaitMultiversXGood(
    d: Direction, c: seq<Event>, self: StepId, l: Limits, e: Executor, a: Answers)
    requires self == QuorumStep(d)
    requires Evidence(c, e, self)
    ensures GoodResult(d, c, Execute(l, self, e, a))
  {
    var r := Execute(l, self, e, a);
    if r.events == [] {
      NoEvents(d, c, r);
    } else {
      var b, id, x := e.batch.value, e.actionId, MultiversXQuorum(e.actionId);
      KnownGrows(d, c, b, [ActionFor(b, id)], x);
      assert [ActionFor(b, id)] + [x] == [ActionFor(b, id), x];
      OneEvent(d, c, r, x);
    }
  }

  lemma {:induction false} PerformActionGood(
    d: Direction, c: seq<Event>, self: StepId, l: Limits, e: Executor, a: Answers)
    requires self == (if d == ToEthereum then PerformingSetStatus else PerformingActionID)
    requires Evidence(c, e, self)
    ensures GoodResult(d, c, Execute(l, self, e, a))
  {
    var r := Execute(l, self, e, a);
    if r.events == [] {
      NoEvents(d, c, r);
    } else {
      var b, x := e.batch.value, ActionPerformed(e.actionId, e.batch.value);
      EvidenceGrows(c, b, e.msgHash, e.actionId, self, x);
      OneEvent(d, c, r, x);
    }
  }

  /** Every step of a machine does only what the present cycle justifies, and stays inside the step map. */
  lemma {:induction false} ExecuteGood(d: Direction, c: seq<Event>, l: Limits, at: StepId, e: Executor, a: Answers)
    requires at in StepMap(d) && Evidence(c, e, at)
    ensures GoodResult(d, c, Execute(l, at, e, a))
  {
    if at == SigningProposedSetStatusOnMultiversX || at == SigningProposedTransferOnMultiversX {
      SignActionGood(d, c, e, a);
    } else if at == QuorumStep(d) {
      WaitMultiversXGood(d, c, at, l, e, a);
    } else if at == PerformingSetStatus || at == PerformingActionID {
      PerformActionGood(d, c, at, l, e, a);
    } else {
      EarlyStepGood(d, c, l, at, e, a);
    }
  }

  /** The steps up to the proposal on MultiversX. */
  lemma {:induction false} EarlyStepGood(d: Direction, c: seq<Event>, l: Limits, at: StepId, e: Executor, a: Answers)
    requires at in StepMap(d) && Evidence(c, e, at)
    requires at != SigningProposedSetStatusOnMultiversX && at != SigningProposedTransferOnMultiversX
    requires at != QuorumStep(d) && at != PerformingSetStatus && at != PerformingActionID
    ensures GoodResult(d, c, Execute(l, at, e, a))
  {
    if d == ToMultiversX {
      if at == GettingPendingBatchFromEthereum {
        FetchFromEthereumGood(c, l, e, a);
      } else {
        assert at == ProposingTransferOnMultiversX;
        ProposeTransferGood(c, l, e, a);
      }
    } else if at == ResolvingSetStatusOnMultiversX {
      ResolveGood(c, l, e, a);
    } else if at == ProposingSetStatusOnMultiversX {
      ProposeStatusGood(c, l, e, a);
    } else {
      TransferStepGood(c, l, at, e, a);
    }
  }

  /** The steps that bring a batch to Ethereum. */
  lemma {:induction false} TransferStepGood(c: seq<Event>, l: Limits, at: StepId, e: Executor, a: Answers)
    requires Evidence(c, e, at)
    requires || at == GettingPendingBatchFromMultiversX || at == SigningProposedTransferOnEthereum
             || at == WaitingForQuorumOnTransfer || at == PerformingTransfer || at == WaitingTransferConfirmation
    ensures GoodResult(ToEthereum, c, Execute(l, at, e, a))
  {
    if at == GettingPendingBatchFromMultiversX {
      FetchGood(c, l, e, a);
    } else if at == SigningProposedTransferOnEthereum {
      SignTransferGood(c, l, e, a);
    } else if at == WaitingForQuorumOnTransfer {
      WaitTransferGood(c, l, e, a);
    } else if at == PerformingTransfer {
      PerformTransferGood(c, l, e, a);
    } else {
      NoEvents(ToEthereum, c, Execute(l, at, e, a));
    }
  }

  // ----- Whole runs -----

  ghost predicate MachineOk(m: Machine) {
    && m.at.Some? && m.at.value in StepMap(m.direction)
    && AllEvents(JustifiedIn(m.direction), m.log)
    && Evidence(Cycle(m.log), m.executor, m.at.value)
  }

  lemma {:induction false} StepKeepsOk(m: Machine, a: Answers)
    requires MachineOk(m)
    ensures MachineOk(ExecuteStep(m, a))
    ensures var n, at := ExecuteStep(m, a), m.at.value;
            Cycle(n.log) == (if IsFetch(at) then [] else Cycle(m.log) + [Ran(at)])
                            + Execute(m.limits, at, m.executor, a).events
  {
    var d, at := m.direction, m.at.value;
    var r := Execute(m.limits, at, m.executor, a);
    AllEventsAppend(JustifiedIn(d), m.log, Ran(at));
    CycleAppend(m.log, Ran(at));
    var c := Cycle(m.log + [Ran(at)]);
    if !IsFetch(at) {
      var e := m.executor;
      EvidenceGrows(Cycle(m.log), e.batch.value, e.msgHash, e.actionId, at, Ran(at));
    }
    ExecuteGood(d, c, m.limits, at, m.executor, a);
    ChainAppend(JustifiedIn(d), m.log + [Ran(at)], r.events);
  }

  /**
   * Whatever the world answers: the machine never asks for a step outside its map, and every transfer it sends,
   * every proposal, signature and action it performs is preceded, in the same cycle and in order, by what justifies it.
   */
  lemma {:induction false} RelayerIsSafe(m: Machine, answers: seq<Answers>)
    requires Started(m)
    ensures MachineOk(RunMachine(m, answers))
  {
    if answers != [] {
      var n := |answers| - 1;
      RelayerIsSafe(m, answers[..n]);
      StepKeepsOk(RunMachine(m, answers[..n]), answers[n]);
    }
  }

  /** A cycle is the end of the log, and no fetch lies in it. */
  lemma {:induction false} CycleIsSuffix(log: seq<Event>)
    ensures |Cycle(log)| <= |log| && Cycle(log) == log[|log| - |Cycle(log)|..]
    ensures forall i :: 0 <= i < |Cycle(log)| ==> !(Cycle(log)[i].Ran? && IsFetch(Cycle(log)[i].step))
  {
    if log != [] {
      CycleIsSuffix(log[..|log| - 1]);
    }
  }

  // ----- Bounded waits -----

  /** The retry counter of a waiting step follows the number of its executions in this cycle. */
  predicate Tracked(counter: nat, runs: nat, max: nat, at: StepId) {
    counter == (if runs <= max then runs else max) && runs <= max + 1 && (runs == max + 1 ==> IsFetch(at))
  }

  predicate WaitsTracked(d: Direction, l: Limits, c: seq<Event>, e: Executor, at: StepId) {
    if d == ToEthereum then
      && Tracked(e.ethereumRetries, Count(c, WaitingForQuorumOnTransfer), l.quorumOnEthereum, at)
      && Tracked(e.proposedRetries, Count(c, ProposingSetStatusOnMultiversX), l.wasProposed, at)
      && Tracked(e.multiversXRetries, Count(c, WaitingForQuorumOnSetStatus), l.quorumOnMultiversX, at)
    else
      Tracked(e.multiversXRetries, Count(c, WaitingForQuorum), l.quorumOnMultiversX, at)
  }

  lemma {:induction false} CountPlain(c: seq<Event>, es: seq<Event>, s: StepId)
    requires forall i :: 0 <= i < |es| ==> !es[i].Ran?
    ensures Count(c + es, s) == Count(c, s)
  {
    if es == [] {
      assert c + es == c;
    } else {
      var n := |es| - 1;
      CountPlain(c, es[..n], s);
      CountAppend(c + es[..n], es[n], s);
      assert c + es == c + es[..n] + [es[n]];
    }
  }

  lemma {:induction false} CountStep(c: seq<Event>, at: StepId, es: seq<Event>, s: StepId)
    requires forall i :: 0 <= i < |es| ==> !es[i].Ran?
    ensures Count(c + [Ran(at)] + es, s) == Count(c, s) + if at == s then 1 else 0
    ensures Count([] + es, s) == 0
  {
    CountPlain(c + [Ran(at)], es, s);
    CountAppend(c, Ran(at), s);
    CountPlain([], es, s);
  }

  lemma {:induction false} PlainEvents(l: Limits, at: StepId, e: Executor, a: Answers)
    ensures forall x :: x in Execute(l, at, e, a).events ==> !x.Ran?
  {
  }

  /** Executing a step resets the counter at a fetch, and counts up to the limit at its own step. */
  lemma {:induction false} EthereumWait(l: Limits, at: StepId, e: Executor, a: Answers, runs: nat)
    requires at in StepMap(ToEthereum) && Tracked(e.ethereumRetries, runs, l.quorumOnEthereum, at)
    ensures var r := Execute(l, at, e, a);
            Tracked(r.executor.ethereumRetries, RunsAfter(runs, at, WaitingForQuorumOnTransfer), l.quorumOnEthereum,
                    r.next)
  {
  }

  lemma {:induction false} ProposalWait(l: Limits, at: StepId, e: Executor, a: Answers, runs: nat)
    requires at in StepMap(ToEthereum) && Tracked(e.proposedRetries, runs, l.wasProposed, at)
    requires IsFetch(at) || e.batch.Some?
    ensures var r := Execute(l, at, e, a);
            Tracked(r.executor.proposedRetries, RunsAfter(runs, at, ProposingSetStatusOnMultiversX), l.wasProposed,
                    r.next)
  {
  }

  lemma {:induction false} MultiversXWait(d: Direction, l: Limits, at: StepId, e: Executor, a: Answers, runs: nat)
    requires at in StepMap(d) && Tracked(e.multiversXRetries, runs, l.quorumOnMultiversX, at)
    ensures var r := Execute(l, at, e, a);
            Tracked(r.executor.multiversXRetries, RunsAfter(runs, at, QuorumStep(d)), l.quorumOnMultiversX, r.next)
  {
  }

  function RunsAfter(runs: nat, at: StepId, s: StepId): nat {
    if IsFetch(at) then 0 else if at == s then runs + 1 else runs
  }

  lemma {:induction false} CountAfter(c: seq<Event>, l: Limits, at: StepId, e: Executor, a: Answers, s: StepId)
    ensures Count(CycleAfter(c, l, at, e, a), s) == RunsAfter(Count(c, s), at, s)
  {
    PlainEvents(l, at, e, a);
    CountStep(c, at, Execute(l, at, e, a).events, s);
  }

  function CycleAfter(c: seq<Event>, l: Limits, at: StepId, e: Executor, a: Answers): seq<Event> {
    (if IsFetch(at) then [] else c + [Ran(at)]) + Execute(l, at, e, a).events
  }

  lemma {:induction false} StepTracksWaits(
    d: Direction, l: Limits, c: seq<Event>, at: StepId, e: Executor, a: Answers)
    requires WaitsTracked(d, l, c, e, at) && at in StepMap(d) && (IsFetch(at) || e.batch.Some?)
    ensures var r := Execute(l, at, e, a);
            WaitsTracked(d, l, CycleAfter(c, l, at, e, a), r.executor, r.next)
  {
    CountAfter(c, l, at, e, a, QuorumStep(d));
    MultiversXWait(d, l, at, e, a, Count(c, QuorumStep(d)));
    if d == ToEthereum {
      CountAfter(c, l, at, e, a, WaitingForQuorumOnTransfer);
      EthereumWait(l, at, e, a, Count(c, WaitingForQuorumOnTransfer));
      CountAfter(c, l, at, e, a, ProposingSetStatusOnMultiversX);
      ProposalWait(l, at, e, a, Count(c, ProposingSetStatusOnMultiversX));
    }
  }

  /** The step that a retry limit belongs to, in each machine. */
  function WaitLimit(d: Direction, l: Limits, s: StepId): Option<nat> {
    if d == ToEthereum && s == WaitingForQuorumOnTransfer then Some(l.quorumOnEthereum)
    else if d == ToEthereum && s == ProposingSetStatusOnMultiversX then Some(l.wasProposed)
    else if s == QuorumStep(d) then Some(l.quorumOnMultiversX)
    else None
  }

  ghost predicate MachineTracksWaits(m: Machine) {
    m.at.Some? && WaitsTracked(m.direction, m.limits, Cycle(m.log), m.executor, m.at.value)
  }

  lemma {:induction false} MachineStepTracksWaits(m: Machine, a: Answers)
    requires MachineOk(m) && MachineTracksWaits(m)
    ensures MachineTracksWaits(ExecuteStep(m, a))
  {
    StepKeepsOk(m, a);
    StepTracksWaits(m.direction, m.limits, Cycle(m.log), m.at.value, m.executor, a);
  }

  lemma {:induction false} RunTracksWaits(m: Machine, answers: seq<Answers>)
    requires Started(m)
    ensures var n := RunMachine(m, answers);
            MachineTracksWaits(n) && n.direction == m.direction && n.limits == m.limits
  {
    if answers != [] {
      var k := |answers| - 1;
      RunTracksWaits(m, answers[..k]);
      RelayerIsSafe(m, answers[..k]);
      MachineStepTracksWaits(RunMachine(m, answers[..k]), answers[k]);
    }
  }

  /** Between two fetches a waiting step runs at most once more than its retry limit. */
  lemma {:induction false} WaitsAreBounded(m: Machine, answers: seq<Answers>, s: StepId)
    requires Started(m) && WaitLimit(m.direction, m.limits, s).Some?
    ensures Count(Cycle(RunMachine(m, answers).log), s) <= WaitLimit(m.direction, m.limits, s).value + 1
  {
    RunTracksWaits(m, answers);
  }

  /** Every transfer sent to Ethereum carries the hash of the validated batch, after a positive quorum on that hash. */
  lemma {:induction false} SentTransfersHaveQuorum(m: Machine, answers: seq<Answers>, k: nat)
    requires Started(m) && k < |RunMachine(m, answers).log| && RunMachine(m, answers).log[k].TransferSent?
    ensures var log := RunMachine(m, answers).log;
            var sent := log[k];
            m.direction == ToEthereum
            && InOrder(Cycle(log[..k]),
                       [Validated(sent.batch), Hashed(sent.batch, sent.hash), EthereumQuorum(sent.hash)])
  {
    RelayerIsSafe(m, answers);
    RunKeepsDirection(m, answers);
    var log := RunMachine(m, answers).log;
    assert JustifiedIn(m.direction)(Cycle(log[..k]), log[k]);
  }

  lemma {:induction false} RunKeepsDirection(m: Machine, answers: seq<Answers>)
    ensures RunMachine(m, answers).direction == m.direction
  {
    if answers != [] {
      RunKeepsDirection(m, answers[..|answers| - 1]);
    }
  }

  /** Every action performed has a non-zero id that was fetched for the very batch it is performed for. */
  lemma {:induction false} PerformedActionsAreKnown(m: Machine, answers: seq<Answers>, k: nat)
    requires Started(m) && k < |RunMachine(m, answers).log| && RunMachine(m, answers).log[k].ActionPerformed?
    ensures var log := RunMachine(m, answers).log;
            var id, b := log[k].id, log[k].batch;
            && id != INVALID_ACTION_ID
            && (m.direction == ToEthereum ==>
                  DoneBefore(Cycle(log[..k]), b, [StatusesSet(b), ActionFor(b, id), MultiversXQuorum(id)]))
            && (m.direction == ToMultiversX ==>
                  NoncesChecked(Cycle(log[..k]), b, [ActionFor(b, id), MultiversXQuorum(id)]))
  {
    RelayerIsSafe(m, answers);
    RunKeepsDirection(m, answers);
    var log := RunMachine(m, answers).log;
    assert JustifiedIn(m.direction)(Cycle(log[..k]), log[k]);
    var id, b := log[k].id, log[k].batch;
    assert [StatusesSet(b)] + [ActionFor(b, id), MultiversXQuorum(id)]
        == [StatusesSet(b), ActionFor(b, id), MultiversXQuorum(id)];
  }
}
