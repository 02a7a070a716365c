/** Which transactions a status list settles: those that were offered when it was proposed, and when it can differ. */
module SettlementRuns {
  import opened Collections
  import opened Transactions
  import opened BatchQueue
  import opened SafeLedger
  import opened Delivery
  import opened MultisigTable
  import opened Bridge
  import opened ActionTable
  import opened BridgeInvariant
  import opened BridgeRuns
  import opened Performing
  import opened OfferRuns

  // ----- From settlement back to proposal -----

  /** Call `k` of the run successfully proposed this status list for this batch. */
  ghost predicate Proposed(
    w: World, hash: Hasher, steps: seq<Step>, k: nat, batchId: nat, statuses: seq<TransactionStatus>)
  {
    && k < |steps| && steps[k].ProposeStatusBy? && steps[k].batchId == batchId && steps[k].statuses == statuses
    && Next(Run(w, hash, steps[..k]), hash, steps[k]).Some?
  }

  /** What the safe offered before call `k`. */
  ghost function OfferedAt(w: World, hash: Hasher, steps: seq<Step>, k: nat): seq<Transaction>
    requires k < |steps|
  {
    FirstBatch(Run(w, hash, steps[..k]))
  }

  /** A proposal goes through only for the batch that is offered, with seven sixths of its length. */
  lemma {:induction false} ProposedIsOffered(
    w: World, hash: Hasher, steps: seq<Step>, k: nat, batchId: nat, statuses: seq<TransactionStatus>)
    requires Proposed(w, hash, steps, k, batchId, statuses)
    ensures var u := Run(w, hash, steps[..k]);
            && Offered(u.safe.queue, u.now) && u.safe.queue.first == batchId
            && |statuses| == CountByFields(|OfferedAt(w, hash, steps, k)|)
  {
  }

  lemma {:induction false} ProposedLater(
    w: World, hash: Hasher, steps: seq<Step>, n: nat, k: nat, batchId: nat, statuses: seq<TransactionStatus>)
    requires n <= |steps| && Proposed(w, hash, steps[..n], k, batchId, statuses)
    ensures Proposed(w, hash, steps, k, batchId, statuses)
    ensures OfferedAt(w, hash, steps, k) == OfferedAt(w, hash, steps[..n], k)
  {
    assert steps[..n][..k] == steps[..k];
  }

  lemma {:induction false} NewStatuses(w: World, hash: Hasher, step: Step, id: nat)
    requires WorldOk(w, hash) && Next(w, hash, step).Some?
    requires ActionAt(Next(w, hash, step).value.ms, id).SetBatchStatus?
    ensures var a := ActionAt(Next(w, hash, step).value.ms, id);
            ActionAt(w.ms, id) == a
            || (step.ProposeStatusBy? && a == SetBatchStatus(step.batchId, step.statuses))
  {
    if step.PerformBy? {
      PerformKeepsActions(w, hash, step, id);
    } else if !IsActionStep(step) {
      OtherEffect(w, hash, step);
    }
  }

  /** While nothing is settled the first batch only grows at its end. */
  lemma {:induction false} FirstOnlyGrows(w: World, hash: Hasher, step: Step)
    requires WorldOk(w, hash) && Next(w, hash, step).Some? && !PerformedAction(w, step).SetBatchStatus?
    ensures var r := Next(w, hash, step).value;
            r.safe.queue.first == w.safe.queue.first && FirstBatch(w) <= FirstBatch(r)
  {
    QueueMoves(w, hash, step);
    GrowMoves(w, step);
  }

  /** After a settlement no status action is pending; otherwise one that is was pending before, or is new. */
  lemma {:induction false} StatusesWiped(w: World, hash: Hasher, step: Step, id: nat)
    requires WorldOk(w, hash) && Next(w, hash, step).Some? && PerformedAction(w, step).SetBatchStatus?
    ensures !ActionAt(Next(w, hash, step).value.ms, id).SetBatchStatus?
  {
    CloseStatusWipes(w.ms, hash, w.safe.queue.first, step.id, id);
  }

  /** The status list was proposed at call `k`, for a batch whose transactions then are the first of those now. */
  ghost predicate GrownSince(
    w: World, hash: Hasher, steps: seq<Step>, k: nat, batchId: nat, statuses: seq<TransactionStatus>,
    txs: seq<Transaction>)
  {
    Proposed(w, hash, steps, k, batchId, statuses) && OfferedAt(w, hash, steps, k) <= txs
  }

  lemma {:induction false} GrownOn(
    w: World, hash: Hasher, steps: seq<Step>, n: nat, k: nat, batchId: nat, statuses: seq<TransactionStatus>,
    txs: seq<Transaction>, more: seq<Transaction>)
    requires n <= |steps| && GrownSince(w, hash, steps[..n], k, batchId, statuses, txs) && txs <= more
    ensures GrownSince(w, hash, steps, k, batchId, statuses, more)
  {
    ProposedLater(w, hash, steps, n, k, batchId, statuses);
  }

  /** In every run, whatever happens to the limits, a pending status action goes back to a proposal that was made while
      the safe offered that batch, with a front part of its present transactions. */
  lemma {:induction false} PendingWasOffered(w: World, hash: Hasher, steps: seq<Step>, id: nat)
    requires Initial(w) && ActionAt(Run(w, hash, steps).ms, id).SetBatchStatus?
    ensures var r := Run(w, hash, steps);
            var a := ActionAt(r.ms, id);
            exists k :: GrownSince(w, hash, steps, k, a.batchId, a.statuses, FirstBatch(r))
  {
    if steps != [] {
      var n := |steps| - 1;
      var u, step, r := Run(w, hash, steps[..n]), steps[n], Run(w, hash, steps);
      var a := ActionAt(r.ms, id);
      InitialOk(w, hash);
      RunOk(w, hash, steps[..n]);
      if Next(u, hash, step).None? {
        PendingWasOffered(w, hash, steps[..n], id);
        var k: nat :| GrownSince(w, hash, steps[..n], k, a.batchId, a.statuses, FirstBatch(u));
        GrownOn(w, hash, steps, n, k, a.batchId, a.statuses, FirstBatch(u), FirstBatch(r));
      } else {
        if PerformedAction(u, step).SetBatchStatus? {
          StatusesWiped(u, hash, step, id);
        }
        NewStatuses(u, hash, step, id);
        FirstOnlyGrows(u, hash, step);
        if ActionAt(u.ms, id) == a {
          PendingWasOffered(w, hash, steps[..n], id);
          var k: nat :| GrownSince(w, hash, steps[..n], k, a.batchId, a.statuses, FirstBatch(u));
          GrownOn(w, hash, steps, n, k, a.batchId, a.statuses, FirstBatch(u), FirstBatch(r));
        } else {
          assert GrownSince(w, hash, steps, n, a.batchId, a.statuses, FirstBatch(r));
        }
      }
    }
  }

  /** The settled batch against the one offered when its status list was proposed: one transaction more for every six,
      so they are the same if and only if fewer than six were offered. */
  ghost predicate SettlesOffer(w: World, hash: Hasher, steps: seq<Step>, k: nat, s: Settlement) {
    && Proposed(w, hash, steps, k, s.batchId, s.statuses)
    && var offered := OfferedAt(w, hash, steps, k);
       && offered <= s.txs && |s.txs| == |offered| + |offered| / 6
       && (s.txs == offered <==> |offered| < 6)
  }

  lemma {:induction false} SettlesOfferNow(w: World, hash: Hasher, steps: seq<Step>, n: nat, k: nat, s: Settlement)
    requires n <= |steps| && GrownSince(w, hash, steps[..n], k, s.batchId, s.statuses, s.txs)
    requires |s.txs| == |s.statuses|
    ensures SettlesOffer(w, hash, steps, k, s)
  {
    ProposedLater(w, hash, steps, n, k, s.batchId, s.statuses);
    ProposedIsOffered(w, hash, steps, k, s.batchId, s.statuses);
    CountByFieldsExact(|OfferedAt(w, hash, steps, k)|);
  }

  lemma {:induction false} SettlesOfferLater(w: World, hash: Hasher, steps: seq<Step>, n: nat, k: nat, s: Settlement)
    requires n <= |steps| && SettlesOffer(w, hash, steps[..n], k, s)
    ensures SettlesOffer(w, hash, steps, k, s)
  {
    ProposedLater(w, hash, steps, n, k, s.batchId, s.statuses);
  }

  /** In every run, whatever happens to the limits, every settled batch goes back to a proposal for it, and contains
      exactly the transactions offered then if and only if those were fewer than six. */
  lemma {:induction false} SettledWasOffered(w: World, hash: Hasher, steps: seq<Step>, s: Settlement)
    requires Initial(w) && s in Collect(w, hash, steps, SettledNow)
    ensures exists k :: SettlesOffer(w, hash, steps, k, s)
  {
    var n := |steps| - 1;
    var u, step := Run(w, hash, steps[..n]), steps[n];
    if s in Collect(w, hash, steps[..n], SettledNow) {
      SettledWasOffered(w, hash, steps[..n], s);
      var k: nat :| SettlesOffer(w, hash, steps[..n], k, s);
      SettlesOfferLater(w, hash, steps, n, k, s);
    } else {
      InitialOk(w, hash);
      RunOk(w, hash, steps[..n]);
      SettleEffect(u, hash, step);
      PendingWasOffered(w, hash, steps[..n], step.id);
      var k: nat :| GrownSince(w, hash, steps[..n], k, s.batchId, s.statuses, FirstBatch(u));
      SettlesOfferNow(w, hash, steps, n, k, s);
    }
  }

  // ----- Without reopening -----

  ghost function NoReopening(): (World, Step) -> bool {
    (w: World, step: Step) => KeepsClosed(w, step)
  }

  lemma {:induction false} NoReopeningOf(w: World, hash: Hasher, steps: seq<Step>, id: nat)
    requires Along(w, hash, steps, NoReopening())
    ensures Along(w, hash, steps, NeverReopens(id))
  {
  }

  /** In a run that never reopens a closed batch, a pending status list was proposed for exactly the present batch. */
  lemma {:induction false} PendingIsOffered(w: World, hash: Hasher, steps: seq<Step>, k: nat, id: nat)
    requires Initial(w) && Along(w, hash, steps, NoReopening()) && ActionAt(Run(w, hash, steps).ms, id).SetBatchStatus?
    requires Proposed(w, hash, steps, k, ActionAt(Run(w, hash, steps).ms, id).batchId,
                      ActionAt(Run(w, hash, steps).ms, id).statuses)
    ensures OfferedAt(w, hash, steps, k) == FirstBatch(Run(w, hash, steps))
  {
    var u, r := Run(w, hash, steps[..k]), Run(w, hash, steps);
    var a := ActionAt(r.ms, id);
    InitialOk(w, hash);
    RunOk(w, hash, steps[..k]);
    RunOk(w, hash, steps);
    ProposedIsOffered(w, hash, steps, k, a.batchId, a.statuses);
    OfferedIsClosed(u.safe.queue, u.now);
    AlongTail(w, hash, steps, k, NoReopening());
    RunTail(w, hash, steps, k);
    NoReopeningOf(u, hash, steps[k..], u.safe.queue.first);
    ClosedBatchIsFrozen(u, hash, steps[k..]);
    assert ActionOk(r.ms, hash, r.safe.queue.first, id);
  }

  /** In a run that never reopens a closed batch, every settled batch is exactly the one its status list was proposed
      for, and has fewer than six transactions. */
  lemma {:induction false} SettledIsOffered(w: World, hash: Hasher, steps: seq<Step>, s: Settlement)
    requires Initial(w) && Along(w, hash, steps, NoReopening()) && s in Collect(w, hash, steps, SettledNow)
    ensures |s.txs| < 6
    ensures exists k :: SettlesOffer(w, hash, steps, k, s) && OfferedAt(w, hash, steps, k) == s.txs
  {
    var n := |steps| - 1;
    var u, step := Run(w, hash, steps[..n]), steps[n];
    AlongInit(w, hash, steps, NoReopening());
    if s in Collect(w, hash, steps[..n], SettledNow) {
      SettledIsOffered(w, hash, steps[..n], s);
      var k: nat :| SettlesOffer(w, hash, steps[..n], k, s) && OfferedAt(w, hash, steps[..n], k) == s.txs;
      SettlesOfferLater(w, hash, steps, n, k, s);
      ProposedLater(w, hash, steps, n, k, s.batchId, s.statuses);
    } else {
      InitialOk(w, hash);
      RunOk(w, hash, steps[..n]);
      SettleEffect(u, hash, step);
      PendingWasOffered(w, hash, steps[..n], step.id);
      var k: nat :| GrownSince(w, hash, steps[..n], k, s.batchId, s.statuses, FirstBatch(u));
      PendingIsOffered(w, hash, steps[..n], k, step.id);
      SettlesOfferNow(w, hash, steps, n, k, s);
      ProposedLater(w, hash, steps, n, k, s.batchId, s.statuses);
    }
  }

  // ----- Which batches can be settled -----

  /** The multisig lets this status list be proposed for the first batch as it is. */
  predicate CountFits(w: World, statuses: seq<TransactionStatus>) {
    |statuses| == CountByFields(|FirstBatch(w)|)
  }

  function AllRejected(n: nat): seq<TransactionStatus> {
    seq(n, i => Rejected)
  }

  /** Some status list passes both the multisig's check and, on the same batch, the safe's exactly if the batch is
      smaller than six: the multisig divides seven fields per transaction by six. */
  lemma {:induction false} SettleableIffSmall(w: World, hash: Hasher, burnable: set<Token>)
    requires WorldOk(w, hash)
    ensures (exists statuses :: CountFits(w, statuses)
               && SetStatus(w.safe, w.safe.queue.first, statuses, burnable).Some?)
            <==> |FirstBatch(w)| < 6
  {
    var n, first := |FirstBatch(w)|, w.safe.queue.first;
    CountByFieldsExact(n);
    if n < 6 {
      var statuses := AllRejected(n);
      SettlementIsFunded(w.safe, w.now, first, statuses, burnable);
      assert CountFits(w, statuses) && SetStatus(w.safe, first, statuses, burnable).Some?;
    }
  }

  // ----- The jam -----

  /** A pending status list would settle the first batch as it is now. */
  ghost predicate FitsPending(w: World, id: nat) {
    ActionAt(w.ms, id).SetBatchStatus? && StatusesFit(FirstBatch(w), ActionAt(w.ms, id).statuses)
  }

  /** A closed batch of six or more that no pending status list fits. */
  ghost predicate Jammed(w: World) {
    Closed(w.safe.queue, w.now) && |FirstBatch(w)| >= 6 && forall id :: !FitsPending(w, id)
  }

  lemma {:induction false} JammedRejects(w: World, hash: Hasher, caller: nat, id: nat, facts: Facts)
    requires WorldOk(w, hash) && Jammed(w) && ActionAt(w.ms, id).SetBatchStatus?
    ensures PerformAction(w, caller, id, facts).None?
  {
    assert !FitsPending(w, id);
    if MayPerform(w.ms, caller, id) {
      StatusActionPerforms(w, hash, caller, id, facts);
    }
  }

  lemma {:induction false} ProposalFits(w: World, hash: Hasher, step: Step)
    requires step.ProposeStatusBy? && Next(w, hash, step).Some?
    ensures CountFits(w, step.statuses)
  {
  }

  lemma {:induction false} JamStep(w: World, hash: Hasher, step: Step)
    requires WorldOk(w, hash) && Jammed(w) && KeepsClosed(w, step) && Next(w, hash, step).Some?
    ensures var r := Next(w, hash, step).value; Jammed(r) && StaysClosed(w, r)
  {
    if PerformedAction(w, step).SetBatchStatus? {
      JammedRejects(w, hash, step.caller, step.id, step.facts);
      assert false;
    }
    ClosedStep(w, hash, step);
    var r := Next(w, hash, step).value;
    CountByFieldsExact(|FirstBatch(w)|);
    forall id | ActionAt(r.ms, id).SetBatchStatus? ensures !FitsPending(r, id) {
      NewStatuses(w, hash, step, id);
      assert !FitsPending(w, id);
      if step.ProposeStatusBy? {
        ProposalFits(w, hash, step);
      }
    }
  }

  /** A closed batch of six or more transactions that no pending status list fits is never settled, and the queue behind
      it does not move, in any run that does not reopen it. */
  lemma {:induction false} LargeBatchJams(w: World, hash: Hasher, steps: seq<Step>)
    requires WorldOk(w, hash) && Jammed(w) && Along(w, hash, steps, NeverReopens(w.safe.queue.first))
    ensures StaysClosed(w, Run(w, hash, steps)) && Jammed(Run(w, hash, steps))
  {
    if steps != [] {
      var n := |steps| - 1;
      var u := Run(w, hash, steps[..n]);
      AlongInit(w, hash, steps, NeverReopens(w.safe.queue.first));
      LargeBatchJams(w, hash, steps[..n]);
      RunOk(w, hash, steps[..n]);
      if Next(u, hash, steps[n]).Some? {
        JamStep(u, hash, steps[n]);
      }
    }
  }

  /** So a run that gets past it contains a change of limits that reopens it: one under which it is not full, made while
      no other batch waits behind it. */
  lemma {:induction false} JamEndsByReopening(w: World, hash: Hasher, steps: seq<Step>)
    requires WorldOk(w, hash) && Jammed(w) && Run(w, hash, steps).safe.queue.first != w.safe.queue.first
    ensures exists i :: 0 <= i < |steps| && !NeverReopens(w.safe.queue.first)(Run(w, hash, steps[..i]), steps[i])
  {
    if Along(w, hash, steps, NeverReopens(w.safe.queue.first)) {
      LargeBatchJams(w, hash, steps);
      assert false;
    }
  }

  /** A run that gets past the first batch of `w` without reopening it. */
  ghost predicate Passes(w: World, hash: Hasher, steps: seq<Step>) {
    && Along(w, hash, steps, NeverReopens(w.safe.queue.first))
    && Run(w, hash, steps).safe.queue.first != w.safe.queue.first
  }

  /** The owner seats a member, lowers the quorum and unpauses; the member performs. */
  function PassingRun(id: nat, member: nat, facts: Facts): seq<Step> {
    [BoardAdd(member), QuorumChange(0), MultisigPause(false), PerformBy(member, id, facts)]
  }

  lemma {:induction false} OwnerEnables(w: World, hash: Hasher, id: nat, member: nat)
    requires WorldOk(w, hash) && ActionAt(w.ms, id) != Nothing
    ensures var a := Apply(w, hash, BoardAdd(member));
            var b := Apply(a, hash, QuorumChange(0));
            var c := Apply(b, hash, MultisigPause(false));
            && c == w.(ms := c.ms) && c.ms.actions == w.ms.actions && MayPerform(c.ms, member, id)
  {
    AddMemberKeepsBoard(w.ms, member);
  }

  lemma {:induction false} FourSteps(w: World, hash: Hasher, s: seq<Step>)
    requires |s| == 4
    ensures Run(w, hash, s[..3]) == Apply(Apply(Apply(w, hash, s[0]), hash, s[1]), hash, s[2])
    ensures Run(w, hash, s) == Apply(Run(w, hash, s[..3]), hash, s[3])
  {
    RunSnoc(w, hash, [], s[0]);
    RunSnoc(w, hash, [s[0]], s[1]);
    RunSnoc(w, hash, [s[0], s[1]], s[2]);
    RunSnoc(w, hash, s[..3], s[3]);
    assert [] + [s[0]] == [s[0]] && [s[0]] + [s[1]] == [s[0], s[1]];
    assert [s[0], s[1]] + [s[2]] == s[..3] && s[..3] + [s[3]] == s;
  }

  lemma {:induction false} NoLimitsAlong(w: World, hash: Hasher, steps: seq<Step>, first: nat)
    requires forall i :: 0 <= i < |steps| ==> !steps[i].SafeLimits?
    ensures Along(w, hash, steps, NeverReopens(first))
  {
  }

  lemma {:induction false} ApplyPerforms(w: World, hash: Hasher, id: nat, member: nat, facts: Facts)
    requires PerformAction(w, member, id, facts).Some?
    ensures Apply(w, hash, PerformBy(member, id, facts)) == PerformAction(w, member, id, facts).value
  {
  }

  lemma {:induction false} PerformMovesFirst(w: World, hash: Hasher, id: nat, member: nat, facts: Facts)
    requires WorldOk(w, hash) && ActionAt(w.ms, id).SetBatchStatus? && PerformAction(w, member, id, facts).Some?
    ensures PerformAction(w, member, id, facts).value.safe.queue.first == w.safe.queue.first + 1
  {
    var a := ActionAt(w.ms, id);
    SetStatusKeepsBooks(w.safe, w.now, a.batchId, a.statuses, facts.burnable);
  }

  lemma {:induction false} PerformAdvances(w: World, hash: Hasher, id: nat, member: nat, facts: Facts)
    requires WorldOk(w, hash) && MayPerform(w.ms, member, id) && FitsPending(w, id)
    ensures Apply(w, hash, PerformBy(member, id, facts)).safe.queue.first == w.safe.queue.first + 1
  {
    StatusActionPerforms(w, hash, member, id, facts);
    PerformMovesFirst(w, hash, id, member, facts);
    ApplyPerforms(w, hash, id, member, facts);
  }

  lemma {:induction false} Enabled(w: World, hash: Hasher, id: nat, member: nat, facts: Facts)
    requires WorldOk(w, hash) && FitsPending(w, id)
    ensures var c := Run(w, hash, PassingRun(id, member, facts)[..3]);
            && WorldOk(c, hash) && MayPerform(c.ms, member, id) && FitsPending(c, id)
            && c.safe == w.safe
  {
    var steps := PassingRun(id, member, facts);
    FourSteps(w, hash, steps);
    OwnerEnables(w, hash, id, member);
    RunOk(w, hash, steps[..3]);
  }

  lemma {:induction false} PassingRunSettles(w: World, hash: Hasher, id: nat, member: nat, facts: Facts)
    requires WorldOk(w, hash) && FitsPending(w, id)
    ensures Run(w, hash, PassingRun(id, member, facts)).safe.queue.first == w.safe.queue.first + 1
  {
    var steps := PassingRun(id, member, facts);
    Enabled(w, hash, id, member, facts);
    PerformAdvances(Run(w, hash, steps[..3]), hash, id, member, facts);
    RunSnoc(w, hash, steps[..3], steps[3]);
    assert steps[..3] + [steps[3]] == steps;
  }

  lemma {:induction false} FittingListPasses(w: World, hash: Hasher, id: nat, member: nat, facts: Facts)
    requires WorldOk(w, hash) && FitsPending(w, id)
    ensures Passes(w, hash, PassingRun(id, member, facts))
  {
    PassingRunSettles(w, hash, id, member, facts);
    NoLimitsAlong(w, hash, PassingRun(id, member, facts), w.safe.queue.first);
  }

  /** The exact condition: a closed batch of six or more is passed by some run that does not reopen it if and only if a
      pending status list fits it as it is now. */
  lemma {:induction false} PassableIffFits(w: World, hash: Hasher)
    requires WorldOk(w, hash) && Closed(w.safe.queue, w.now) && |FirstBatch(w)| >= 6
    ensures (exists steps :: Passes(w, hash, steps)) <==> exists id :: FitsPending(w, id)
  {
    if id :| FitsPending(w, id) {
      FittingListPasses(w, hash, id, 0, Facts({}, {}, {}, {}, map[]));
    } else {
      forall steps ensures !Passes(w, hash, steps) {
        if Along(w, hash, steps, NeverReopens(w.safe.queue.first)) {
          LargeBatchJams(w, hash, steps);
        }
      }
    }
  }

  lemma {:induction false} FilledIsJammed(w: World, r: World)
    requires Initial(w) && w.safe.queue.maxSize >= 6 && Filling(w, r, w.safe.queue.maxSize)
    ensures var end := r.(now := r.now + 11); Jammed(end) && Offered(end.safe.queue, end.now)
  {
    var end := r.(now := r.now + 11);
    assert IsFull(end.safe.queue, 1, end.now) && BatchFinal(FirstBatch(end), end.now);
  }

  lemma {:induction false} TickApplies(w: World, hash: Hasher, blocks: nat)
    ensures Apply(w, hash, Tick(blocks)) == w.(now := w.now + blocks)
  {
  }

  /** The jam is reached by ordinary use: with a size limit of six or more (ten after deployment), enough accepted
      deposits to fill one batch, and eleven blocks, are all it takes. */
  lemma {:induction false} FullBatchJams(w: World, hash: Hasher, step: Step)
    requires Initial(w) && step.CreateBy? && Accepts(w.safe, w.now, step) && w.safe.queue.maxSize >= 6
    ensures var r := Run(w, hash, Repeated(step, w.safe.queue.maxSize) + [Tick(11)]);
            Jammed(r) && Offered(r.safe.queue, r.now)
  {
    var deposits := Repeated(step, w.safe.queue.maxSize);
    FillFresh(w, hash, step, w.safe.queue.maxSize);
    RunSnoc(w, hash, deposits, Tick(11));
    TickApplies(Run(w, hash, deposits), hash, 11);
    FilledIsJammed(w, Run(w, hash, deposits));
  }

  // ----- Where a settlement differs from the offer -----

  /** A deployment for which the example below works: the size limit is six, one staked signature is a quorum. */
  ghost predicate ExampleSetup(w: World, create: Step, caller: nat) {
    && Initial(w) && create.CreateBy? && Accepts(w.safe, w.now, create)
    && w.safe.queue.maxSize == 6 && w.safe.queue.maxDuration > 11
    && caller in w.ms.users && !w.ms.paused && w.ms.quorum <= 1 && w.ms.requiredStake == 0
  }

  /** Six deposits and eleven blocks: the batch is offered. */
  function OfferSix(create: Step): seq<Step> {
    Repeated(create, 6) + [Tick(11)]
  }

  lemma {:induction false} SixAreOffered(w: World, hash: Hasher, create: Step, caller: nat)
    requires ExampleSetup(w, create, caller)
    ensures var a := Run(w, hash, OfferSix(create));
            && Offered(a.safe.queue, a.now) && a.safe.queue.first == a.safe.queue.last == 1
            && |FirstBatch(a)| == 6 && FirstBatch(a)[0].blockNonce + 11 == a.now
            && a.ms == w.ms && a.safe.queue.maxDuration == w.safe.queue.maxDuration
            && Accepts(a.safe, a.now, create)
  {
    var deposits := Repeated(create, 6);
    FillFresh(w, hash, create, 6);
    RunSnoc(w, hash, deposits, Tick(11));
    TickApplies(Run(w, hash, deposits), hash, 11);
    FilledIsJammed(w, Run(w, hash, deposits));
  }

  /** Proposing seven statuses for six transactions goes through, with a quorum at once. */
  lemma {:induction false} SevenForSix(m: Multisig, caller: nat)
    requires FreshMultisig(m, caller)
    ensures var r := ProposeStatus(m, caller, 1, AllRejected(7), Some((1, 6)));
            && r.Some?
            && MayPerform(r.value, caller, 1) && ActionAt(r.value, 1) == SetBatchStatus(1, AllRejected(7))
  {
    CountByFieldsExact(6);
    var action := SetBatchStatus(1, AllRejected(7));
    ProposerIsQuorum(m, caller, action);
    IndexDoesNotMatter(ProposeAction(m, caller, action).value,
                       ProposeStatus(m, caller, 1, AllRejected(7), Some((1, 6))).value, caller, 1);
  }

  lemma {:induction false} SevenAreProposed(a: World, hash: Hasher, caller: nat)
    requires Offered(a.safe.queue, a.now) && a.safe.queue.first == 1 && |FirstBatch(a)| == 6
    requires FreshMultisig(a.ms, caller)
    ensures var b := Apply(a, hash, ProposeStatusBy(caller, 1, AllRejected(7)));
            && b == a.(ms := b.ms)
            && MayPerform(b.ms, caller, 1) && ActionAt(b.ms, 1) == SetBatchStatus(1, AllRejected(7))
  {
    SevenForSix(a.ms, caller);
  }

  /** Raising the limit to seven reopens the batch for a seventh transaction. */
  lemma {:induction false} SeventhJoins(b: World, hash: Hasher, create: Step)
    requires create.CreateBy? && Accepts(b.safe, b.now, create)
    requires b.safe.queue.first == b.safe.queue.last == 1 && |FirstBatch(b)| == 6
    requires FirstBatch(b)[0].blockNonce + 11 == b.now && b.safe.queue.maxDuration > 11
    ensures var c := Apply(b, hash, SafeLimits(7, b.safe.queue.maxDuration));
            var e := Apply(c, hash, create);
            && e.ms == b.ms && e.safe.queue.first == 1 && |FirstBatch(e)| == 7 && FirstBatch(b) <= FirstBatch(e)
  {
    var c := Apply(b, hash, SafeLimits(7, b.safe.queue.maxDuration));
    LimitsApply(b, hash, 7, b.safe.queue.maxDuration);
    assert Accepts(c.safe, c.now, create);
    assert !IsFull(c.safe.queue, 1, c.now);
    CreateApplies(c, hash, create);
  }

  /** The whole run before the settlement. */
  function ReopeningRun(create: Step, caller: nat, duration: nat): seq<Step> {
    OfferSix(create) + [ProposeStatusBy(caller, 1, AllRejected(7))] + [SafeLimits(7, duration)] + [create]
  }

  lemma {:induction false} ReopeningRunIs(w: World, hash: Hasher, create: Step, caller: nat, duration: nat)
    ensures var a := Run(w, hash, OfferSix(create));
            var b := Apply(a, hash, ProposeStatusBy(caller, 1, AllRejected(7)));
            Run(w, hash, ReopeningRun(create, caller, duration))
            == Apply(Apply(b, hash, SafeLimits(7, duration)), hash, create)
  {
    var first, second := [ProposeStatusBy(caller, 1, AllRejected(7))], [SafeLimits(7, duration)];
    RunSnoc(w, hash, OfferSix(create), first[0]);
    RunSnoc(w, hash, OfferSix(create) + first, second[0]);
    RunSnoc(w, hash, OfferSix(create) + first + second, create);
  }

  lemma {:induction false} Reopened(w: World, hash: Hasher, create: Step, caller: nat)
    requires ExampleSetup(w, create, caller)
    ensures var a := Run(w, hash, OfferSix(create));
            var e := Run(w, hash, ReopeningRun(create, caller, w.safe.queue.maxDuration));
            && Offered(a.safe.queue, a.now) && |FirstBatch(a)| == 6
            && |FirstBatch(e)| == 7 && FirstBatch(a) <= FirstBatch(e) && e.safe.queue.first == 1
            && MayPerform(e.ms, caller, 1) && ActionAt(e.ms, 1) == SetBatchStatus(1, AllRejected(7))
  {
    var duration := w.safe.queue.maxDuration;
    var a := Run(w, hash, OfferSix(create));
    SixAreOffered(w, hash, create, caller);
    SevenAreProposed(a, hash, caller);
    SeventhJoins(Apply(a, hash, ProposeStatusBy(caller, 1, AllRejected(7))), hash, create);
    ReopeningRunIs(w, hash, create, caller, duration);
  }

  lemma {:induction false} SevenSettle(e: World, hash: Hasher, caller: nat, facts: Facts)
    requires WorldOk(e, hash) && |FirstBatch(e)| == 7
    requires MayPerform(e.ms, caller, 1) && ActionAt(e.ms, 1) == SetBatchStatus(1, AllRejected(7))
    ensures PerformAction(e, caller, 1, facts).Some?
  {
    assert StatusesFit(FirstBatch(e), AllRejected(7));
    StatusActionPerforms(e, hash, caller, 1, facts);
  }

  lemma {:induction false} PerformSettles(e: World, hash: Hasher, step: Step)
    requires step.PerformBy? && PerformAction(e, step.caller, step.id, step.facts).Some?
    requires ActionAt(e.ms, step.id) == SetBatchStatus(e.safe.queue.first, AllRejected(7))
    ensures Next(e, hash, step).Some?
    ensures SettledNow(e, step) == [Settlement(e.safe.queue.first, FirstBatch(e), AllRejected(7))]
  {
  }

  /** Six transactions are offered and voted on; after the limit is raised a seventh joins, and performing the vote
      settles all seven. */
  lemma {:induction false} ReopenedBatchSettles(w: World, hash: Hasher, create: Step, caller: nat, facts: Facts)
    requires ExampleSetup(w, create, caller)
    ensures var a := Run(w, hash, OfferSix(create));
            var e := Run(w, hash, ReopeningRun(create, caller, w.safe.queue.maxDuration));
            && Offered(a.safe.queue, a.now) && |FirstBatch(a)| == 6
            && |FirstBatch(e)| == 7 && FirstBatch(a) <= FirstBatch(e)
            && Next(e, hash, PerformBy(caller, 1, facts)).Some?
            && SettledNow(e, PerformBy(caller, 1, facts)) == [Settlement(1, FirstBatch(e), AllRejected(7))]
  {
    var steps := ReopeningRun(create, caller, w.safe.queue.maxDuration);
    Reopened(w, hash, create, caller);
    InitialOk(w, hash);
    RunOk(w, hash, steps);
    SevenSettle(Run(w, hash, steps), hash, caller, facts);
    PerformSettles(Run(w, hash, steps), hash, PerformBy(caller, 1, facts));
  }
}
