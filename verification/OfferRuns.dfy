/** What happens to the safe's batches over runs: when they are frozen, and how large they get. */
module OfferRuns {
  import opened Transactions
  import opened BatchQueue
  import opened SafeLedger
  import opened MultisigTable
  import opened Bridge
  import opened BridgeInvariant
  import opened BridgeRuns

  function FirstBatch(w: World): seq<Transaction> {
    Batch(w.safe.queue, w.safe.queue.first)
  }

  /** The safe's queue after a successful call that settles nothing. */
  function QueueAfter(w: World, step: Step): Queue {
    var q, entered := w.safe.queue, EnteredNow(w, step);
    if step.SafeLimits? then q.(maxSize := step.maxSize, maxDuration := step.maxDuration)
    else AddAll(q.(lastNonce := q.lastNonce + |entered|), w.now, entered)
  }

  lemma {:induction false} CreateMoves(
    s: Safe, now: nat, prices: map<Token, nat>, from: nat, to: nat, paid: Payment)
    requires Create(s, now, prices, from, to, paid).Some?
    ensures var entered := AsSeq(NewTx(s, now, prices, from, to, paid));
            Create(s, now, prices, from, to, paid).value.queue
            == AddAll(s.queue.(lastNonce := s.queue.lastNonce + |entered|), now, entered)
  {
    var tx := NewTx(s, now, prices, from, to, paid).value;
    AddAllOne(s.queue.(lastNonce := tx.nonce), now, tx);
  }

  lemma {:induction false} SafeStepMoves(w: World, step: Step)
    requires IsSafeStep(step) && SafeNext(w, step).Some?
    ensures SafeNext(w, step).value.safe.queue == QueueAfter(w, step) && SafeNext(w, step).value.now == w.now
  {
    if step.CreateBy? {
      CreateMoves(w.safe, w.now, step.facts.prices, step.caller, step.to, step.paid);
    } else if step.DepositBy? {
      CreateMoves(w.safe, w.now, step.facts.prices, step.caller, step.to, DepositSwap(w, step.paid).value.2);
    }
  }

  /** Every call that settles nothing appends to the queue, changes the limits, or lets time pass. */
  lemma {:induction false} QueueMoves(w: World, hash: Hasher, step: Step)
    requires WorldOk(w, hash) && Next(w, hash, step).Some? && !PerformedAction(w, step).SetBatchStatus?
    ensures var r := Next(w, hash, step).value;
            && r.safe.queue == QueueAfter(w, step)
            && (step.SafeLimits? ==> ChangesLimits(step))
            && w.now <= r.now && (r.now == w.now || r.safe.queue == w.safe.queue)
  {
    if IsSafeStep(step) {
      SafeStepMoves(w, step);
    } else {
      SafeUntouched(w, hash, step);
      if !step.Tick? {
        TimeStands(w, hash, step);
      }
    }
  }

  lemma {:induction false} TimeStands(w: World, hash: Hasher, step: Step)
    requires Next(w, hash, step).Some? && !step.Tick?
    ensures Next(w, hash, step).value.now == w.now
  {
  }

  lemma {:induction false} SettleMoves(w: World, hash: Hasher, step: Step)
    requires WorldOk(w, hash) && Next(w, hash, step).Some? && PerformedAction(w, step).SetBatchStatus?
    ensures Next(w, hash, step).value.safe.queue == ClearFirst(w.safe.queue)
  {
    var a := PerformedAction(w, step);
    SetStatusKeepsBooks(w.safe, w.now, a.batchId, a.statuses, step.facts.burnable);
  }

  lemma {:induction false} NonceOnly(q: Queue, nonce: nat, now: nat)
    requires QueueOk(q)
    ensures QueueOk(q.(lastNonce := nonce))
    ensures Closed(q, now) ==> Closed(q.(lastNonce := nonce), now)
    ensures Offered(q, now) ==> Offered(q.(lastNonce := nonce), now)
  {
    assert forall id :: Batch(q.(lastNonce := nonce), id) == Batch(q, id);
  }

  lemma {:induction false} GrowMoves(w: World, step: Step)
    ensures var q, p := w.safe.queue, QueueAfter(w, step);
            p.first == q.first && Batch(q, q.first) <= Batch(p, p.first)
  {
    var q, entered := w.safe.queue, EnteredNow(w, step);
    if !step.SafeLimits? {
      AddAllGrowsFirst(q.(lastNonce := q.lastNonce + |entered|), w.now, entered);
    }
  }

  // ----- Freezing -----

  /** The first batch is the same and still closed. */
  ghost predicate StaysClosed(w: World, r: World) {
    && r.safe.queue.first == w.safe.queue.first && FirstBatch(r) == FirstBatch(w)
    && Closed(r.safe.queue, r.now)
  }

  /** The same offer stands. */
  ghost predicate OfferStands(w: World, r: World) {
    && r.safe.queue.first == w.safe.queue.first && FirstBatch(r) == FirstBatch(w)
    && Offered(r.safe.queue, r.now)
  }

  /** The owner sets new limits; with a zero among them the call fails. */
  predicate ChangesLimits(step: Step) {
    step.SafeLimits? && step.maxSize > 0 && step.maxDuration > 0
  }

  /** A change of limits that does not reopen a closed first batch: another batch follows it, or it is full under the
      new limits too. */
  predicate KeepsClosed(w: World, step: Step) {
    ChangesLimits(step) && Closed(w.safe.queue, w.now) ==>
      || w.safe.queue.first < w.safe.queue.last
      || BatchFull(FirstBatch(w), true, step.maxSize, step.maxDuration, w.now)
  }

  /** A change of limits under which an offered batch is still full. */
  predicate KeepsFull(w: World, step: Step) {
    ChangesLimits(step) ==> BatchFull(FirstBatch(w), true, step.maxSize, step.maxDuration, w.now)
  }

  /** Harmless limits keep a closed batch closed and an offered one offered. */
  lemma {:induction false} LimitsMove(w: World, step: Step)
    requires ChangesLimits(step) && Closed(w.safe.queue, w.now) && KeepsClosed(w, step)
    ensures var q, p := w.safe.queue, QueueAfter(w, step);
            && p.first == q.first && Batch(p, p.first) == Batch(q, q.first) && Closed(p, w.now)
            && (Offered(q, w.now) && KeepsFull(w, step) ==> Offered(p, w.now))
  {
    LimitsKeepClosed(w.safe.queue, step.maxSize, step.maxDuration, w.now);
  }

  /** So does adding. */
  lemma {:induction false} AddsMove(w: World, step: Step)
    requires !step.SafeLimits? && QueueOk(w.safe.queue) && Closed(w.safe.queue, w.now)
    ensures var q, p := w.safe.queue, QueueAfter(w, step);
            && p.first == q.first && Batch(p, p.first) == Batch(q, q.first) && Closed(p, w.now)
            && (Offered(q, w.now) ==> Offered(p, w.now))
  {
    var q, n := w.safe.queue, w.safe.queue.lastNonce + |EnteredNow(w, step)|;
    NonceOnly(q, n, w.now);
    AddAllKeepsClosed(q.(lastNonce := n), w.now, EnteredNow(w, step));
  }

  lemma {:induction false} ClosedMoves(w: World, step: Step)
    requires step.SafeLimits? ==> ChangesLimits(step)
    requires QueueOk(w.safe.queue) && Closed(w.safe.queue, w.now) && KeepsClosed(w, step)
    ensures var q, p := w.safe.queue, QueueAfter(w, step);
            && p.first == q.first && Batch(p, p.first) == Batch(q, q.first) && Closed(p, w.now)
            && (Offered(q, w.now) && KeepsFull(w, step) ==> Offered(p, w.now))
  {
    if step.SafeLimits? {
      LimitsMove(w, step);
    } else {
      AddsMove(w, step);
    }
  }

  lemma {:induction false} ClosedStep(w: World, hash: Hasher, step: Step)
    requires WorldOk(w, hash) && Next(w, hash, step).Some? && !PerformedAction(w, step).SetBatchStatus?
    requires Closed(w.safe.queue, w.now) && KeepsClosed(w, step)
    ensures StaysClosed(w, Next(w, hash, step).value)
    ensures Offered(w.safe.queue, w.now) && KeepsFull(w, step) ==> OfferStands(w, Next(w, hash, step).value)
  {
    var r := Next(w, hash, step).value;
    QueueMoves(w, hash, step);
    ClosedMoves(w, step);
    TimeKeepsOffer(r.safe.queue, w.now, r.now);
  }

  /** While batch `id` is first, no change of limits reopens it. */
  ghost function NeverReopens(id: nat): (World, Step) -> bool {
    (w: World, step: Step) => w.safe.queue.first == id ==> KeepsClosed(w, step)
  }

  /** While batch `id` is first, it stays full under every change of limits. */
  ghost function StaysFull(id: nat): (World, Step) -> bool {
    (w: World, step: Step) => w.safe.queue.first == id ==> KeepsFull(w, step)
  }

  /** A closed batch keeps its id and content until it is settled, whatever is added meanwhile, in every run that does
      not reopen it. */
  lemma {:induction false} ClosedBatchIsFrozen(w: World, hash: Hasher, steps: seq<Step>)
    requires WorldOk(w, hash) && Closed(w.safe.queue, w.now)
    requires Along(w, hash, steps, NeverReopens(w.safe.queue.first))
    ensures var r := Run(w, hash, steps);
            r.safe.queue.first > w.safe.queue.first || StaysClosed(w, r)
  {
    if steps != [] {
      var n := |steps| - 1;
      var u := Run(w, hash, steps[..n]);
      AlongInit(w, hash, steps, NeverReopens(w.safe.queue.first));
      ClosedBatchIsFrozen(w, hash, steps[..n]);
      RunOk(w, hash, steps[..n]);
      FrozenStep(u, hash, steps[n]);
    }
  }

  lemma {:induction false} FrozenStep(w: World, hash: Hasher, step: Step)
    requires WorldOk(w, hash)
    ensures var r := Apply(w, hash, step);
            && r.safe.queue.first >= w.safe.queue.first
            && (Closed(w.safe.queue, w.now) && KeepsClosed(w, step) ==>
                  r.safe.queue.first > w.safe.queue.first || StaysClosed(w, r))
            && (Offered(w.safe.queue, w.now) && KeepsFull(w, step) ==>
                  r.safe.queue.first > w.safe.queue.first || OfferStands(w, r))
  {
    if Next(w, hash, step).Some? {
      if PerformedAction(w, step).SetBatchStatus? {
        SettleEffect(w, hash, step);
      } else {
        QueueEffect(w, hash, step);
        if Closed(w.safe.queue, w.now) && KeepsClosed(w, step) {
          ClosedStep(w, hash, step);
        }
      }
    }
  }

  /** An offered batch is offered, with the same id and content, until it is settled, in every run under whose limits it
      stays full. */
  lemma {:induction false} OfferedBatchIsFrozen(w: World, hash: Hasher, steps: seq<Step>)
    requires WorldOk(w, hash) && Offered(w.safe.queue, w.now)
    requires Along(w, hash, steps, StaysFull(w.safe.queue.first))
    ensures var r := Run(w, hash, steps);
            r.safe.queue.first > w.safe.queue.first || OfferStands(w, r)
  {
    if steps != [] {
      var n := |steps| - 1;
      var u := Run(w, hash, steps[..n]);
      AlongInit(w, hash, steps, StaysFull(w.safe.queue.first));
      OfferedBatchIsFrozen(w, hash, steps[..n]);
      RunOk(w, hash, steps[..n]);
      FrozenStep(u, hash, steps[n]);
    }
  }

  /** Both guards are exact. A change of limits keeps the offer if and only if the batch stays full, ... */
  lemma {:induction false} LimitsKeepOfferIff(w: World, hash: Hasher, maxSize: nat, maxDuration: nat)
    requires Offered(w.safe.queue, w.now) && maxSize > 0 && maxDuration > 0
    ensures OfferStands(w, Apply(w, hash, SafeLimits(maxSize, maxDuration)))
            <==> KeepsFull(w, SafeLimits(maxSize, maxDuration))
  {
    LimitsKeepOffer(w.safe.queue, maxSize, maxDuration, w.now);
    LimitsApply(w, hash, maxSize, maxDuration);
  }

  lemma {:induction false} LimitsApply(w: World, hash: Hasher, maxSize: nat, maxDuration: nat)
    requires maxSize > 0 && maxDuration > 0
    ensures Apply(w, hash, SafeLimits(maxSize, maxDuration))
            == w.(safe := w.safe.(queue := w.safe.queue.(maxSize := maxSize, maxDuration := maxDuration)))
  {
  }

  /** ... and it leaves the batch safe from the next deposit if and only if it does not reopen it. */
  lemma {:induction false} ReopenedBatchGrows(w: World, hash: Hasher, maxSize: nat, maxDuration: nat, create: Step)
    requires WorldOk(w, hash) && Closed(w.safe.queue, w.now) && maxSize > 0 && maxDuration > 0
    requires create.CreateBy? && Accepts(w.safe, w.now, create)
    ensures var reopened := Apply(w, hash, SafeLimits(maxSize, maxDuration));
            FirstBatch(Apply(reopened, hash, create)) == FirstBatch(w)
            <==> KeepsClosed(w, SafeLimits(maxSize, maxDuration))
  {
    var u := Apply(w, hash, SafeLimits(maxSize, maxDuration));
    LimitsApply(w, hash, maxSize, maxDuration);
    LimitsKeepClosed(w.safe.queue, maxSize, maxDuration, w.now);
    assert Accepts(u.safe, u.now, create);
    CreateMoves(u.safe, u.now, create.facts.prices, create.caller, create.to, create.paid);
    CreateApplies(u, hash, create);
  }

  predicate Accepts(s: Safe, now: nat, step: Step)
    requires step.CreateBy?
  {
    NewTx(s, now, step.facts.prices, step.caller, step.to, step.paid).Some?
  }

  lemma {:induction false} CreateApplies(w: World, hash: Hasher, create: Step)
    requires create.CreateBy? && Accepts(w.safe, w.now, create)
    ensures var r := Apply(w, hash, create);
            var tx := NewTx(w.safe, w.now, create.facts.prices, create.caller, create.to, create.paid).value;
            && r == w.(safe := r.safe)
            && r.safe == w.safe.(queue := r.safe.queue, fees := r.safe.fees, balance := r.safe.balance)
            && tx.blockNonce == w.now && r.safe.queue == Add(w.safe.queue.(lastNonce := tx.nonce), w.now, tx)
  {
  }

  /** In every reachable state: batch ids from first to last, only a sole batch empty, the waiting nonces are exactly
      those up to the last one given out, and every transaction of an offered batch is more than ten blocks old. */
  lemma {:induction false} QueuesStayInOrder(w: World, hash: Hasher, steps: seq<Step>)
    requires Initial(w)
    ensures var r := Run(w, hash, steps);
            && QueueOk(r.safe.queue) && QueueOk(r.mt.queue)
            && NoncesOk(Waiting(r.safe.queue), r.safe.queue.lastNonce)
            && (Offered(r.safe.queue, r.now) ==>
                  forall i :: 0 <= i < |FirstBatch(r)| ==>
                    FirstBatch(r)[i].blockNonce + MIN_BLOCKS_FOR_FINALITY < r.now)
  {
    InitialOk(w, hash);
    RunOk(w, hash, steps);
    var r := Run(w, hash, steps);
    if Offered(r.safe.queue, r.now) {
      OfferedIsAllFinal(r.safe.queue, r.now);
    }
  }

  // ----- Sizes -----

  /** A change of limits that no stored batch exceeds. */
  ghost predicate KeepsWithin(w: World, step: Step) {
    ChangesLimits(step) ==> SizesWithin(w.safe.queue, step.maxSize)
  }

  ghost function NeverTooLow(): (World, Step) -> bool {
    (w: World, step: Step) => KeepsWithin(w, step)
  }

  lemma {:induction false} SizeMoves(w: World, step: Step)
    requires step.SafeLimits? ==> ChangesLimits(step)
    requires QueueOk(w.safe.queue) && SizesOk(w.safe.queue) && KeepsWithin(w, step)
    ensures SizesOk(QueueAfter(w, step))
  {
    var q, entered := w.safe.queue, EnteredNow(w, step);
    if !step.SafeLimits? {
      NonceOnly(q, q.lastNonce + |entered|, w.now);
      AddAllKeepsSizes(q.(lastNonce := q.lastNonce + |entered|), w.now, entered);
    }
  }

  lemma {:induction false} SizeStep(w: World, hash: Hasher, step: Step)
    requires WorldOk(w, hash) && SizesOk(w.safe.queue) && KeepsWithin(w, step) && Next(w, hash, step).Some?
    ensures SizesOk(Next(w, hash, step).value.safe.queue)
  {
    if PerformedAction(w, step).SetBatchStatus? {
      SettleMoves(w, hash, step);
    } else {
      QueueMoves(w, hash, step);
      SizeMoves(w, step);
    }
  }

  /** No batch of the safe ever outgrows the size limit, although fullness is decided by equality, in every run that
      does not set the limit below a stored batch. */
  lemma {:induction false} BatchesStayWithinLimit(w: World, hash: Hasher, steps: seq<Step>)
    requires Initial(w) && Along(w, hash, steps, NeverTooLow())
    ensures SizesOk(Run(w, hash, steps).safe.queue)
  {
    if steps != [] {
      var n := |steps| - 1;
      AlongInit(w, hash, steps, NeverTooLow());
      BatchesStayWithinLimit(w, hash, steps[..n]);
      InitialOk(w, hash);
      RunOk(w, hash, steps[..n]);
      if Next(Run(w, hash, steps[..n]), hash, steps[n]).Some? {
        SizeStep(Run(w, hash, steps[..n]), hash, steps[n]);
      }
    }
  }

  /** That guard is exact. */
  lemma {:induction false} LimitsKeepSizesIff(w: World, hash: Hasher, maxSize: nat, maxDuration: nat)
    requires maxSize > 0 && maxDuration > 0
    ensures SizesOk(Apply(w, hash, SafeLimits(maxSize, maxDuration)).safe.queue)
            <==> KeepsWithin(w, SafeLimits(maxSize, maxDuration))
  {
    LimitsApply(w, hash, maxSize, maxDuration);
  }

  // ----- Filling a batch -----

  function Repeated(step: Step, k: nat): seq<Step> {
    seq(k, i => step)
  }

  /** The safe of `w` after deposits in the same block: one batch with `k` transactions. */
  ghost predicate Filling(w: World, r: World, k: nat) {
    && r == w.(safe := r.safe)
    && r.safe == w.safe.(queue := r.safe.queue, fees := r.safe.fees, balance := r.safe.balance)
    && r.safe.queue.first == r.safe.queue.last == 1
    && r.safe.queue.maxSize == w.safe.queue.maxSize && r.safe.queue.maxDuration == w.safe.queue.maxDuration
    && |FirstBatch(r)| == k && forall i :: 0 <= i < k ==> FirstBatch(r)[i].blockNonce == w.now
  }

  lemma {:induction false} FillOne(w: World, hash: Hasher, r: World, step: Step, k: nat)
    requires step.CreateBy? && Accepts(w.safe, w.now, step) && Filling(w, r, k)
    requires k != w.safe.queue.maxSize && w.safe.queue.maxDuration > 0
    ensures Filling(w, Apply(r, hash, step), k + 1)
  {
    assert Accepts(r.safe, r.now, step);
    assert !IsFull(r.safe.queue, 1, r.now);
    CreateApplies(r, hash, step);
  }

  /** Deposits join the same batch as long as its length does not equal the limit. */
  lemma {:induction false} Fill(w: World, hash: Hasher, r: World, step: Step, j: nat, k: nat)
    requires step.CreateBy? && Accepts(w.safe, w.now, step) && w.safe.queue.maxDuration > 0
    requires Filling(w, r, j) && (j + k <= w.safe.queue.maxSize || w.safe.queue.maxSize < j)
    ensures Filling(w, Run(r, hash, Repeated(step, k)), j + k)
  {
    if k > 0 {
      assert Repeated(step, k)[..k - 1] == Repeated(step, k - 1);
      Fill(w, hash, r, step, j, k - 1);
      FillOne(w, hash, Run(r, hash, Repeated(step, k - 1)), step, j + k - 1);
    }
  }

  lemma {:induction false} FillFresh(w: World, hash: Hasher, step: Step, k: nat)
    requires Initial(w) && step.CreateBy? && Accepts(w.safe, w.now, step) && k <= w.safe.queue.maxSize
    ensures Filling(w, Run(w, hash, Repeated(step, k)), k)
  {
    Fill(w, hash, w, step, 0, k);
  }

  /** Where the size limit fails: once it is set below the length of the open batch, every deposit of the block still
      joins that batch, however many there are. */
  lemma {:induction false} OutgrownBatchGrows(w: World, hash: Hasher, step: Step, k: nat)
    requires Initial(w) && step.CreateBy? && Accepts(w.safe, w.now, step) && w.safe.queue.maxSize >= 2
    ensures var limits := SafeLimits(1, w.safe.queue.maxDuration);
            var r := Run(w, hash, Repeated(step, 2) + [limits] + Repeated(step, k));
            r.safe.queue.maxSize == 1 && |FirstBatch(r)| == 2 + k && !SizesOk(r.safe.queue)
  {
    var limits := SafeLimits(1, w.safe.queue.maxDuration);
    FillFresh(w, hash, step, 2);
    var two := Run(w, hash, Repeated(step, 2));
    var low := Apply(two, hash, limits);
    LimitsApply(two, hash, 1, w.safe.queue.maxDuration);
    RunSnoc(w, hash, Repeated(step, 2), limits);
    RunConcat(w, hash, Repeated(step, 2) + [limits], Repeated(step, k));
    assert Accepts(low.safe, low.now, step);
    Fill(low, hash, low, step, 2, k);
  }
}
