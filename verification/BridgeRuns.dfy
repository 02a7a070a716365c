/** What holds over every run of the bridge: any calls, by anyone, in any order, with any rival proposals. */
module BridgeRuns {
  import opened Collections
  import opened Transactions
  import opened BatchQueue
  import opened SafeLedger
  import opened Delivery
  import opened MultisigTable
  import opened Bridge
  import opened ActionTable
  import opened BridgeInvariant

  datatype Settlement = Settlement(batchId: nat, txs: seq<Transaction>, statuses: seq<TransactionStatus>)

  // ----- What one successful call contributes -----

  function PerformedAction(w: World, step: Step): Action {
    if step.PerformBy? then ActionAt(w.ms, step.id) else Nothing
  }

  /** The Ethereum batch a call executes. */
  function TransfersNow(w: World, step: Step): seq<Action> {
    if PerformedAction(w, step).TransferBatch? then [PerformedAction(w, step)] else []
  }

  /** The safe batch a call settles. */
  function SettledNow(w: World, step: Step): seq<Settlement> {
    var a := PerformedAction(w, step);
    if a.SetBatchStatus? then [Settlement(a.batchId, Batch(w.safe.queue, a.batchId), a.statuses)] else []
  }

  function ProposedNow(w: World, step: Step): seq<Action> {
    if step.ProposeStatusBy? then [SetBatchStatus(step.batchId, step.statuses)]
    else if step.ProposeTransferBy? then [TransferBatch(step.batchId, step.transfers)]
    else []
  }

  function AsSeq(tx: Option<Transaction>): seq<Transaction> {
    if tx.Some? then [tx.value] else []
  }

  /** The transactions a call puts into the safe. */
  function EnteredNow(w: World, step: Step): seq<Transaction> {
    if step.CreateBy? then AsSeq(NewTx(w.safe, w.now, step.facts.prices, step.caller, step.to, step.paid))
    else if step.DepositBy? && DepositSwap(w, step.paid).Some? then
      AsSeq(NewTx(w.safe, w.now, step.facts.prices, step.caller, step.to, DepositSwap(w, step.paid).value.2))
    else if step.MoveRefunds? then RefundTxs(w.safe, w.now, step.facts.prices, FirstRefunds(w))
    else []
  }

  /** The failed transfers a call puts aside for refund, and the ones it hands to the safe. */
  function RefusedNow(w: World, step: Step): seq<Transaction> {
    var a := PerformedAction(w, step);
    if a.TransferBatch? then RefundRecords(w.now, Refused(step.facts, w.mt, a.transfers)) else []
  }

  function MovedNow(w: World, step: Step): seq<Transaction> {
    if step.MoveRefunds? then Batch(w.mt.queue, w.mt.queue.first) else []
  }

  // ----- Effects of one call -----

  lemma {:induction false} BoardFrame(w: World, hash: Hasher, step: Step)
    requires WorldOk(w, hash) && IsBoardStep(step) && BoardNext(w, step).Some?
    ensures var r := BoardNext(w, step).value;
            && r == w.(ms := r.ms)
            && r.ms.actions == w.ms.actions && r.ms.signers == w.ms.signers
            && r.ms.lastEthBatch == w.ms.lastEthBatch && r.ms.lastEthTx == w.ms.lastEthTx
  {
    if step.BoardAdd? {
      AddMemberKeepsBoard(w.ms, step.address);
    } else if step.BoardRemove? {
      RemoveUserKeepsBoard(w.ms, step.address);
    }
  }

  lemma {:induction false} SafeFrame(w: World, step: Step)
    requires IsSafeStep(step) && SafeNext(w, step).Some?
    ensures SafeNext(w, step).value.ms == w.ms
    ensures !step.MoveRefunds? ==> SafeNext(w, step).value.mt == w.mt
  {
  }

  lemma {:induction false} TokenFrame(w: World, step: Step)
    requires IsTokenStep(step) && TokenNext(w, step).Some?
    ensures TokenNext(w, step).value.ms == w.ms && TokenNext(w, step).value.safe == w.safe
    ensures !step.RefundLimits? ==> TokenNext(w, step).value.mt.queue == w.mt.queue
  {
  }

  /** Executing an Ethereum batch moves the counters by one batch and by its number of transfers. */
  lemma {:induction false} TransferEffect(w: World, hash: Hasher, step: Step)
    requires WorldOk(w, hash) && step.PerformBy? && PerformedAction(w, step).TransferBatch?
    requires PerformAction(w, step.caller, step.id, step.facts).Some?
    ensures var r, a := PerformAction(w, step.caller, step.id, step.facts).value, PerformedAction(w, step);
            && a.batchId == w.ms.lastEthBatch + 1 == r.ms.lastEthBatch
            && a.transfers != [] && Consecutive(a.transfers, w.ms.lastEthTx + 1)
            && r.ms.lastEthTx == w.ms.lastEthTx + |a.transfers|
            && r.safe == w.safe
  {
    assert ActionOk(w.ms, hash, w.safe.queue.first, step.id);
    CloseTransferKeepsTable(w.ms, hash, w.safe.queue.first, step.id);
  }

  /** Only that moves them. */
  lemma {:induction false} CountersEffect(w: World, hash: Hasher, step: Step)
    requires WorldOk(w, hash) && Next(w, hash, step).Some? && !PerformedAction(w, step).TransferBatch?
    ensures var r := Next(w, hash, step).value.ms;
            r.lastEthBatch == w.ms.lastEthBatch && r.lastEthTx == w.ms.lastEthTx
  {
    if IsBoardStep(step) {
      BoardFrame(w, hash, step);
    } else if IsSafeStep(step) {
      SafeFrame(w, step);
    } else if IsTokenStep(step) {
      TokenFrame(w, step);
    }
  }

  /** The safe's queue gives at the front what is settled and takes at the back what enters. */
  lemma {:induction false} SettleEffect(w: World, hash: Hasher, step: Step)
    requires WorldOk(w, hash) && Next(w, hash, step).Some? && PerformedAction(w, step).SetBatchStatus?
    ensures var r, a := Next(w, hash, step).value, PerformedAction(w, step);
            && a.batchId == w.safe.queue.first && r.safe.queue.first == w.safe.queue.first + 1
            && Batch(w.safe.queue, a.batchId) != [] && |Batch(w.safe.queue, a.batchId)| == |a.statuses|
            && Batch(w.safe.queue, a.batchId) + Waiting(r.safe.queue) == Waiting(w.safe.queue)
  {
    var a := PerformedAction(w, step);
    assert ActionOk(w.ms, hash, w.safe.queue.first, step.id);
    SetStatusKeepsBooks(w.safe, w.now, a.batchId, a.statuses, step.facts.burnable);
  }

  lemma {:induction false} EnterEffect(w: World, hash: Hasher, step: Step)
    requires WorldOk(w, hash) && IsSafeStep(step) && SafeNext(w, step).Some?
    ensures var r := SafeNext(w, step).value;
            && r.safe.queue.first == w.safe.queue.first
            && Waiting(r.safe.queue) == Waiting(w.safe.queue) + EnteredNow(w, step)
  {
    match step {
      case MoveRefunds(facts) => AddRefundsKeepsBooks(w.safe, w.now, facts.prices, FirstRefunds(w));
      case ShareFees(shares, facts) =>
      case SafeLimits(maxSize, maxDuration) => LimitsOk(w, hash, maxSize, maxDuration);
      case SafeSettings(settings) =>
      case CreateBy(caller, to, paid, facts) => CreateKeepsBooks(w.safe, w.now, facts.prices, caller, to, paid);
      case ClaimBy(caller, token) =>
      case DepositBy(caller, to, paid, facts) =>
        CreateKeepsBooks(w.safe, w.now, facts.prices, caller, to, DepositSwap(w, paid).value.2);
    }
  }

  /** Every other call leaves the safe alone. */
  lemma {:induction false} SafeUntouched(w: World, hash: Hasher, step: Step)
    requires WorldOk(w, hash) && Next(w, hash, step).Some?
    requires !IsSafeStep(step) && !PerformedAction(w, step).SetBatchStatus?
    ensures Next(w, hash, step).value.safe == w.safe && EnteredNow(w, step) == []
  {
    if IsBoardStep(step) {
      BoardFrame(w, hash, step);
    } else if IsTokenStep(step) {
      TokenFrame(w, step);
    }
  }

  lemma {:induction false} QueueEffect(w: World, hash: Hasher, step: Step)
    requires WorldOk(w, hash) && Next(w, hash, step).Some? && !PerformedAction(w, step).SetBatchStatus?
    ensures var r := Next(w, hash, step).value;
            && r.safe.queue.first == w.safe.queue.first
            && Waiting(r.safe.queue) == Waiting(w.safe.queue) + EnteredNow(w, step)
  {
    if IsSafeStep(step) {
      EnterEffect(w, hash, step);
    } else {
      SafeUntouched(w, hash, step);
    }
  }

  lemma {:induction false} RefusalEffect(w: World, hash: Hasher, step: Step)
    requires WorldOk(w, hash) && Next(w, hash, step).Some? && PerformedAction(w, step).TransferBatch?
    ensures Waiting(Next(w, hash, step).value.mt.queue) == Waiting(w.mt.queue) + RefusedNow(w, step)
  {
    AddAllAppends(w.mt.queue, w.now, RefusedNow(w, step));
  }

  lemma {:induction false} MoveEffect(w: World, step: Step)
    requires QueueOk(w.mt.queue) && step.MoveRefunds?
    ensures MovedNow(w, step) + Waiting(MoveRefundBatch(w, step.facts).mt.queue) == Waiting(w.mt.queue)
  {
    ClearFirstDrops(w.mt.queue);
    SplitJoin(Batch(w.mt.queue, w.mt.queue.first));
  }

  /** Every other call keeps the content of the refund queue. */
  lemma {:induction false} RefundsUntouched(w: World, hash: Hasher, step: Step)
    requires WorldOk(w, hash) && Next(w, hash, step).Some?
    requires !PerformedAction(w, step).TransferBatch? && !step.MoveRefunds?
    ensures Waiting(Next(w, hash, step).value.mt.queue) == Waiting(w.mt.queue)
  {
    if step.RefundLimits? {
      var q := w.mt.queue;
      ConcatSame(q, Limited(q, step.maxSize, step.maxDuration).value, q.first, q.last + 1);
    } else if IsBoardStep(step) {
      BoardFrame(w, hash, step);
    } else if IsSafeStep(step) {
      SafeFrame(w, step);
    } else if IsTokenStep(step) {
      TokenFrame(w, step);
    }
  }

  /** The refund queue takes refused transfers at the back and gives moved ones at the front. */
  lemma {:induction false} RefundQueueEffect(w: World, hash: Hasher, step: Step)
    requires WorldOk(w, hash) && Next(w, hash, step).Some?
    ensures var r := Next(w, hash, step).value;
            MovedNow(w, step) + Waiting(r.mt.queue) == Waiting(w.mt.queue) + RefusedNow(w, step)
  {
    if PerformedAction(w, step).TransferBatch? {
      RefusalEffect(w, hash, step);
    } else if step.MoveRefunds? {
      MoveEffect(w, step);
    } else {
      RefundsUntouched(w, hash, step);
    }
  }

  // ----- Executed Ethereum batches -----

  ghost function NoncesOf(done: seq<Action>): seq<nat>
    requires forall i :: 0 <= i < |done| ==> done[i].TransferBatch?
  {
    if done == [] then []
    else
      var a := done[|done| - 1];
      NoncesOf(done[..|done| - 1]) + seq(|a.transfers|, i requires 0 <= i < |a.transfers| => a.transfers[i].nonce)
  }

  /** Batches 1, 2, 3, ... and, across them, deposits 1, 2, 3, ..., without gap or repetition. */
  ghost predicate ExecutedInOrder(done: seq<Action>, lastBatch: nat, lastTx: nat) {
    && |done| == lastBatch
    && (forall i :: 0 <= i < |done| ==> done[i].TransferBatch? && done[i].batchId == i + 1)
    && |NoncesOf(done)| == lastTx
    && (forall k :: 0 <= k < lastTx ==> NoncesOf(done)[k] == k + 1)
  }

  lemma {:induction false} ExecutedExtends(done: seq<Action>, a: Action, lastBatch: nat, lastTx: nat)
    requires ExecutedInOrder(done, lastBatch, lastTx)
    requires a.TransferBatch? && a.batchId == lastBatch + 1 && Consecutive(a.transfers, lastTx + 1)
    ensures ExecutedInOrder(done + [a], lastBatch + 1, lastTx + |a.transfers|)
  {
    assert (done + [a])[..|done|] == done;
  }

  lemma {:induction false} ExecutedStep(w: World, hash: Hasher, step: Step, done: seq<Action>)
    requires WorldOk(w, hash) && ExecutedInOrder(done, w.ms.lastEthBatch, w.ms.lastEthTx)
    requires Next(w, hash, step).Some?
    ensures var r := Next(w, hash, step).value.ms;
            ExecutedInOrder(done + TransfersNow(w, step), r.lastEthBatch, r.lastEthTx)
  {
    if PerformedAction(w, step).TransferBatch? {
      TransferEffect(w, hash, step);
      ExecutedExtends(done, PerformedAction(w, step), w.ms.lastEthBatch, w.ms.lastEthTx);
    } else {
      CountersEffect(w, hash, step);
      assert done + TransfersNow(w, step) == done;
    }
  }

  /** Over any run, with any rival proposals, Ethereum batches and deposits are executed exactly once and in order. */
  lemma {:induction false} EthereumBatchesExecuteInOrder(w: World, hash: Hasher, steps: seq<Step>)
    requires Initial(w)
    ensures var m := Run(w, hash, steps).ms;
            ExecutedInOrder(Collect(w, hash, steps, TransfersNow), m.lastEthBatch, m.lastEthTx)
  {
    if steps != [] {
      var n := |steps| - 1;
      var u := Run(w, hash, steps[..n]);
      EthereumBatchesExecuteInOrder(w, hash, steps[..n]);
      InitialOk(w, hash);
      RunOk(w, hash, steps[..n]);
      if Next(u, hash, steps[n]).Some? {
        ExecutedStep(u, hash, steps[n], Collect(w, hash, steps[..n], TransfersNow));
      }
    }
  }

  // ----- The action table -----

  /** The batch of this proposal has been dealt with. */
  predicate IsPast(a: Action, lastEthBatch: nat, first: nat) {
    match a
    case Nothing => true
    case TransferBatch(batchId, _) => batchId <= lastEthBatch
    case SetBatchStatus(batchId, _) => batchId < first
  }

  /** The stored table is the list of all proposals ever made, with those of past batches blanked. */
  ghost predicate TableMatches(m: Multisig, first: nat, proposals: seq<Action>) {
    && |m.actions| == |proposals|
    && forall i :: 0 <= i < |proposals| ==>
         m.actions[i] == if IsPast(proposals[i], m.lastEthBatch, first) then Nothing else proposals[i]
  }

  lemma {:induction false} ProposeEffect(w: World, hash: Hasher, step: Step, proposals: seq<Action>)
    requires WorldOk(w, hash) && Next(w, hash, step).Some?
    requires step.ProposeStatusBy? || step.ProposeTransferBy?
    requires TableMatches(w.ms, w.safe.queue.first, proposals)
    ensures TableMatches(Next(w, hash, step).value.ms, w.safe.queue.first, proposals + ProposedNow(w, step))
  {
  }

  lemma {:induction false} EntryAfterTransfer(
    m: Multisig, hash: Hasher, first: nat, id: nat, proposals: seq<Action>, i: nat)
    requires TableOk(m, hash, first) && TableMatches(m, first, proposals) && i < |proposals|
    requires ActionAt(m, id).TransferBatch? && ActionAt(m, id).transfers != []
    ensures var n := CloseTransfer(m, id, ActionAt(m, id).batchId, ActionAt(m, id).transfers).value;
            |n.actions| == |proposals|
            && n.actions[i] == if IsPast(proposals[i], m.lastEthBatch + 1, first) then Nothing else proposals[i]
  {
    CloseTransferWipes(m, hash, first, id, i + 1);
    assert ActionOk(m, hash, first, i + 1);
  }

  lemma {:induction false} EntryAfterStatus(
    m: Multisig, hash: Hasher, first: nat, id: nat, proposals: seq<Action>, i: nat)
    requires TableOk(m, hash, first) && TableMatches(m, first, proposals) && i < |proposals|
    requires ActionAt(m, id).SetBatchStatus?
    ensures var n := CloseStatus(m, id, ActionAt(m, id).batchId);
            |n.actions| == |proposals|
            && n.actions[i] == if IsPast(proposals[i], m.lastEthBatch, first + 1) then Nothing else proposals[i]
  {
    CloseStatusWipes(m, hash, first, id, i + 1);
    assert ActionOk(m, hash, first, i + 1);
  }

  lemma {:induction false} TableAfterTransfer(m: Multisig, hash: Hasher, first: nat, id: nat, proposals: seq<Action>)
    requires TableOk(m, hash, first) && TableMatches(m, first, proposals)
    requires ActionAt(m, id).TransferBatch? && ActionAt(m, id).transfers != []
    ensures TableMatches(
              CloseTransfer(m, id, ActionAt(m, id).batchId, ActionAt(m, id).transfers).value, first, proposals)
  {
    var n := CloseTransfer(m, id, ActionAt(m, id).batchId, ActionAt(m, id).transfers).value;
    forall i | 0 <= i < |proposals|
      ensures n.actions[i] == if IsPast(proposals[i], m.lastEthBatch + 1, first) then Nothing else proposals[i]
    {
      EntryAfterTransfer(m, hash, first, id, proposals, i);
    }
  }

  lemma {:induction false} TableAfterStatus(m: Multisig, hash: Hasher, first: nat, id: nat, proposals: seq<Action>)
    requires TableOk(m, hash, first) && TableMatches(m, first, proposals)
    requires ActionAt(m, id).SetBatchStatus?
    ensures TableMatches(CloseStatus(m, id, ActionAt(m, id).batchId), first + 1, proposals)
  {
    var n := CloseStatus(m, id, ActionAt(m, id).batchId);
    forall i | 0 <= i < |proposals|
      ensures n.actions[i] == if IsPast(proposals[i], m.lastEthBatch, first + 1) then Nothing else proposals[i]
    {
      EntryAfterStatus(m, hash, first, id, proposals, i);
    }
  }

  lemma {:induction false} TransferTableEffect(w: World, hash: Hasher, step: Step, proposals: seq<Action>)
    requires WorldOk(w, hash) && step.PerformBy? && PerformAction(w, step.caller, step.id, step.facts).Some?
    requires TableMatches(w.ms, w.safe.queue.first, proposals) && ActionAt(w.ms, step.id).TransferBatch?
    ensures var r := PerformAction(w, step.caller, step.id, step.facts).value;
            TableMatches(r.ms, r.safe.queue.first, proposals)
  {
    TableAfterTransfer(w.ms, hash, w.safe.queue.first, step.id, proposals);
  }

  lemma {:induction false} PerformEffect(w: World, hash: Hasher, step: Step, proposals: seq<Action>)
    requires WorldOk(w, hash) && step.PerformBy? && PerformAction(w, step.caller, step.id, step.facts).Some?
    requires TableMatches(w.ms, w.safe.queue.first, proposals)
    ensures var r := PerformAction(w, step.caller, step.id, step.facts).value;
            TableMatches(r.ms, r.safe.queue.first, proposals)
  {
    if ActionAt(w.ms, step.id).TransferBatch? {
      TransferTableEffect(w, hash, step, proposals);
    } else {
      var a := ActionAt(w.ms, step.id);
      assert ActionOk(w.ms, hash, w.safe.queue.first, step.id);
      SetStatusKeepsBooks(w.safe, w.now, a.batchId, a.statuses, step.facts.burnable);
      TableAfterStatus(w.ms, hash, w.safe.queue.first, step.id, proposals);
    }
  }

  lemma {:induction false} OtherEffect(w: World, hash: Hasher, step: Step)
    requires WorldOk(w, hash) && Next(w, hash, step).Some?
    requires !step.PerformBy? && !step.ProposeStatusBy? && !step.ProposeTransferBy?
    ensures var r := Next(w, hash, step).value;
            && r.ms.actions == w.ms.actions && r.ms.lastEthBatch == w.ms.lastEthBatch
            && r.safe.queue.first == w.safe.queue.first
  {
    QueueEffect(w, hash, step);
    if IsBoardStep(step) {
      BoardFrame(w, hash, step);
    } else if IsSafeStep(step) {
      SafeFrame(w, step);
    } else if IsTokenStep(step) {
      TokenFrame(w, step);
    }
  }

  /** Every proposal is pending until its batch is dealt with and cleared exactly then: rival proposals of the
      same batch disappear together, whichever of them is performed. */
  lemma {:induction false} ActionTableOverRuns(w: World, hash: Hasher, steps: seq<Step>)
    requires Initial(w)
    ensures var r := Run(w, hash, steps);
            TableMatches(r.ms, r.safe.queue.first, Collect(w, hash, steps, ProposedNow))
  {
    if steps != [] {
      var n := |steps| - 1;
      var u, step := Run(w, hash, steps[..n]), steps[n];
      var proposals := Collect(w, hash, steps[..n], ProposedNow);
      ActionTableOverRuns(w, hash, steps[..n]);
      InitialOk(w, hash);
      RunOk(w, hash, steps[..n]);
      if Next(u, hash, step).Some? {
        if step.ProposeStatusBy? || step.ProposeTransferBy? {
          ProposeEffect(u, hash, step, proposals);
        } else {
          assert proposals + ProposedNow(u, step) == proposals;
          if step.PerformBy? {
            PerformEffect(u, hash, step, proposals);
          } else {
            OtherEffect(u, hash, step);
          }
        }
      }
    }
  }

  /** The view wasActionExecuted tells exactly whether the batch of that proposal has been dealt with. */
  lemma {:induction false} WasActionExecutedMeansPast(w: World, hash: Hasher, steps: seq<Step>, id: nat)
    requires Initial(w)
    ensures var r, proposals := Run(w, hash, steps), Collect(w, hash, steps, ProposedNow);
            WasActionExecuted(r.ms, id) <==>
            1 <= id <= |proposals| && IsPast(proposals[id - 1], r.ms.lastEthBatch, r.safe.queue.first)
  {
    ActionTableOverRuns(w, hash, steps);
    ProposalsAreReal(w, hash, steps);
  }

  lemma {:induction false} ProposalsAreReal(w: World, hash: Hasher, steps: seq<Step>)
    ensures Nothing !in Collect(w, hash, steps, ProposedNow)
  {
    if steps != [] {
      ProposalsAreReal(w, hash, steps[..|steps| - 1]);
    }
  }

  // ----- Settled safe batches -----

  ghost function SettledTxs(settled: seq<Settlement>): seq<Transaction> {
    if settled == [] then [] else SettledTxs(settled[..|settled| - 1]) + settled[|settled| - 1].txs
  }

  ghost predicate SettledInOrder(settled: seq<Settlement>, first: nat) {
    && |settled| == first - 1
    && forall i :: 0 <= i < |settled| ==>
         settled[i].batchId == i + 1 && settled[i].txs != [] && |settled[i].txs| == |settled[i].statuses|
  }

  lemma {:induction false} SettledExtends(settled: seq<Settlement>, s: Settlement, first: nat, rest: seq<Transaction>)
    requires SettledInOrder(settled, first)
    requires s.batchId == first && s.txs != [] && |s.txs| == |s.statuses|
    ensures SettledInOrder(settled + [s], first + 1)
    ensures SettledTxs(settled + [s]) + rest == SettledTxs(settled) + (s.txs + rest)
  {
    assert (settled + [s])[..|settled|] == settled;
  }

  lemma {:induction false} Reassociate<T>(a: seq<T>, b: seq<T>, c: seq<T>)
    ensures a + (b + c) == (a + b) + c
  {
  }

  lemma {:induction false} SettledStep(
    w: World, hash: Hasher, step: Step, settled: seq<Settlement>, entered: seq<Transaction>)
    requires WorldOk(w, hash) && Next(w, hash, step).Some?
    requires SettledInOrder(settled, w.safe.queue.first)
    requires SettledTxs(settled) + Waiting(w.safe.queue) == entered
    ensures var r, now := Next(w, hash, step).value, SettledNow(w, step);
            && SettledInOrder(settled + now, r.safe.queue.first)
            && SettledTxs(settled + now) + Waiting(r.safe.queue) == entered + EnteredNow(w, step)
  {
    var r := Next(w, hash, step).value;
    if PerformedAction(w, step).SetBatchStatus? {
      assert EnteredNow(w, step) == [];
      SettleEffect(w, hash, step);
      SettledExtends(settled, SettledNow(w, step)[0], w.safe.queue.first, Waiting(r.safe.queue));
    } else {
      assert SettledNow(w, step) == [] && settled + [] == settled;
      QueueEffect(w, hash, step);
      Reassociate(SettledTxs(settled), Waiting(w.safe.queue), EnteredNow(w, step));
    }
  }

  /** Safe batches are settled in id order, each once and by one status list, and every transaction that ever
      entered the safe is settled exactly once or still waiting, in the order of entry. */
  lemma {:induction false} SafeBatchesSettleInOrder(w: World, hash: Hasher, steps: seq<Step>)
    requires Initial(w)
    ensures var q, settled := Run(w, hash, steps).safe.queue, Collect(w, hash, steps, SettledNow);
            && SettledInOrder(settled, q.first)
            && SettledTxs(settled) + Waiting(q) == Collect(w, hash, steps, EnteredNow)
  {
    InitialOk(w, hash);
    if steps == [] {
      EmptySafeOk(w.safe, w.now);
    } else {
      var n := |steps| - 1;
      var u := Run(w, hash, steps[..n]);
      SafeBatchesSettleInOrder(w, hash, steps[..n]);
      RunOk(w, hash, steps[..n]);
      if Next(u, hash, steps[n]).Some? {
        SettledStep(u, hash, steps[n], Collect(w, hash, steps[..n], SettledNow),
                    Collect(w, hash, steps[..n], EnteredNow));
      }
    }
  }

  lemma {:induction false} MovedStep(
    w: World, hash: Hasher, step: Step, moved: seq<Transaction>, refused: seq<Transaction>)
    requires WorldOk(w, hash) && Next(w, hash, step).Some?
    requires moved + Waiting(w.mt.queue) == refused
    ensures (moved + MovedNow(w, step)) + Waiting(Next(w, hash, step).value.mt.queue)
            == refused + RefusedNow(w, step)
  {
    RefundQueueEffect(w, hash, step);
    var now, out := MovedNow(w, step), Waiting(Next(w, hash, step).value.mt.queue);
    Reassociate(moved, now, out);
    Reassociate(moved, Waiting(w.mt.queue), RefusedNow(w, step));
  }

  /** Every transfer refused on delivery is moved to the safe exactly once or still waits, in order. */
  lemma {:induction false} RefusedTransfersMoveInOrder(w: World, hash: Hasher, steps: seq<Step>)
    requires Initial(w)
    ensures Collect(w, hash, steps, MovedNow) + Waiting(Run(w, hash, steps).mt.queue)
            == Collect(w, hash, steps, RefusedNow)
  {
    InitialOk(w, hash);
    if steps == [] {
      assert Concat(w.mt.queue, 1, 1) == [];
    } else {
      var n := |steps| - 1;
      var u := Run(w, hash, steps[..n]);
      RefusedTransfersMoveInOrder(w, hash, steps[..n]);
      RunOk(w, hash, steps[..n]);
      if Next(u, hash, steps[n]).Some? {
        MovedStep(u, hash, steps[n], Collect(w, hash, steps[..n], MovedNow),
                  Collect(w, hash, steps[..n], RefusedNow));
      }
    }
  }
}
