/** Every endpoint keeps the invariant of the whole bridge. */
module BridgeInvariant {
  import opened Collections
  import opened Transactions
  import opened BatchQueue
  import opened SafeLedger
  import opened TokenWrapper
  import opened Delivery
  import opened MultisigTable
  import opened Bridge
  import opened ActionTable

  /** A step inside the safe that neither settles nor empties the first batch. */
  lemma {:induction false} SafeStepOk(w: World, hash: Hasher, s: Safe)
    requires WorldOk(w, hash) && SafeOk(s, w.now)
    requires s.queue.first == w.safe.queue.first
    requires Batch(w.safe.queue, w.safe.queue.first) <= Batch(s.queue, s.queue.first)
    ensures WorldOk(w.(safe := s), hash)
  {
  }

  /** A step inside the multisig that leaves the action table alone. */
  lemma {:induction false} MultisigStepOk(w: World, hash: Hasher, m: Multisig)
    requires WorldOk(w, hash) && BoardOk(m) && StakesOk(m) && SignersOk(m)
    requires m.actions == w.ms.actions && m.transferIndex == w.ms.transferIndex && m.statusIndex == w.ms.statusIndex
    requires m.lastEthBatch == w.ms.lastEthBatch && m.lastEthTx == w.ms.lastEthTx
    ensures WorldOk(w.(ms := m), hash)
  {
    SameTable(w.ms, m, hash, w.safe.queue.first);
    assert forall id :: ActionAt(m, id) == ActionAt(w.ms, id);
  }

  lemma {:induction false} MoreUsersSameSigners(m: Multisig, n: Multisig)
    requires SignersOk(m) && n.signers == m.signers && n.actions == m.actions && m.users <= n.users
    ensures SignersOk(n)
  {
    forall i | Signers(n, i) != {}
      ensures ActionAt(n, i) != Nothing && forall s :: s in Signers(n, i) ==> 1 <= s <= |n.users|
    {
      assert Signers(m, i) != {};
    }
  }

  /** A change of members, stakes or quorum. */
  lemma {:induction false} BoardStepOk(w: World, hash: Hasher, m: Multisig)
    requires WorldOk(w, hash) && BoardOk(m) && StakesOk(m)
    requires m.actions == w.ms.actions && m.transferIndex == w.ms.transferIndex && m.statusIndex == w.ms.statusIndex
    requires m.lastEthBatch == w.ms.lastEthBatch && m.lastEthTx == w.ms.lastEthTx
    requires m.signers == w.ms.signers && w.ms.users <= m.users
    ensures WorldOk(w.(ms := m), hash)
  {
    MoreUsersSameSigners(w.ms, m);
    MultisigStepOk(w, hash, m);
  }

  lemma {:induction false} StakeStepsOk(w: World, hash: Hasher, step: Step)
    requires WorldOk(w, hash) && (step.StakeBy? || step.UnstakeBy? || step.BoardSlash?) && BoardNext(w, step).Some?
    ensures WorldOk(BoardNext(w, step).value, hash)
  {
    match step {
      case StakeBy(caller, amount) =>
        StakeKeepsBooks(w.ms, caller, amount);
        BoardStepOk(w, hash, Stake(w.ms, caller, amount).value);
      case UnstakeBy(caller, amount) =>
        UnstakeKeepsBooks(w.ms, caller, amount);
        BoardStepOk(w, hash, Unstake(w.ms, caller, amount).value);
      case BoardSlash(address) =>
        SlashKeepsBooks(w.ms, address);
        BoardStepOk(w, hash, SlashBoardMember(w.ms, address).value);
    }
  }

  lemma {:induction false} BoardStepsOk(w: World, hash: Hasher, step: Step)
    requires WorldOk(w, hash) && IsBoardStep(step) && BoardNext(w, step).Some?
    ensures WorldOk(BoardNext(w, step).value, hash)
  {
    if step.BoardAdd? {
      AddMemberKeepsBoard(w.ms, step.address);
      BoardStepOk(w, hash, AddBoardMember(w.ms, step.address));
    } else if step.BoardRemove? {
      RemoveUserKeepsBoard(w.ms, step.address);
      BoardStepOk(w, hash, RemoveUser(w.ms, step.address).value);
    } else if step.QuorumChange? {
      BoardStepOk(w, hash, ChangeQuorum(w.ms, step.quorum).value);
    } else if step.MultisigPause? {
      BoardStepOk(w, hash, w.ms.(paused := step.paused));
    } else {
      StakeStepsOk(w, hash, step);
    }
  }

  lemma {:induction false} SignOk(w: World, hash: Hasher, caller: nat, id: nat)
    requires WorldOk(w, hash) && Sign(w.ms, caller, id).Some?
    ensures WorldOk(w.(ms := Sign(w.ms, caller, id).value), hash)
  {
    var m := Sign(w.ms, caller, id).value;
    forall i | Signers(m, i) != {}
      ensures ActionAt(m, i) != Nothing && forall s :: s in Signers(m, i) ==> 1 <= s <= |m.users|
    {
      assert i != id ==> Signers(w.ms, i) != {};
      assert Signers(w.ms, id) != {} ==> forall s :: s in Signers(w.ms, id) ==> 1 <= s <= |m.users|;
    }
    MultisigStepOk(w, hash, m);
  }

  /** A freshly proposed action carries at most its proposer's signature. */
  lemma {:induction false} ProposeSigners(m: Multisig, n: Multisig, caller: nat, action: Action)
    requires SignersOk(m) && BoardOk(m) && ProposeAction(m, caller, action).Some? && action != Nothing
    requires n.actions == ProposeAction(m, caller, action).value.actions
    requires n.signers == ProposeAction(m, caller, action).value.signers && n.users == m.users
    ensures SignersOk(n)
    ensures Signers(n, |n.actions|) <= {UserId(m.users, caller)}
  {
    var newId := |m.actions| + 1;
    assert ActionAt(m, newId) == Nothing && Signers(m, newId) == {};
    forall i | Signers(n, i) != {}
      ensures ActionAt(n, i) != Nothing && forall s :: s in Signers(n, i) ==> 1 <= s <= |n.users|
    {
      if i != newId {
        assert Signers(m, i) == Signers(n, i);
        assert ActionAt(n, i) == ActionAt(m, i);
      }
    }
  }

  lemma {:induction false} ProposeTransferOk(
    w: World, hash: Hasher, caller: nat, batchId: nat, transfers: seq<EthTransaction>)
    requires WorldOk(w, hash) && ProposeTransfer(w.ms, hash, caller, batchId, transfers).Some?
    ensures WorldOk(w.(ms := ProposeTransfer(w.ms, hash, caller, batchId, transfers).value), hash)
  {
    var m := ProposeTransfer(w.ms, hash, caller, batchId, transfers).value;
    ProposeTransferKeepsTable(w.ms, hash, w.safe.queue.first, caller, batchId, transfers);
    ProposeSigners(w.ms, m, caller, TransferBatch(batchId, transfers));
    assert forall id :: ActionAt(m, id).SetBatchStatus? ==> ActionAt(w.ms, id).SetBatchStatus?;
  }

  lemma {:induction false} ProposeStatusOk(
    w: World, hash: Hasher, caller: nat, batchId: nat, statuses: seq<TransactionStatus>)
    requires WorldOk(w, hash) && ProposeStatus(w.ms, caller, batchId, statuses, CurrentBatch(w.safe.queue, w.now)).Some?
    ensures var current := CurrentBatch(w.safe.queue, w.now);
            WorldOk(w.(ms := ProposeStatus(w.ms, caller, batchId, statuses, current).value), hash)
  {
    var m := ProposeStatus(w.ms, caller, batchId, statuses, CurrentBatch(w.safe.queue, w.now)).value;
    var size := CurrentBatch(w.safe.queue, w.now).value.1;
    ProposeStatusKeepsTable(w.ms, hash, w.safe.queue.first, caller, batchId, statuses, size);
    ProposeSigners(w.ms, m, caller, SetBatchStatus(batchId, statuses));
  }

  lemma {:induction false} CloseTransferOk(m: Multisig, hash: Hasher, first: nat, id: nat)
    requires BoardOk(m) && StakesOk(m) && SignersOk(m) && TableOk(m, hash, first)
    requires ActionAt(m, id).TransferBatch? && ActionAt(m, id).transfers != []
    ensures var n := CloseTransfer(m, id, ActionAt(m, id).batchId, ActionAt(m, id).transfers).value;
            && BoardOk(n) && StakesOk(n) && SignersOk(n) && TableOk(n, hash, first)
            && forall i :: ActionAt(n, i).SetBatchStatus? ==> ActionAt(m, i).SetBatchStatus?
  {
    var a := ActionAt(m, id);
    var ids, n := IdsToClear(id, TransferIds(m, a.batchId)), CloseTransfer(m, id, a.batchId, a.transfers).value;
    ClearKeepsSigners(m, ids);
    MoreUsersSameSigners(ClearActions(m, ids), n);
    CloseTransferKeepsTable(m, hash, first, id);
    forall i ensures ActionAt(n, i).SetBatchStatus? ==> ActionAt(m, i).SetBatchStatus? {
      CloseTransferWipes(m, hash, first, id, i);
    }
  }

  lemma {:induction false} TransferStepOk(
    w: World, hash: Hasher, m: Multisig, mt: MultiTransfer, wrapper: Wrapper, swap: Swap)
    requires WorldOk(w, hash) && QueueOk(mt.queue)
    requires BoardOk(m) && StakesOk(m) && SignersOk(m) && TableOk(m, hash, w.safe.queue.first)
    requires forall i :: ActionAt(m, i).SetBatchStatus? ==> ActionAt(w.ms, i).SetBatchStatus?
    ensures WorldOk(w.(ms := m, mt := mt, wrapper := wrapper, swap := swap), hash)
  {
  }

  lemma {:induction false} PerformTransferOk(w: World, hash: Hasher, caller: nat, id: nat, facts: Facts)
    requires WorldOk(w, hash) && PerformAction(w, caller, id, facts).Some? && ActionAt(w.ms, id).TransferBatch?
    ensures WorldOk(PerformAction(w, caller, id, facts).value, hash)
  {
    var a := ActionAt(w.ms, id);
    var d := BatchTransfer(facts, w.now, w.mt, w.wrapper, w.swap, a.transfers).value;
    CloseTransferOk(w.ms, hash, w.safe.queue.first, id);
    AddAllAppends(w.mt.queue, w.now, RefundRecords(w.now, Refused(facts, w.mt, a.transfers)));
    TransferStepOk(w, hash, CloseTransfer(w.ms, id, a.batchId, a.transfers).value, d.mt, d.wrapper, d.swap);
  }

  lemma {:induction false} CloseStatusOk(m: Multisig, hash: Hasher, first: nat, id: nat, next: nat)
    requires BoardOk(m) && StakesOk(m) && SignersOk(m) && TableOk(m, hash, first)
    requires ActionAt(m, id).SetBatchStatus?
    ensures var n := CloseStatus(m, id, ActionAt(m, id).batchId);
            && BoardOk(n) && StakesOk(n) && SignersOk(n) && TableOk(n, hash, next)
            && forall i :: !ActionAt(n, i).SetBatchStatus?
  {
    var batchId := ActionAt(m, id).batchId;
    var ids, n := IdsToClear(id, StatusIds(m, batchId)), CloseStatus(m, id, batchId);
    ClearKeepsSigners(m, ids);
    MoreUsersSameSigners(ClearActions(m, ids), n);
    CloseStatusKeepsTable(m, hash, first, id, next);
    forall i ensures !ActionAt(n, i).SetBatchStatus? {
      CloseStatusWipes(m, hash, first, id, i);
    }
  }

  lemma {:induction false} PerformStatusOk(w: World, hash: Hasher, caller: nat, id: nat, facts: Facts)
    requires WorldOk(w, hash) && PerformAction(w, caller, id, facts).Some? && ActionAt(w.ms, id).SetBatchStatus?
    ensures WorldOk(PerformAction(w, caller, id, facts).value, hash)
  {
    var a := ActionAt(w.ms, id);
    var s := SetStatus(w.safe, a.batchId, a.statuses, facts.burnable).value;
    SetStatusKeepsBooks(w.safe, w.now, a.batchId, a.statuses, facts.burnable);
    CloseStatusOk(w.ms, hash, w.safe.queue.first, id, s.queue.first);
    BothStepOk(w, hash, CloseStatus(w.ms, id, a.batchId), s);
  }

  lemma {:induction false} BothStepOk(w: World, hash: Hasher, m: Multisig, s: Safe)
    requires WorldOk(w, hash) && SafeOk(s, w.now)
    requires BoardOk(m) && StakesOk(m) && SignersOk(m) && TableOk(m, hash, s.queue.first)
    requires forall i :: !ActionAt(m, i).SetBatchStatus?
    ensures WorldOk(w.(ms := m, safe := s), hash)
  {
  }

  lemma {:induction false} CreateOk(
    w: World, hash: Hasher, prices: map<Token, nat>, caller: nat, to: nat, paid: Payment)
    requires WorldOk(w, hash) && Create(w.safe, w.now, prices, caller, to, paid).Some?
    ensures WorldOk(w.(safe := Create(w.safe, w.now, prices, caller, to, paid).value), hash)
  {
    CreateKeepsBooks(w.safe, w.now, prices, caller, to, paid);
    SafeStepOk(w, hash, Create(w.safe, w.now, prices, caller, to, paid).value);
  }

  lemma {:induction false} MoveRefundsOk(w: World, hash: Hasher, facts: Facts)
    requires WorldOk(w, hash)
    ensures WorldOk(MoveRefundBatch(w, facts), hash)
  {
    var s := AddRefundBatch(w.safe, w.now, facts.prices, FirstRefunds(w));
    AddRefundsOk(w, hash, facts, FirstRefunds(w));
    ClearFirstDrops(w.mt.queue);
    assert MoveRefundBatch(w, facts) == w || MoveRefundBatch(w, facts).(mt := w.mt) == w.(safe := s);
  }

  lemma {:induction false} RefundsGrowFirst(s: Safe, now: nat, prices: map<Token, nat>, txs: seq<Transaction>)
    ensures var q, p := s.queue, AddRefundBatch(s, now, prices, txs).queue;
            p.first == q.first && Batch(q, q.first) <= Batch(p, p.first)
  {
    var made := RefundTxs(s, now, prices, txs);
    AddAllGrowsFirst(s.queue.(lastNonce := s.queue.lastNonce + |made|), now, made);
  }

  lemma {:induction false} AddRefundsOk(w: World, hash: Hasher, facts: Facts, txs: seq<Transaction>)
    requires WorldOk(w, hash)
    ensures WorldOk(w.(safe := AddRefundBatch(w.safe, w.now, facts.prices, txs)), hash)
  {
    AddRefundsKeepsBooks(w.safe, w.now, facts.prices, txs);
    RefundsGrowFirst(w.safe, w.now, facts.prices, txs);
    SafeStepOk(w, hash, AddRefundBatch(w.safe, w.now, facts.prices, txs));
  }

  /** New limits touch neither the batches nor the books. */
  lemma {:induction false} LimitsKeepSafe(s: Safe, r: Safe, now: nat)
    requires SafeOk(s, now) && r.queue.maxSize > 0 && r.queue.maxDuration > 0
    requires r == s.(queue := s.queue.(maxSize := r.queue.maxSize, maxDuration := r.queue.maxDuration))
    ensures SafeOk(r, now) && Waiting(r.queue) == Waiting(s.queue)
  {
    assert forall id :: Batch(r.queue, id) == Batch(s.queue, id);
    ConcatSame(s.queue, r.queue, s.queue.first, s.queue.last + 1);
    forall t: Token ensures Get(r.balance, t) == Locked(Waiting(r.queue), t) + Owed(r, t) {
      assert Owed(r, t) == Owed(s, t);
    }
  }

  lemma {:induction false} LimitsOk(w: World, hash: Hasher, maxSize: nat, maxDuration: nat)
    requires WorldOk(w, hash) && maxSize > 0 && maxDuration > 0
    ensures var s := w.safe.(queue := Limited(w.safe.queue, maxSize, maxDuration).value);
            WorldOk(w.(safe := s), hash) && Waiting(s.queue) == Waiting(w.safe.queue)
  {
    var s := w.safe.(queue := Limited(w.safe.queue, maxSize, maxDuration).value);
    LimitsKeepSafe(w.safe, s, w.now);
    SafeStepOk(w, hash, s);
  }

  lemma {:induction false} SettingsOk(w: World, hash: Hasher, settings: Safe)
    requires WorldOk(w, hash)
    ensures WorldOk(w.(safe := Configured(w.safe, settings)), hash)
  {
    var s := Configured(w.safe, settings);
    forall t: Token ensures Get(s.balance, t) == Locked(Waiting(s.queue), t) + Owed(s, t) {
      assert Owed(s, t) == Owed(w.safe, t);
    }
    SafeStepOk(w, hash, s);
  }

  lemma {:induction false} TickOk(w: World, hash: Hasher, blocks: nat)
    requires WorldOk(w, hash)
    ensures WorldOk(w.(now := w.now + blocks), hash)
  {
  }

  lemma {:induction false} DepositOk(w: World, hash: Hasher, caller: nat, to: nat, paid: Payment, facts: Facts)
    requires WorldOk(w, hash) && Deposit(w, caller, to, paid, facts).Some?
    ensures WorldOk(Deposit(w, caller, to, paid, facts).value, hash)
  {
    var out := DepositSwap(w, paid).value.2;
    CreateOk(w, hash, facts.prices, caller, to, out);
  }

  lemma {:induction false} LimitsKeepQueue(q: Queue, maxSize: nat, maxDuration: nat)
    requires QueueOk(q) && maxSize > 0 && maxDuration > 0
    ensures QueueOk(Limited(q, maxSize, maxDuration).value)
  {
    var p := Limited(q, maxSize, maxDuration).value;
    assert forall id :: Batch(p, id) == Batch(q, id);
  }

  lemma {:induction false} ActionStepsOk(w: World, hash: Hasher, step: Step)
    requires WorldOk(w, hash) && IsActionStep(step) && ActionNext(w, hash, step).Some?
    ensures WorldOk(ActionNext(w, hash, step).value, hash)
  {
    match step {
      case ProposeStatusBy(caller, batchId, statuses) => ProposeStatusOk(w, hash, caller, batchId, statuses);
      case ProposeTransferBy(caller, batchId, transfers) => ProposeTransferOk(w, hash, caller, batchId, transfers);
      case SignBy(caller, id) => SignOk(w, hash, caller, id);
      case PerformBy(caller, id, facts) =>
        if ActionAt(w.ms, id).TransferBatch? {
          PerformTransferOk(w, hash, caller, id, facts);
        } else {
          PerformStatusOk(w, hash, caller, id, facts);
        }
    }
  }

  lemma {:induction false} SafeStepsOk(w: World, hash: Hasher, step: Step)
    requires WorldOk(w, hash) && IsSafeStep(step) && SafeNext(w, step).Some?
    ensures WorldOk(SafeNext(w, step).value, hash)
  {
    match step {
      case MoveRefunds(facts) => MoveRefundsOk(w, hash, facts);
      case ShareFees(shares, facts) =>
        DistributionIsFunded(w.safe, w.now, shares);
        SafeStepOk(w, hash, Distribute(w.safe, shares).value);
      case SafeLimits(maxSize, maxDuration) => LimitsOk(w, hash, maxSize, maxDuration);
      case SafeSettings(settings) => SettingsOk(w, hash, settings);
      case CreateBy(caller, to, paid, facts) => CreateOk(w, hash, facts.prices, caller, to, paid);
      case ClaimBy(caller, token) =>
        ClaimIsFunded(w.safe, w.now, caller, token);
        SafeStepOk(w, hash, Claim(w.safe, caller, token).value);
      case DepositBy(caller, to, paid, facts) => DepositOk(w, hash, caller, to, paid, facts);
    }
  }

  /** The wrapper, the swap and the delivery settings: nothing the invariant reads. */
  lemma {:induction false} TokenStepsOk(w: World, hash: Hasher, step: Step)
    requires WorldOk(w, hash) && IsTokenStep(step) && TokenNext(w, step).Some?
    ensures WorldOk(TokenNext(w, step).value, hash)
  {
    if step.RefundLimits? {
      LimitsKeepQueue(w.mt.queue, step.maxSize, step.maxDuration);
    } else if step.Tick? {
      TickOk(w, hash, step.blocks);
    }
  }

  /** The one theorem behind all the others: whatever is called, by whomever, the invariant stays. */
  lemma {:induction false} StepOk(w: World, hash: Hasher, step: Step)
    requires WorldOk(w, hash)
    ensures WorldOk(Apply(w, hash, step), hash)
  {
    if Next(w, hash, step).Some? {
      if IsBoardStep(step) {
        BoardStepsOk(w, hash, step);
      } else if IsActionStep(step) {
        ActionStepsOk(w, hash, step);
      } else if IsSafeStep(step) {
        SafeStepsOk(w, hash, step);
      } else {
        TokenStepsOk(w, hash, step);
      }
    }
  }

  lemma {:induction false} RunOk(w: World, hash: Hasher, steps: seq<Step>)
    requires WorldOk(w, hash)
    ensures WorldOk(Run(w, hash, steps), hash)
  {
    if steps != [] {
      RunOk(w, hash, steps[..|steps| - 1]);
      StepOk(Run(w, hash, steps[..|steps| - 1]), hash, steps[|steps| - 1]);
    }
  }
}
