/** When an action with a quorum does go through, in both directions, and what follows if it cannot. */
module Performing {
  import opened Transactions
  import opened BatchQueue
  import opened SafeLedger
  import opened Delivery
  import opened MultisigTable
  import opened Bridge
  import opened ActionTable
  import opened BridgeInvariant
  import opened BridgeRuns

  /** A status action with the right length and legal statuses goes through as soon as a board member performs it
      with a quorum: no state of the books can stop it. */
  lemma {:induction false} StatusActionPerforms(w: World, hash: Hasher, caller: nat, id: nat, facts: Facts)
    requires WorldOk(w, hash) && MayPerform(w.ms, caller, id) && ActionAt(w.ms, id).SetBatchStatus?
    ensures PerformAction(w, caller, id, facts).Some? <==>
            StatusesFit(Batch(w.safe.queue, w.safe.queue.first), ActionAt(w.ms, id).statuses)
  {
    assert ActionOk(w.ms, hash, w.safe.queue.first, id);
    SettlementIsFunded(w.safe, w.now, w.safe.queue.first, ActionAt(w.ms, id).statuses, facts.burnable);
  }

  /** A transfer action with a quorum goes through if and only if it has transfers and they can all be delivered: the
      wrapper runs, the swap is known, every accepted transfer becomes a positive amount of WESDT, and the swap's pot
      covers them all. */
  lemma {:induction false} TransferActionPerforms(w: World, caller: nat, id: nat, facts: Facts)
    requires MayPerform(w.ms, caller, id) && ActionAt(w.ms, id).TransferBatch?
    ensures PerformAction(w, caller, id, facts).Some? <==>
            var transfers := ActionAt(w.ms, id).transfers;
            transfers != [] && Deliverable(facts, w.mt, w.wrapper, w.swap, transfers)
  {
    DeliveryIff(facts, w.now, w.mt, w.wrapper, w.swap, ActionAt(w.ms, id).transfers);
  }

  /** A batch without transfers passes every check on proposing that any batch passes, and never performs. */
  lemma {:induction false} EmptyBatchOnlyProposes(
    w: World, hash: Hasher, proposer: nat, caller: nat, id: nat, facts: Facts)
    ensures ProposeTransfer(w.ms, hash, proposer, w.ms.lastEthBatch + 1, []).Some? <==>
            IsBoardMember(w.ms, proposer) && !w.ms.paused && hash([]) !in TransferIds(w.ms, w.ms.lastEthBatch + 1)
    ensures ActionAt(w.ms, id).TransferBatch? && ActionAt(w.ms, id).transfers == [] ==>
            PerformAction(w, caller, id, facts).None?
  {
  }

  /** The chain accepts the transfer, but it cannot be paid out. */
  predicate Unpayable(w: World, facts: Facts, tx: EthTransaction) {
    !MustRefund(facts, w.mt, tx) && !Payable(w.mt, w.wrapper, w.swap, tx)
  }

  /** One such transfer makes the whole batch fail. */
  lemma {:induction false} OneUnpayableFails(w: World, caller: nat, id: nat, facts: Facts, tx: EthTransaction)
    requires ActionAt(w.ms, id).TransferBatch? && tx in ActionAt(w.ms, id).transfers && Unpayable(w, facts, tx)
    ensures PerformAction(w, caller, id, facts).None?
  {
    var transfers := ActionAt(w.ms, id).transfers;
    AcceptedIff(facts, w.mt, transfers, tx);
    DeliveryIff(facts, w.now, w.mt, w.wrapper, w.swap, transfers);
  }

  /** A multisig that has done nothing yet, and in which one staked signature is a quorum. */
  ghost predicate FreshMultisig(m: Multisig, caller: nat) {
    && m.actions == [] && m.signers == map[] && m.transferIndex == map[] && m.statusIndex == map[] && m.staked == map[]
    && m.lastEthBatch == 0 && m.lastEthTx == 0
    && caller in m.users && m.board == FirstIds(|m.users|)
    && !m.paused && m.quorum <= 1 && m.requiredStake == 0
  }

  lemma {:induction false} ProposerIsQuorum(m: Multisig, caller: nat, action: Action)
    requires FreshMultisig(m, caller) && action != Nothing
    ensures var r := ProposeAction(m, caller, action);
            r.Some? && MayPerform(r.value, caller, 1) && ActionAt(r.value, 1) == action
  {
    var r := ProposeAction(m, caller, action).value;
    var signer := UserId(m.users, caller);
    assert Signers(r, 1) == {signer};
    assert ValidSigners(r, 1) == {signer};
  }

  /** What may be performed depends on the actions, the signatures and the board alone. */
  lemma {:induction false} IndexDoesNotMatter(m: Multisig, n: Multisig, caller: nat, id: nat)
    requires n == m.(transferIndex := n.transferIndex, statusIndex := n.statusIndex)
    ensures MayPerform(n, caller, id) <==> MayPerform(m, caller, id)
    ensures ActionAt(n, id) == ActionAt(m, id)
  {
    assert ValidSigners(n, id) == ValidSigners(m, id);
  }

  /** A hundred units of token 5 for account 4. */
  const SampleTransfer: EthTransaction := EthTransaction(3, 4, 5, 100, 1)

  lemma {:induction false} SampleIsProposed(w: World, hash: Hasher, caller: nat)
    requires FreshMultisig(w.ms, caller)
    ensures var r := Apply(w, hash, ProposeTransferBy(caller, 1, [SampleTransfer]));
            && r == w.(ms := r.ms)
            && MayPerform(r.ms, caller, 1) && ActionAt(r.ms, 1) == TransferBatch(1, [SampleTransfer])
  {
    var action := TransferBatch(1, [SampleTransfer]);
    ProposerIsQuorum(w.ms, caller, action);
    var m := ProposeAction(w.ms, caller, action).value;
    IndexDoesNotMatter(m, ProposeTransfer(w.ms, hash, caller, 1, [SampleTransfer]).value, caller, 1);
  }

  /** From deployment: the batch is proposed with a quorum at once, yet performing it is refused, because its token can
      be minted but nobody mapped it to a universal token. */
  lemma {:induction false} UnmappedTokenFails(w: World, hash: Hasher, caller: nat, facts: Facts)
    requires Initial(w) && FreshMultisig(w.ms, caller)
    requires facts.contracts == {} && 5 in facts.mintable && facts.frozen == {} && w.mt.maxAmount == map[]
    requires w.mt.hasWrapper && 5 !in w.wrapper.universalOf && w.swap.wesdt != 5
    ensures var r := Run(w, hash, [ProposeTransferBy(caller, 1, [SampleTransfer])]);
            MayPerform(r.ms, caller, 1) && Next(r, hash, PerformBy(caller, 1, facts)).None?
  {
    var propose := ProposeTransferBy(caller, 1, [SampleTransfer]);
    RunSnoc(w, hash, [], propose);
    assert [] + [propose] == [propose];
    SampleIsProposed(w, hash, caller);
    OneUnpayableFails(Apply(w, hash, propose), caller, 1, facts, SampleTransfer);
  }

  // ----- What follows: batches execute strictly in order, so one such transfer stops them all -----

  /** Every pending proposal for the next Ethereum batch contains `tx`. */
  ghost predicate AllContain(m: Multisig, tx: EthTransaction) {
    forall id :: ActionAt(m, id).TransferBatch? ==> tx in ActionAt(m, id).transfers
  }

  /** Whoever proposes includes `tx`, and whenever someone performs a transfer action, `tx` is accepted and cannot be
      paid out. */
  ghost predicate Stuck(w: World, step: Step, tx: EthTransaction) {
    && (step.ProposeTransferBy? ==> tx in step.transfers)
    && (step.PerformBy? && ActionAt(w.ms, step.id).TransferBatch? ==> Unpayable(w, step.facts, tx))
  }

  ghost function StuckOn(tx: EthTransaction): (World, Step) -> bool {
    (w: World, step: Step) => Stuck(w, step, tx)
  }

  lemma {:induction false} PerformKeepsActions(w: World, hash: Hasher, step: Step, id: nat)
    requires WorldOk(w, hash) && step.PerformBy? && PerformAction(w, step.caller, step.id, step.facts).Some?
    ensures var a := ActionAt(PerformAction(w, step.caller, step.id, step.facts).value.ms, id);
            a == Nothing || a == ActionAt(w.ms, id)
  {
    if ActionAt(w.ms, step.id).TransferBatch? {
      CloseTransferWipes(w.ms, hash, w.safe.queue.first, step.id, id);
    } else {
      CloseStatusWipes(w.ms, hash, w.safe.queue.first, step.id, id);
    }
  }

  lemma {:induction false} NewTransfers(w: World, hash: Hasher, step: Step, id: nat)
    requires WorldOk(w, hash) && Next(w, hash, step).Some?
    requires ActionAt(Next(w, hash, step).value.ms, id).TransferBatch?
    ensures var a := ActionAt(Next(w, hash, step).value.ms, id);
            ActionAt(w.ms, id) == a || (step.ProposeTransferBy? && a.transfers == step.transfers)
  {
    if step.PerformBy? {
      PerformKeepsActions(w, hash, step, id);
    } else if !IsActionStep(step) {
      OtherEffect(w, hash, step);
    }
  }

  lemma {:induction false} StuckStep(w: World, hash: Hasher, step: Step, tx: EthTransaction)
    requires WorldOk(w, hash) && AllContain(w.ms, tx) && Stuck(w, step, tx) && Next(w, hash, step).Some?
    ensures AllContain(Next(w, hash, step).value.ms, tx)
    ensures Next(w, hash, step).value.ms.lastEthBatch == w.ms.lastEthBatch
  {
    if PerformedAction(w, step).TransferBatch? {
      OneUnpayableFails(w, step.caller, step.id, step.facts, tx);
      assert false;
    }
    CountersEffect(w, hash, step);
    var r := Next(w, hash, step).value;
    forall id | ActionAt(r.ms, id).TransferBatch? ensures tx in ActionAt(r.ms, id).transfers {
      NewTransfers(w, hash, step, id);
    }
  }

  /** As long as a transfer of the next Ethereum batch is accepted and cannot be paid out, no Ethereum batch is executed
      in any run in which the relayers propose that batch. */
  lemma {:induction false} UnpayableTransferStops(w: World, hash: Hasher, steps: seq<Step>, tx: EthTransaction)
    requires WorldOk(w, hash) && AllContain(w.ms, tx) && Along(w, hash, steps, StuckOn(tx))
    ensures var r := Run(w, hash, steps); AllContain(r.ms, tx) && r.ms.lastEthBatch == w.ms.lastEthBatch
  {
    if steps != [] {
      var n := |steps| - 1;
      var u := Run(w, hash, steps[..n]);
      AlongInit(w, hash, steps, StuckOn(tx));
      UnpayableTransferStops(w, hash, steps[..n], tx);
      RunOk(w, hash, steps[..n]);
      if Next(u, hash, steps[n]).Some? {
        StuckStep(u, hash, steps[n], tx);
      }
    }
  }
}
