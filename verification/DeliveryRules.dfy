/** Which transfers a delivery pays and which it puts aside, said in the fields of the transfer and of the settings. */
module DeliveryRules {
  import opened Collections
  import opened Transactions
  import opened BatchQueue
  import opened TokenWrapper
  import opened Delivery
  import opened MultisigTable
  import opened Bridge
  import opened BridgeRuns

  /** The transfer can be paid: a real account that is no contract and not frozen, a token that can be minted, and an
      amount within the limit of that token, zero meaning no limit. */
  predicate Passes(f: Facts, mt: MultiTransfer, tx: EthTransaction) {
    && tx.to != 0 && tx.to !in f.contracts && tx.token in f.mintable && (tx.to, tx.token) !in f.frozen
    && (tx.token in mt.maxAmount && mt.maxAmount[tx.token] > 0 ==> tx.amount <= mt.maxAmount[tx.token])
  }

  /** The transfers that pass, or that fail, in the order of the batch. */
  ghost function Sorted(f: Facts, mt: MultiTransfer, txs: seq<EthTransaction>, pass: bool): seq<EthTransaction> {
    if txs == [] then []
    else
      var before, tx := Sorted(f, mt, txs[..|txs| - 1], pass), txs[|txs| - 1];
      if Passes(f, mt, tx) == pass then before + [tx] else before
  }

  lemma {:induction false} SortedIs(f: Facts, mt: MultiTransfer, txs: seq<EthTransaction>)
    ensures Accepted(f, mt, txs) == Sorted(f, mt, txs, true)
    ensures Refused(f, mt, txs) == Sorted(f, mt, txs, false)
  {
    if txs != [] {
      SortedIs(f, mt, txs[..|txs| - 1]);
      assert MustRefund(f, mt, txs[|txs| - 1]) <==> !Passes(f, mt, txs[|txs| - 1]);
    }
  }

  /** What reaches the destination of a transfer: the amount itself, or, for a mapped token, its conversion. */
  ghost predicate Arrives(mt: MultiTransfer, w: Wrapper, tx: EthTransaction, amount: nat) {
    if mt.hasWrapper && tx.token in w.universalOf
    then IsConverted(tx.amount, Get(w.decimals, tx.token), Get(w.decimals, w.universalOf[tx.token]), amount)
    else amount == tx.amount
  }

  lemma {:induction false} DueArrives(mt: MultiTransfer, w: Wrapper, tx: EthTransaction)
    requires Due(mt, w, tx).Some?
    ensures Arrives(mt, w, tx, Due(mt, w, tx).value.amount)
  {
    if mt.hasWrapper && tx.token in w.universalOf {
      ConversionExact(tx.amount, Get(w.decimals, tx.token), Get(w.decimals, w.universalOf[tx.token]));
    }
  }

  /** The record of a failed transfer: from its Ethereum sender to the MultiversX account it did not reach. */
  predicate IsRecord(r: Transaction, now: nat, tx: EthTransaction) {
    && r.from == Eth(tx.from) && r.to == Mvx(tx.to) && r.token == tx.token && r.amount == tx.amount
    && r.nonce == tx.nonce && r.blockNonce == now && r.serviceFee == 0 && r.isRefund
  }

  /** In a successful delivery exactly the transfers that pass are paid, in the order of the batch, each to its own
      destination in the base token and in its converted amount. */
  lemma {:induction false} PaidByRule(
    f: Facts, now: nat, mt: MultiTransfer, w: Wrapper, s: Swap, txs: seq<EthTransaction>)
    requires QueueOk(mt.queue) && BatchTransfer(f, now, mt, w, s, txs).Some?
    ensures var payouts, passing := BatchTransfer(f, now, mt, w, s, txs).value.payouts, Sorted(f, mt, txs, true);
            && |payouts| == |passing|
            && forall i :: 0 <= i < |passing| ==>
                 && payouts[i].to == passing[i].to && payouts[i].token == s.esdt
                 && Arrives(mt, w, passing[i], payouts[i].amount)
  {
    SortedIs(f, mt, txs);
    DeliveryPartition(f, now, mt, w, s, txs);
    var passing := Sorted(f, mt, txs, true);
    forall i | 0 <= i < |passing| && Payable(mt, w, s, passing[i])
      ensures Arrives(mt, w, passing[i], Due(mt, w, passing[i]).value.amount)
    {
      DueArrives(mt, w, passing[i]);
    }
  }

  /** Exactly the others are queued for refund, in the order of the batch. */
  lemma {:induction false} QueuedByRule(
    f: Facts, now: nat, mt: MultiTransfer, w: Wrapper, s: Swap, txs: seq<EthTransaction>)
    requires QueueOk(mt.queue) && BatchTransfer(f, now, mt, w, s, txs).Some?
    ensures var before, after := Waiting(mt.queue), Waiting(BatchTransfer(f, now, mt, w, s, txs).value.mt.queue);
            var failing := Sorted(f, mt, txs, false);
            && |after| == |before| + |failing| && after[..|before|] == before
            && forall i :: 0 <= i < |failing| ==> IsRecord(after[|before| + i], now, failing[i])
  {
    SortedIs(f, mt, txs);
    DeliveryPartition(f, now, mt, w, s, txs);
  }

  /** Whether one transfer of the batch is among the paid or among the queued. */
  lemma {:induction false} SortedMembers(f: Facts, mt: MultiTransfer, txs: seq<EthTransaction>, tx: EthTransaction)
    ensures tx in Sorted(f, mt, txs, true) <==> tx in txs && Passes(f, mt, tx)
    ensures tx in Sorted(f, mt, txs, false) <==> tx in txs && !Passes(f, mt, tx)
  {
    if txs != [] {
      var n := |txs| - 1;
      SortedMembers(f, mt, txs[..n], tx);
      assert txs == txs[..n] + [txs[n]];
    }
  }

  // ----- Over runs -----

  datatype Failure = Failure(tx: EthTransaction, now: nat)

  /** The transfers that a call fails to deliver. */
  ghost function FailedNow(w: World, step: Step): seq<Failure> {
    var a := PerformedAction(w, step);
    if a.TransferBatch? then
      var failing := Sorted(step.facts, w.mt, a.transfers, false);
      seq(|failing|, i requires 0 <= i < |failing| => Failure(failing[i], w.now))
    else []
  }

  ghost predicate AreRecords(records: seq<Transaction>, failures: seq<Failure>) {
    |records| == |failures| && forall i :: 0 <= i < |records| ==> IsRecord(records[i], failures[i].now, failures[i].tx)
  }

  lemma {:induction false} RecordsNow(w: World, step: Step)
    ensures AreRecords(RefusedNow(w, step), FailedNow(w, step))
  {
    var a := PerformedAction(w, step);
    if a.TransferBatch? {
      SortedIs(step.facts, w.mt, a.transfers);
    }
  }

  /** Over any run the transfers put aside for refund are, in order, the records of those that failed the rule when
      their batch was executed. */
  lemma {:induction false} RefusedByRule(w: World, hash: Hasher, steps: seq<Step>)
    ensures AreRecords(Collect(w, hash, steps, RefusedNow), Collect(w, hash, steps, FailedNow))
  {
    if steps != [] {
      var n := |steps| - 1;
      RefusedByRule(w, hash, steps[..n]);
      RecordsNow(Run(w, hash, steps[..n]), steps[n]);
    }
  }
}
