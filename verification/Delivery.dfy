/** Delivering Ethereum -> MultiversX transfers (rs/multi-transfer-esdt), as functions on values. */
module Delivery {
  import opened Collections
  import opened Transactions
  import opened BatchQueue
  import opened SafeLedger
  import opened TokenWrapper

  /** What the chain answers during one call. */
  datatype Facts = Facts(
    contracts: set<nat>, mintable: set<Token>, burnable: set<Token>, frozen: set<(nat, Token)>,
    prices: map<Token, nat>)

  /** `minted` records the chain tokens minted for accepted transfers. */
  datatype MultiTransfer = MultiTransfer(
    queue: Queue, maxAmount: map<Token, nat>, hasWrapper: bool, hasSwap: bool, minted: map<Token, nat>)

  datatype Payout = Payout(to: nat, token: Token, amount: nat)

  datatype Delivered = Delivered(mt: MultiTransfer, wrapper: Wrapper, swap: Swap, payouts: seq<Payout>)

  const ZERO_ADDRESS: nat := 0

  predicate MustRefund(f: Facts, mt: MultiTransfer, tx: EthTransaction) {
    || tx.to == ZERO_ADDRESS || tx.to in f.contracts
    || tx.token !in f.mintable
    || AboveMaxAmount(mt.maxAmount, tx.token, tx.amount)
    || (tx.to, tx.token) in f.frozen
  }

  function Accepted(f: Facts, mt: MultiTransfer, txs: seq<EthTransaction>): seq<EthTransaction> {
    if txs == [] then []
    else
      var before, tx := Accepted(f, mt, txs[..|txs| - 1]), txs[|txs| - 1];
      if MustRefund(f, mt, tx) then before else before + [tx]
  }

  function Refused(f: Facts, mt: MultiTransfer, txs: seq<EthTransaction>): seq<EthTransaction> {
    if txs == [] then []
    else
      var before, tx := Refused(f, mt, txs[..|txs| - 1]), txs[|txs| - 1];
      if MustRefund(f, mt, tx) then before + [tx] else before
  }

  function ConvertToRefundTx(now: nat, tx: EthTransaction): Transaction {
    Transaction(now, tx.nonce, Eth(tx.from), Mvx(tx.to), tx.token, tx.amount, 0, true)
  }

  function RefundRecords(now: nat, txs: seq<EthTransaction>): seq<Transaction> {
    seq(|txs|, i requires 0 <= i < |txs| => ConvertToRefundTx(now, txs[i]))
  }

  function PaymentsOf(txs: seq<EthTransaction>): seq<Payment> {
    seq(|txs|, i requires 0 <= i < |txs| => Payment(txs[i].token, txs[i].amount))
  }

  function DestinationsOf(txs: seq<EthTransaction>): seq<nat> {
    seq(|txs|, i requires 0 <= i < |txs| => txs[i].to)
  }

  function MintAll(minted: map<Token, nat>, txs: seq<EthTransaction>): map<Token, nat> {
    if txs == [] then minted
    else Credit(MintAll(minted, txs[..|txs| - 1]), txs[|txs| - 1].token, txs[|txs| - 1].amount)
  }

  /** Each payment is swapped to the base token and sent to the destination with the same index. */
  function PayAll(mt: MultiTransfer, s: Swap, dests: seq<nat>, payments: seq<Payment>): Option<(Swap, seq<Payout>)>
    requires |dests| == |payments|
  {
    if dests == [] then Some((s, []))
    else
      var n := |dests| - 1;
      var before := PayAll(mt, s, dests[..n], payments[..n]);
      if before.None? || !mt.hasSwap then None
      else
        var paid := SwapUnwrap(before.value.0, payments[n]);
        if paid.None? then None
        else Some((paid.value, before.value.1 + [Payout(dests[n], s.esdt, payments[n].amount)]))
  }

  function Wrapped(mt: MultiTransfer, w: Wrapper, payments: seq<Payment>): (r: Option<(Wrapper, seq<Payment>)>)
    ensures r.Some? ==> |r.value.1| == |payments|
  {
    if mt.hasWrapper then WrapTokens(w, payments) else Some((w, payments))
  }

  function BatchTransfer(f: Facts, now: nat, mt: MultiTransfer, w: Wrapper, s: Swap, txs: seq<EthTransaction>)
    : Option<Delivered>
  {
    var accepted := Accepted(f, mt, txs);
    var wrapped := Wrapped(mt, w, PaymentsOf(accepted));
    if wrapped.None? then None
    else
      var paid := PayAll(mt, s, DestinationsOf(accepted), wrapped.value.1);
      if paid.None? then None
      else
        Some(Delivered(
          mt.(minted := MintAll(mt.minted, accepted),
              queue := AddAll(mt.queue, now, RefundRecords(now, Refused(f, mt, txs)))),
          wrapped.value.0, paid.value.0, paid.value.1))
  }

  // ----- Laws -----

  /** No transfer is lost or handled twice. */
  lemma {:induction false} EachTransferOnce(f: Facts, mt: MultiTransfer, txs: seq<EthTransaction>)
    ensures multiset(Accepted(f, mt, txs)) + multiset(Refused(f, mt, txs)) == multiset(txs)
    ensures forall tx :: tx in Accepted(f, mt, txs) ==> !MustRefund(f, mt, tx)
    ensures forall tx :: tx in Refused(f, mt, txs) ==> MustRefund(f, mt, tx)
  {
    if txs != [] {
      var n := |txs| - 1;
      EachTransferOnce(f, mt, txs[..n]);
      assert txs == txs[..n] + [txs[n]];
    }
  }

  lemma {:induction false} AcceptedIff(f: Facts, mt: MultiTransfer, txs: seq<EthTransaction>, tx: EthTransaction)
    ensures tx in Accepted(f, mt, txs) <==> tx in txs && !MustRefund(f, mt, tx)
  {
    EachTransferOnce(f, mt, txs);
    assert tx in multiset(txs) <==> tx in multiset(Accepted(f, mt, txs)) + multiset(Refused(f, mt, txs));
  }

  /** Minted tokens per token: the sum of the accepted amounts. */
  ghost function AmountOf(txs: seq<EthTransaction>, token: Token): nat {
    if txs == [] then 0
    else AmountOf(txs[..|txs| - 1], token) +
         (if txs[|txs| - 1].token == token then txs[|txs| - 1].amount else 0)
  }

  lemma {:induction false} MintedIsAccepted(minted: map<Token, nat>, txs: seq<EthTransaction>, token: Token)
    ensures Get(MintAll(minted, txs), token) == Get(minted, token) + AmountOf(txs, token)
  {
    if txs != [] {
      MintedIsAccepted(minted, txs[..|txs| - 1], token);
    }
  }

  /** What a payment is after wrapping. */
  function WrappedPayment(w: Wrapper, p: Payment): Option<Payment> {
    var amount := WrappedAmount(w, p);
    if amount.None? then None
    else Some(Payment(if p.token in w.universalOf then w.universalOf[p.token] else p.token, amount.value))
  }

  /** Wrapping works if and only if it works for every payment, and keeps them in place: payment i becomes what it is
      worth on its own. */
  lemma {:induction false} WrapAllAligned(w: Wrapper, payments: seq<Payment>)
    ensures WrapAll(w, payments).Some? <==>
            forall i :: 0 <= i < |payments| ==> WrappedPayment(w, payments[i]).Some?
    ensures WrapAll(w, payments).Some? ==>
            && SameConfig(w, WrapAll(w, payments).value.0)
            && forall i :: 0 <= i < |payments| ==>
                 Some(WrapAll(w, payments).value.1[i]) == WrappedPayment(w, payments[i])
  {
    if payments != [] {
      var n := |payments| - 1;
      WrapAllAligned(w, payments[..n]);
      if WrapAll(w, payments[..n]).Some? {
        var v := WrapAll(w, payments[..n]).value.0;
        assert WrappedPayment(v, payments[n]) == WrappedPayment(w, payments[n]);
      } else {
        var i :| 0 <= i < n && WrappedPayment(w, payments[..n][i]).None?;
        assert WrappedPayment(w, payments[i]).None?;
      }
    }
  }

  ghost function AmountSum(payments: seq<Payment>): nat {
    if payments == [] then 0 else AmountSum(payments[..|payments| - 1]) + payments[|payments| - 1].amount
  }

  ghost predicate Swappable(s: Swap, p: Payment) {
    p.token == s.wesdt && p.amount > 0
  }

  /** Paying out works if and only if the swap is known and may burn, every payment is a positive amount of WESDT and
      the pot covers them all; each destination then gets the base token, in the amount of the payment at its index. */
  lemma {:induction false} PayAllAligned(mt: MultiTransfer, s: Swap, dests: seq<nat>, payments: seq<Payment>)
    requires |dests| == |payments|
    ensures PayAll(mt, s, dests, payments).Some? <==>
            && (dests != [] ==> mt.hasSwap && s.mayBurn)
            && (forall i :: 0 <= i < |payments| ==> Swappable(s, payments[i]))
            && AmountSum(payments) <= s.locked
    ensures PayAll(mt, s, dests, payments).Some? ==>
            var (t, payouts) := PayAll(mt, s, dests, payments).value;
            && |payouts| == |dests|
            && (forall i :: 0 <= i < |dests| ==> payouts[i] == Payout(dests[i], s.esdt, payments[i].amount))
            && t == s.(locked := s.locked - AmountSum(payments), issued := s.issued - AmountSum(payments))
  {
    if dests != [] {
      var n := |dests| - 1;
      PayAllAligned(mt, s, dests[..n], payments[..n]);
      if PayAll(mt, s, dests[..n], payments[..n]).None? && mt.hasSwap && s.mayBurn
         && AmountSum(payments[..n]) <= s.locked {
        var i :| 0 <= i < n && !Swappable(s, payments[..n][i]);
        assert !Swappable(s, payments[i]);
      }
    }
  }

  /** What an accepted transfer turns into before the swap; None: it makes the call fail. */
  function Due(mt: MultiTransfer, w: Wrapper, tx: EthTransaction): Option<Payment> {
    var p := Payment(tx.token, tx.amount);
    if mt.hasWrapper then WrappedPayment(w, p) else Some(p)
  }

  /** Exactly the mapped tokens whose decimals are missing or too far apart, or whose universal token cannot be minted,
      have no due payment. */
  lemma {:induction false} DueExists(mt: MultiTransfer, w: Wrapper, tx: EthTransaction)
    ensures Due(mt, w, tx).Some? <==>
            mt.hasWrapper && tx.token in w.universalOf ==>
              var from, to := Get(w.decimals, tx.token), Get(w.decimals, w.universalOf[tx.token]);
              && from != 0 && to != 0 && from <= to + 19 && to <= from + 19
              && w.universalOf[tx.token] in w.mintRoles
  {
    if tx.token in w.universalOf {
      ConversionLimit(tx.amount, Get(w.decimals, tx.token), Get(w.decimals, w.universalOf[tx.token]));
    }
  }

  /** An accepted transfer that can be paid out: it becomes a positive amount of WESDT. */
  predicate Payable(mt: MultiTransfer, w: Wrapper, s: Swap, tx: EthTransaction) {
    Due(mt, w, tx).Some? && Due(mt, w, tx).value.token == s.wesdt && Due(mt, w, tx).value.amount > 0
  }

  ghost function DueSum(mt: MultiTransfer, w: Wrapper, txs: seq<EthTransaction>): nat {
    if txs == [] then 0
    else
      var last := Due(mt, w, txs[|txs| - 1]);
      DueSum(mt, w, txs[..|txs| - 1]) + if last.Some? then last.value.amount else 0
  }

  lemma {:induction false} DueSumIs(mt: MultiTransfer, w: Wrapper, txs: seq<EthTransaction>, payments: seq<Payment>)
    requires |payments| == |txs| && forall i :: 0 <= i < |txs| ==> Due(mt, w, txs[i]) == Some(payments[i])
    ensures AmountSum(payments) == DueSum(mt, w, txs)
  {
    if txs != [] {
      var n := |txs| - 1;
      DueSumIs(mt, w, txs[..n], payments[..n]);
    }
  }

  /** When a batch can be delivered. */
  ghost predicate Deliverable(f: Facts, mt: MultiTransfer, w: Wrapper, s: Swap, txs: seq<EthTransaction>) {
    var accepted := Accepted(f, mt, txs);
    && (mt.hasWrapper ==> !w.paused)
    && (accepted != [] ==> mt.hasSwap && s.mayBurn)
    && (forall tx :: tx in accepted ==> Payable(mt, w, s, tx))
    && DueSum(mt, w, accepted) <= s.locked
  }

  /** Wrapping the accepted transfers works exactly if the wrapper runs and each has a due payment. */
  lemma {:induction false} WrappedIsDue(mt: MultiTransfer, w: Wrapper, accepted: seq<EthTransaction>)
    ensures Wrapped(mt, w, PaymentsOf(accepted)).Some? <==>
            (mt.hasWrapper ==> !w.paused) && forall i :: 0 <= i < |accepted| ==> Due(mt, w, accepted[i]).Some?
    ensures Wrapped(mt, w, PaymentsOf(accepted)).Some? ==>
            forall i :: 0 <= i < |accepted| ==>
              Due(mt, w, accepted[i]) == Some(Wrapped(mt, w, PaymentsOf(accepted)).value.1[i])
  {
    var payments := PaymentsOf(accepted);
    WrapAllAligned(w, payments);
    if mt.hasWrapper {
      assert forall i :: 0 <= i < |accepted| ==> Due(mt, w, accepted[i]) == WrappedPayment(w, payments[i]);
    }
  }

  /** A delivery succeeds if and only if the batch is deliverable: one accepted transfer that cannot be paid stops
      it. */
  lemma {:induction false} DeliveryIff(
    f: Facts, now: nat, mt: MultiTransfer, w: Wrapper, s: Swap, txs: seq<EthTransaction>)
    ensures BatchTransfer(f, now, mt, w, s, txs).Some? <==> Deliverable(f, mt, w, s, txs)
  {
    var accepted := Accepted(f, mt, txs);
    var payments := PaymentsOf(accepted);
    WrappedIsDue(mt, w, accepted);
    if Wrapped(mt, w, payments).Some? {
      var wrapped := Wrapped(mt, w, payments).value.1;
      PayAllAligned(mt, s, DestinationsOf(accepted), wrapped);
      DueSumIs(mt, w, accepted, wrapped);
      assert forall i :: 0 <= i < |accepted| ==> (Payable(mt, w, s, accepted[i]) <==> Swappable(s, wrapped[i]));
    } else if mt.hasWrapper ==> !w.paused {
      var i :| 0 <= i < |accepted| && Due(mt, w, accepted[i]).None?;
      assert accepted[i] in accepted && !Payable(mt, w, s, accepted[i]);
    }
  }

  /** In a successful batch every transfer is either paid, in the base token and in its own converted amount, to its own
      destination, or queued exactly once for refund; what is minted is what was accepted. */
  lemma {:induction false} DeliveryPartition(
    f: Facts, now: nat, mt: MultiTransfer, w: Wrapper, s: Swap, txs: seq<EthTransaction>)
    requires QueueOk(mt.queue) && BatchTransfer(f, now, mt, w, s, txs).Some?
    ensures var d := BatchTransfer(f, now, mt, w, s, txs).value;
            var accepted, refused := Accepted(f, mt, txs), Refused(f, mt, txs);
            && multiset(accepted) + multiset(refused) == multiset(txs)
            && |d.payouts| == |accepted|
            && (forall i :: 0 <= i < |accepted| ==>
                  && Payable(mt, w, s, accepted[i])
                  && d.payouts[i] == Payout(accepted[i].to, s.esdt, Due(mt, w, accepted[i]).value.amount))
            && QueueOk(d.mt.queue)
            && Waiting(d.mt.queue) == Waiting(mt.queue) + RefundRecords(now, refused)
            && (forall t: Token :: Get(d.mt.minted, t) == Get(mt.minted, t) + AmountOf(accepted, t))
  {
    var d := BatchTransfer(f, now, mt, w, s, txs).value;
    var accepted, refused := Accepted(f, mt, txs), Refused(f, mt, txs);
    EachTransferOnce(f, mt, txs);
    WrappedIsDue(mt, w, accepted);
    PayAllAligned(mt, s, DestinationsOf(accepted), Wrapped(mt, w, PaymentsOf(accepted)).value.1);
    AddAllAppends(mt.queue, now, RefundRecords(now, refused));
    forall t: Token ensures Get(d.mt.minted, t) == Get(mt.minted, t) + AmountOf(accepted, t) {
      MintedIsAccepted(mt.minted, accepted, t);
    }
  }

  /** A delivery keeps the wrapper backed and the swap's pot matched. */
  lemma {:induction false} DeliverySurplus(
    f: Facts, now: nat, mt: MultiTransfer, w: Wrapper, s: Swap, txs: seq<EthTransaction>, universal: Token, common: nat)
    requires BatchTransfer(f, now, mt, w, s, txs).Some? && DecimalsWithin(w, universal, common)
    ensures var d := BatchTransfer(f, now, mt, w, s, txs).value;
            && SurplusKept(w, d.wrapper, universal, common)
            && d.swap == s.(locked := d.swap.locked, issued := d.swap.issued)
            && d.swap.locked - d.swap.issued == s.locked - s.issued
  {
    var accepted := Accepted(f, mt, txs);
    var payments := PaymentsOf(accepted);
    if mt.hasWrapper {
      WrapAllSurplus(w, payments, universal, common);
    }
    PayAllAligned(mt, s, DestinationsOf(accepted), Wrapped(mt, w, payments).value.1);
  }

  /** Crossing the contract boundary keeps every field except the refund flag, which addRefundBatch restores. */
  lemma {:induction false} SplitJoin(txs: seq<Transaction>)
    ensures |JoinAll(SplitAll(txs))| == |txs|
    ensures forall i :: 0 <= i < |txs| ==> JoinAll(SplitAll(txs))[i] == txs[i].(isRefund := false)
  {
  }
}
