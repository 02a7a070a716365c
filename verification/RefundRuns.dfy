/** The whole way of a refused transfer back to Ethereum, over runs. */
module RefundRuns {
  import opened Transactions
  import opened BatchQueue
  import opened SafeLedger
  import opened MultisigTable
  import opened Bridge
  import opened BridgeRuns

  /** A refused transfer as it leaves the delivery contract, and the gas fee for sending it back. */
  datatype Moved = Moved(tx: Transaction, fee: nat)

  function WithFees(s: Safe, prices: map<Token, nat>, txs: seq<Transaction>): seq<Moved> {
    seq(|txs|, i requires 0 <= i < |txs| => Moved(txs[i], RequiredFee(s, prices, txs[i].token)))
  }

  /** What a call moves from the delivery contract to the safe, with the fees of that moment. */
  function MovedWithFees(w: World, step: Step): seq<Moved> {
    if step.MoveRefunds? then WithFees(w.safe, step.facts.prices, Batch(w.mt.queue, w.mt.queue.first)) else []
  }

  /** Those worth more than their fee. */
  ghost function Worth(moved: seq<Moved>): seq<Moved> {
    if moved == [] then []
    else
      var kept, last := Worth(moved[..|moved| - 1]), moved[|moved| - 1];
      if last.tx.amount > last.fee then kept + [last] else kept
  }

  ghost function OnlyRefunds(txs: seq<Transaction>): seq<Transaction> {
    if txs == [] then []
    else
      var kept, last := OnlyRefunds(txs[..|txs| - 1]), txs[|txs| - 1];
      if last.isRefund then kept + [last] else kept
  }

  lemma {:induction false} WorthConcat(a: seq<Moved>, b: seq<Moved>)
    ensures Worth(a + b) == Worth(a) + Worth(b)
  {
    if b == [] {
      assert a + b == a;
    } else {
      var n := |b| - 1;
      WorthConcat(a, b[..n]);
      assert (a + b)[..|a| + n] == a + b[..n];
    }
  }

  lemma {:induction false} RefundsConcat(a: seq<Transaction>, b: seq<Transaction>)
    ensures OnlyRefunds(a + b) == OnlyRefunds(a) + OnlyRefunds(b)
  {
    if b == [] {
      assert a + b == a;
    } else {
      var n := |b| - 1;
      RefundsConcat(a, b[..n]);
      assert (a + b)[..|a| + n] == a + b[..n];
    }
  }

  lemma {:induction false} AllRefunds(txs: seq<Transaction>)
    requires forall i :: 0 <= i < |txs| ==> txs[i].isRefund
    ensures OnlyRefunds(txs) == txs
  {
    if txs != [] {
      AllRefunds(txs[..|txs| - 1]);
      assert txs == txs[..|txs| - 1] + [txs[|txs| - 1]];
    }
  }

  lemma {:induction false} NoRefunds(txs: seq<Transaction>)
    requires forall i :: 0 <= i < |txs| ==> !txs[i].isRefund
    ensures OnlyRefunds(txs) == []
  {
    if txs != [] {
      NoRefunds(txs[..|txs| - 1]);
    }
  }

  /** Each of `made` is the way back of the transfer at the same position. */
  ghost predicate Returns(made: seq<Transaction>, moved: seq<Moved>) {
    |made| == |moved| && forall i :: 0 <= i < |made| ==> IsReturnOf(made[i], moved[i].tx, moved[i].fee)
  }

  lemma {:induction false} ReturnsConcat(a: seq<Transaction>, b: seq<Transaction>, x: seq<Moved>, y: seq<Moved>)
    requires Returns(a, x) && Returns(b, y)
    ensures Returns(a + b, x + y)
  {
  }

  lemma {:induction false} JoinPrefix(txs: seq<Transaction>, n: nat)
    requires n <= |txs|
    ensures JoinAll(SplitAll(txs))[..n] == JoinAll(SplitAll(txs[..n]))
  {
  }

  /** Crossing the contract boundary does not change which refunds are worth sending. */
  lemma {:induction false} WorthAfterSplit(s: Safe, prices: map<Token, nat>, txs: seq<Transaction>)
    ensures var kept, worth := WorthRefunding(s, prices, JoinAll(SplitAll(txs))), Worth(WithFees(s, prices, txs));
            && |kept| == |worth|
            && forall i :: 0 <= i < |kept| ==>
                 && kept[i] == worth[i].tx.(isRefund := false)
                 && worth[i].fee == RequiredFee(s, prices, worth[i].tx.token)
  {
    if txs != [] {
      var n := |txs| - 1;
      WorthAfterSplit(s, prices, txs[..n]);
      JoinPrefix(txs, n);
      assert WithFees(s, prices, txs)[..n] == WithFees(s, prices, txs[..n]);
    }
  }

  /** The refunds that a move puts into the safe are the ways back of what it moved, as far as worth the fee. */
  lemma {:induction false} MoveReturns(w: World, step: Step)
    requires step.MoveRefunds?
    ensures Returns(OnlyRefunds(EnteredNow(w, step)), Worth(MovedWithFees(w, step)))
  {
    var batch, prices := Batch(w.mt.queue, w.mt.queue.first), step.facts.prices;
    var made := RefundTxs(w.safe, w.now, prices, FirstRefunds(w));
    RefundsAreReturned(w.safe, w.now, prices, FirstRefunds(w));
    WorthAfterSplit(w.safe, prices, batch);
    AllRefunds(made);
  }

  /** No other call puts a refund into the safe. */
  lemma {:induction false} OthersReturnNothing(w: World, step: Step)
    requires !step.MoveRefunds?
    ensures OnlyRefunds(EnteredNow(w, step)) == [] && MovedWithFees(w, step) == []
  {
    NoRefunds(EnteredNow(w, step));
  }

  lemma {:induction false} ReturnStep(
    w: World, step: Step, entered: seq<Transaction>, moved: seq<Moved>)
    requires Returns(OnlyRefunds(entered), Worth(moved))
    ensures Returns(OnlyRefunds(entered + EnteredNow(w, step)), Worth(moved + MovedWithFees(w, step)))
  {
    RefundsConcat(entered, EnteredNow(w, step));
    WorthConcat(moved, MovedWithFees(w, step));
    if step.MoveRefunds? {
      MoveReturns(w, step);
    } else {
      OthersReturnNothing(w, step);
      assert Worth([]) == [];
    }
    ReturnsConcat(OnlyRefunds(entered), OnlyRefunds(EnteredNow(w, step)), Worth(moved), Worth(MovedWithFees(w, step)));
  }

  ghost function Transfers(moved: seq<Moved>): seq<Transaction> {
    seq(|moved|, i requires 0 <= i < |moved| => moved[i].tx)
  }

  lemma {:induction false} TransfersConcat(a: seq<Moved>, b: seq<Moved>)
    ensures Transfers(a + b) == Transfers(a) + Transfers(b)
  {
  }

  lemma {:induction false} MovedAgreeNow(w: World, step: Step)
    ensures Transfers(MovedWithFees(w, step)) == MovedNow(w, step)
  {
  }

  lemma {:induction false} MovedAgree(w: World, hash: Hasher, steps: seq<Step>)
    ensures Transfers(Collect(w, hash, steps, MovedWithFees)) == Collect(w, hash, steps, MovedNow)
  {
    if steps != [] {
      var n := |steps| - 1;
      var u := Run(w, hash, steps[..n]);
      MovedAgree(w, hash, steps[..n]);
      MovedAgreeNow(u, steps[n]);
      TransfersConcat(Collect(w, hash, steps[..n], MovedWithFees), MovedWithFees(u, steps[n]));
    }
  }

  lemma {:induction false} RefundsReturn(w: World, hash: Hasher, steps: seq<Step>)
    ensures Returns(OnlyRefunds(Collect(w, hash, steps, EnteredNow)), Worth(Collect(w, hash, steps, MovedWithFees)))
  {
    if steps != [] {
      var n := |steps| - 1;
      var u := Run(w, hash, steps[..n]);
      RefundsReturn(w, hash, steps[..n]);
      if Next(u, hash, steps[n]).Some? {
        ReturnStep(u, steps[n], Collect(w, hash, steps[..n], EnteredNow), Collect(w, hash, steps[..n], MovedWithFees));
      }
    }
  }

  /** Over any run: the transfers refused on delivery are, in order, those moved to the safe followed by those that
      still wait; and the refunds that ever entered the safe are, in order, the ways back of the moved ones whose amount
      exceeded the fee when they were moved, each exactly once, and nothing else. */
  lemma {:induction false} RefusedTransfersReturnInOrder(w: World, hash: Hasher, steps: seq<Step>)
    requires Initial(w)
    ensures var moved := Collect(w, hash, steps, MovedWithFees);
            && Transfers(moved) + Waiting(Run(w, hash, steps).mt.queue) == Collect(w, hash, steps, RefusedNow)
            && Returns(OnlyRefunds(Collect(w, hash, steps, EnteredNow)), Worth(moved))
  {
    MovedAgree(w, hash, steps);
    RefusedTransfersMoveInOrder(w, hash, steps);
    RefundsReturn(w, hash, steps);
  }
}
