/** What a deposit puts into the safe's queue, said through the call's own arguments, and over runs. */
module DepositRuns {
  import opened Collections
  import opened Transactions
  import opened BatchQueue
  import opened SafeLedger
  import opened MultisigTable
  import opened Bridge
  import opened BridgeRuns

  /** The aggregator's price of a gas unit if it has one, otherwise the default. */
  function GasPrice(s: Safe, prices: map<Token, nat>, token: Token): nat {
    if token in prices then prices[token] else if token in s.defaultPrice then s.defaultPrice[token] else 0
  }

  /** What is left of a payment after the gas fee, for a payment that exceeds it. */
  function Gross(s: Safe, prices: map<Token, nat>, paid: Payment): int {
    paid.amount - GasPrice(s, prices, paid.token) * s.gasLimit
  }

  /** The percentage of the service fee, in ten-thousandths, rounded down and capped. */
  function Service(s: Safe, gross: nat): nat {
    if gross * s.servicePercentage / 10000 > s.maxServiceFee then s.maxServiceFee
    else gross * s.servicePercentage / 10000
  }

  /** The contract takes a payment if it is not paused, the token is whitelisted, the payment exceeds the gas fee and
      does not exceed the limit of its token, zero meaning none, and the service fee leaves something or nothing, not
      less. */
  predicate Takes(s: Safe, prices: map<Token, nat>, paid: Payment) {
    && !s.paused && paid.token in s.whitelist && Gross(s, prices, paid) > 0
    && (paid.token in s.maxAmount && s.maxAmount[paid.token] > 0 ==> paid.amount <= s.maxAmount[paid.token])
    && Service(s, Gross(s, prices, paid)) <= Gross(s, prices, paid)
  }

  /** The queued transaction: from and to whom, in which token, how much for Ethereum and how much as service fee. */
  predicate IsDeposit(tx: Transaction, s: Safe, now: nat, prices: map<Token, nat>, from: nat, to: nat, paid: Payment)
    requires Takes(s, prices, paid)
  {
    && tx.from == Mvx(from) && tx.to == Eth(to) && tx.token == paid.token && tx.blockNonce == now && !tx.isRefund
    && tx.serviceFee == Service(s, Gross(s, prices, paid))
    && tx.amount + tx.serviceFee == Gross(s, prices, paid)
  }

  lemma {:induction false} NewTxIs(s: Safe, now: nat, prices: map<Token, nat>, from: nat, to: nat, paid: Payment)
    ensures NewTx(s, now, prices, from, to, paid).Some? <==> Takes(s, prices, paid)
    ensures Takes(s, prices, paid) ==>
            IsDeposit(NewTx(s, now, prices, from, to, paid).value, s, now, prices, from, to, paid)
  {
    assert RequiredFee(s, prices, paid.token) == GasPrice(s, prices, paid.token) * s.gasLimit;
    if Gross(s, prices, paid) > 0 {
      assert ServiceFee(s, Gross(s, prices, paid)) == Service(s, Gross(s, prices, paid));
    }
  }

  /** A deposit goes through exactly if the contract takes it. It then books the gas fee and takes the payment in;
      besides the queue nothing else changes. */
  lemma {:induction false} CreateBooks(s: Safe, now: nat, prices: map<Token, nat>, from: nat, to: nat, paid: Payment)
    ensures Create(s, now, prices, from, to, paid).Some? <==> Takes(s, prices, paid)
    ensures Takes(s, prices, paid) ==>
            var r := Create(s, now, prices, from, to, paid).value;
            && r == s.(queue := r.queue, fees := r.fees, balance := r.balance)
            && r.balance == s.balance[paid.token := Get(s.balance, paid.token) + paid.amount]
            && r.fees == s.fees[paid.token := Get(s.fees, paid.token) + paid.amount - Gross(s, prices, paid)]
  {
    NewTxIs(s, now, prices, from, to, paid);
  }

  /** It puts one transaction at the end of the queue, from the named account to the named address. */
  lemma {:induction false} CreateQueues(s: Safe, now: nat, prices: map<Token, nat>, from: nat, to: nat, paid: Payment)
    requires SafeOk(s, now) && Takes(s, prices, paid)
    ensures Create(s, now, prices, from, to, paid).Some?
    ensures var q, n := Create(s, now, prices, from, to, paid).value.queue, |Waiting(s.queue)|;
            && |Waiting(q)| == n + 1 && Waiting(q)[..n] == Waiting(s.queue)
            && IsDeposit(Waiting(q)[n], s, now, prices, from, to, paid)
  {
    NewTxIs(s, now, prices, from, to, paid);
    CreateKeepsBooks(s, now, prices, from, to, paid);
  }

  // ----- Over runs -----

  /** A successful deposit, directly or through the deposit wrapper, with the payment that reached the safe. */
  datatype Call = Call(safe: Safe, now: nat, prices: map<Token, nat>, from: nat, to: nat, paid: Payment)

  function CallsNow(w: World, step: Step): seq<Call> {
    if step.CreateBy? then [Call(w.safe, w.now, step.facts.prices, step.caller, step.to, step.paid)]
    else if step.DepositBy? && DepositSwap(w, step.paid).Some? then
      [Call(w.safe, w.now, step.facts.prices, step.caller, step.to, DepositSwap(w, step.paid).value.2)]
    else []
  }

  /** Through the wrapper the payment reaches the safe in the deposit token, and is worth no less than what was paid
      in. */
  lemma {:induction false} SwappedPayment(w: World, paid: Payment)
    requires DepositSwap(w, paid).Some?
    ensures var out := DepositSwap(w, paid).value.2;
            && paid.token == w.swap.esdt && out.token == w.depositToken && out.amount >= paid.amount > 0
            && Get(DepositSwap(w, paid).value.1.liquidity, out.token) + out.amount
               == Get(w.wrapper.liquidity, out.token)
            && DepositSwap(w, paid).value.0.locked == w.swap.locked + paid.amount
  {
  }

  ghost function OnlyDeposits(txs: seq<Transaction>): seq<Transaction> {
    if txs == [] then []
    else
      var kept, last := OnlyDeposits(txs[..|txs| - 1]), txs[|txs| - 1];
      if last.isRefund then kept else kept + [last]
  }

  lemma {:induction false} OnlyDepositsConcat(a: seq<Transaction>, b: seq<Transaction>)
    ensures OnlyDeposits(a + b) == OnlyDeposits(a) + OnlyDeposits(b)
  {
    if b == [] {
      assert a + b == a;
    } else {
      var n := |b| - 1;
      OnlyDepositsConcat(a, b[..n]);
      assert (a + b)[..|a| + n] == a + b[..n];
    }
  }

  lemma {:induction false} NoDeposits(txs: seq<Transaction>)
    requires forall i :: 0 <= i < |txs| ==> txs[i].isRefund
    ensures OnlyDeposits(txs) == []
  {
    if txs != [] {
      NoDeposits(txs[..|txs| - 1]);
    }
  }

  /** The call was taken and `tx` is its transaction. */
  ghost predicate Answers(tx: Transaction, c: Call) {
    Takes(c.safe, c.prices, c.paid) && IsDeposit(tx, c.safe, c.now, c.prices, c.from, c.to, c.paid)
  }

  ghost predicate AllAnswer(txs: seq<Transaction>, calls: seq<Call>) {
    |txs| == |calls| && forall i :: 0 <= i < |txs| ==> Answers(txs[i], calls[i])
  }

  lemma {:induction false} AllAnswerConcat(a: seq<Transaction>, b: seq<Transaction>, x: seq<Call>, y: seq<Call>)
    requires AllAnswer(a, x) && AllAnswer(b, y)
    ensures AllAnswer(a + b, x + y)
  {
  }

  lemma {:induction false} OneDeposit(c: Call)
    requires NewTx(c.safe, c.now, c.prices, c.from, c.to, c.paid).Some?
    ensures AllAnswer(OnlyDeposits(AsSeq(NewTx(c.safe, c.now, c.prices, c.from, c.to, c.paid))), [c])
  {
    var tx := NewTx(c.safe, c.now, c.prices, c.from, c.to, c.paid).value;
    NewTxIs(c.safe, c.now, c.prices, c.from, c.to, c.paid);
    assert [tx][..0] == [];
  }

  lemma {:induction false} StepAnswers(w: World, hash: Hasher, step: Step)
    requires Next(w, hash, step).Some?
    ensures AllAnswer(OnlyDeposits(EnteredNow(w, step)), CallsNow(w, step))
  {
    if step.CreateBy? || step.DepositBy? {
      OneDeposit(CallsNow(w, step)[0]);
    } else if step.MoveRefunds? {
      RefundsAreReturned(w.safe, w.now, step.facts.prices, FirstRefunds(w));
      NoDeposits(EnteredNow(w, step));
    }
  }

  /** Over any run, the transactions that entered the safe and are no refunds are, in order and each once, those
      of the successful deposits: from that account, to that Ethereum address, with that payment less the fees of
      the moment. */
  lemma {:induction false} DepositsEnterInOrder(w: World, hash: Hasher, steps: seq<Step>)
    ensures AllAnswer(OnlyDeposits(Collect(w, hash, steps, EnteredNow)), Collect(w, hash, steps, CallsNow))
  {
    if steps != [] {
      var n := |steps| - 1;
      var u := Run(w, hash, steps[..n]);
      DepositsEnterInOrder(w, hash, steps[..n]);
      if Next(u, hash, steps[n]).Some? {
        var entered, calls := Collect(w, hash, steps[..n], EnteredNow), Collect(w, hash, steps[..n], CallsNow);
        StepAnswers(u, hash, steps[n]);
        OnlyDepositsConcat(entered, EnteredNow(u, steps[n]));
        AllAnswerConcat(OnlyDeposits(entered), OnlyDeposits(EnteredNow(u, steps[n])), calls, CallsNow(u, steps[n]));
      }
    }
  }
}
