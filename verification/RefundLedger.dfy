/** Who is owed what after settlements: refunds by account, burnt and stranded amounts by token. */
module RefundLedger {
  import opened Collections
  import opened Transactions
  import opened BatchQueue
  import opened SafeLedger
  import opened MultisigTable
  import opened Bridge
  import opened BridgeInvariant
  import opened BridgeRuns

  /** What a settled transaction was worth to its sender. */
  function Value(tx: Transaction): nat {
    tx.amount + tx.serviceFee
  }

  /** What a rejected transaction makes the safe owe to `account` in `token`: its sender gets it back. */
  function RejectedOne(tx: Transaction, status: TransactionStatus, account: nat, token: Token): nat {
    if !tx.isRefund && status == Rejected && tx.from == Mvx(account) && tx.token == token then Value(tx) else 0
  }

  /** What an executed transaction was worth in `token`. */
  function ExecutedOne(tx: Transaction, status: TransactionStatus, token: Token): nat {
    if !tx.isRefund && status == Executed && tx.token == token then Value(tx) else 0
  }

  ghost function RejectedFor(txs: seq<Transaction>, statuses: seq<TransactionStatus>, account: nat, token: Token): nat
    requires |txs| == |statuses|
  {
    if txs == [] then 0
    else
      var n := |txs| - 1;
      RejectedFor(txs[..n], statuses[..n], account, token) + RejectedOne(txs[n], statuses[n], account, token)
  }

  ghost function ExecutedIn(txs: seq<Transaction>, statuses: seq<TransactionStatus>, token: Token): nat
    requires |txs| == |statuses|
  {
    if txs == [] then 0
    else
      var n := |txs| - 1;
      ExecutedIn(txs[..n], statuses[..n], token) + ExecutedOne(txs[n], statuses[n], token)
  }

  /** From `s` to `r`, for one account and token: rejected value is owed to its sender, executed value has left, or is
      stranded without the burn role. */
  ghost predicate BookedAt(
    s: Safe, r: Safe, txs: seq<Transaction>, statuses: seq<TransactionStatus>, burnable: set<Token>, a: nat, t: Token)
    requires |txs| == |statuses|
  {
    && Get(r.refunds, (a, t)) == Get(s.refunds, (a, t)) + RejectedFor(txs, statuses, a, t)
    && Get(r.balance, t) + LeftIn(txs, statuses, burnable, t) == Get(s.balance, t)
    && Get(r.stranded, t) == Get(s.stranded, t) + StrandedIn(txs, statuses, burnable, t)
  }

  /** For every account and token, and the fees have not moved. */
  ghost predicate Booked(
    s: Safe, r: Safe, txs: seq<Transaction>, statuses: seq<TransactionStatus>, burnable: set<Token>)
    requires |txs| == |statuses|
  {
    (forall a: nat, t: Token :: BookedAt(s, r, txs, statuses, burnable, a, t)) && r.fees == s.fees
  }

  ghost function LeftIn(
    txs: seq<Transaction>, statuses: seq<TransactionStatus>, burnable: set<Token>, token: Token): nat
    requires |txs| == |statuses|
  {
    if token in burnable then ExecutedIn(txs, statuses, token) else 0
  }

  ghost function StrandedIn(
    txs: seq<Transaction>, statuses: seq<TransactionStatus>, burnable: set<Token>, token: Token): nat
    requires |txs| == |statuses|
  {
    if token in burnable then 0 else ExecutedIn(txs, statuses, token)
  }

  lemma {:induction false} RejectedBooked(s: Safe, tx: Transaction, burnable: set<Token>, a: nat, t: Token)
    requires !tx.isRefund && SettleOne(s, tx, Rejected, burnable).Some?
    ensures var r := SettleOne(s, tx, Rejected, burnable).value;
            && Get(r.refunds, (a, t)) == Get(s.refunds, (a, t))
                 + (if tx.token == t && tx.from == Mvx(a) then Value(tx) else 0)
            && r == s.(refunds := r.refunds)
  {
  }

  lemma {:induction false} BurntBooked(s: Safe, tx: Transaction, burnable: set<Token>, t: Token)
    requires !tx.isRefund && tx.token in burnable && SettleOne(s, tx, Executed, burnable).Some?
    ensures var r := SettleOne(s, tx, Executed, burnable).value;
            && Get(r.balance, t) + (if tx.token == t then Value(tx) else 0) == Get(s.balance, t)
            && r == s.(balance := r.balance)
  {
  }

  lemma {:induction false} StrandedBooked(s: Safe, tx: Transaction, burnable: set<Token>, t: Token)
    requires !tx.isRefund && tx.token !in burnable && SettleOne(s, tx, Executed, burnable).Some?
    ensures var r := SettleOne(s, tx, Executed, burnable).value;
            && Get(r.stranded, t) == Get(s.stranded, t) + (if tx.token == t then Value(tx) else 0)
            && r == s.(stranded := r.stranded)
  {
  }

  lemma {:induction false} SettleOneBooked(
    s: Safe, tx: Transaction, status: TransactionStatus, burnable: set<Token>, a: nat, t: Token)
    requires SettleOne(s, tx, status, burnable).Some?
    ensures var r, executed := SettleOne(s, tx, status, burnable).value, ExecutedOne(tx, status, t);
            && Get(r.refunds, (a, t)) == Get(s.refunds, (a, t)) + RejectedOne(tx, status, a, t)
            && Get(r.balance, t) + (if t in burnable then executed else 0) == Get(s.balance, t)
            && Get(r.stranded, t) == Get(s.stranded, t) + (if t in burnable then 0 else executed)
            && r.fees == s.fees
  {
    if !tx.isRefund {
      if status == Rejected {
        RejectedBooked(s, tx, burnable, a, t);
      } else if tx.token in burnable {
        BurntBooked(s, tx, burnable, t);
      } else {
        StrandedBooked(s, tx, burnable, t);
      }
    }
  }

  lemma {:induction false} SettleAllBooked(
    s: Safe, txs: seq<Transaction>, statuses: seq<TransactionStatus>, burnable: set<Token>, a: nat, t: Token)
    requires |txs| == |statuses| && SettleAll(s, txs, statuses, burnable).Some?
    ensures var r := SettleAll(s, txs, statuses, burnable).value;
            BookedAt(s, r, txs, statuses, burnable, a, t) && r.fees == s.fees
  {
    if txs != [] {
      var n := |txs| - 1;
      SettleAllBooked(s, txs[..n], statuses[..n], burnable, a, t);
      SettleOneBooked(SettleAll(s, txs[..n], statuses[..n], burnable).value, txs[n], statuses[n], burnable, a, t);
    }
  }

  /** Settling a batch: each account is owed, in each token, exactly what it had sent and what was rejected; executed
      value is burnt or passed on, or stranded where the burn role is missing. */
  lemma {:induction false} SettlementIsBooked(
    s: Safe, batchId: nat, statuses: seq<TransactionStatus>, burnable: set<Token>)
    requires SetStatus(s, batchId, statuses, burnable).Some?
    ensures |Batch(s.queue, batchId)| == |statuses|
    ensures Booked(s, SetStatus(s, batchId, statuses, burnable).value, Batch(s.queue, batchId), statuses, burnable)
  {
    var r, batch := SetStatus(s, batchId, statuses, burnable).value, Batch(s.queue, batchId);
    SettleAllBooked(s, batch, statuses, burnable, 0, 0);
    forall a: nat, t: Token ensures BookedAt(s, r, batch, statuses, burnable, a, t) {
      SettleAllBooked(s, batch, statuses, burnable, a, t);
    }
  }

  /** A claim pays out all that is due to the caller in that token and touches nothing else. */
  lemma {:induction false} ClaimPays(s: Safe, caller: nat, token: Token)
    requires Claim(s, caller, token).Some?
    ensures var r := Claim(s, caller, token).value;
            && Get(s.refunds, (caller, token)) > 0 && Get(r.refunds, (caller, token)) == 0
            && (forall a: nat, t: Token ::
                  (a, t) != (caller, token) ==> Get(r.refunds, (a, t)) == Get(s.refunds, (a, t)))
            && Get(r.balance, token) + Get(s.refunds, (caller, token)) == Get(s.balance, token)
            && (forall t: Token :: t != token ==> Get(r.balance, t) == Get(s.balance, t))
            && r == s.(refunds := r.refunds, balance := r.balance)
  {
  }

  // ----- Over runs -----

  datatype Outcome = Outcome(txs: seq<Transaction>, statuses: seq<TransactionStatus>, burnable: set<Token>)

  /** The settlement a call performs. */
  function OutcomeNow(w: World, step: Step): seq<Outcome> {
    var a := PerformedAction(w, step);
    if a.SetBatchStatus? then [Outcome(Batch(w.safe.queue, a.batchId), a.statuses, step.facts.burnable)] else []
  }

  datatype Payout = Payout(account: nat, token: Token, amount: nat)

  /** What a claim pays: the tokens that leave the safe for the caller. */
  function ClaimedNow(w: World, step: Step): seq<Payout> {
    if step.ClaimBy? && Claim(w.safe, step.caller, step.token).Some?
    then [Payout(step.caller, step.token,
                 Minus(Get(w.safe.balance, step.token),
                       Get(Claim(w.safe, step.caller, step.token).value.balance, step.token)))]
    else []
  }

  ghost function TotalRejected(outcomes: seq<Outcome>, account: nat, token: Token): nat {
    if outcomes == [] then 0
    else
      var o := outcomes[|outcomes| - 1];
      TotalRejected(outcomes[..|outcomes| - 1], account, token) +
      (if |o.txs| == |o.statuses| then RejectedFor(o.txs, o.statuses, account, token) else 0)
  }

  ghost function TotalStranded(outcomes: seq<Outcome>, token: Token): nat {
    if outcomes == [] then 0
    else
      var o := outcomes[|outcomes| - 1];
      TotalStranded(outcomes[..|outcomes| - 1], token) +
      (if |o.txs| == |o.statuses| then StrandedIn(o.txs, o.statuses, o.burnable, token) else 0)
  }

  ghost function TotalClaimed(payouts: seq<Payout>, account: nat, token: Token): nat {
    if payouts == [] then 0
    else
      var p := payouts[|payouts| - 1];
      TotalClaimed(payouts[..|payouts| - 1], account, token) +
      (if p.account == account && p.token == token then p.amount else 0)
  }

  /** The stored refunds and stranded amounts against the history. */
  ghost predicate LedgerMatches(s: Safe, outcomes: seq<Outcome>, payouts: seq<Payout>) {
    && (forall a: nat, t: Token ::
          Get(s.refunds, (a, t)) + TotalClaimed(payouts, a, t) == TotalRejected(outcomes, a, t))
    && (forall t: Token :: Get(s.stranded, t) == TotalStranded(outcomes, t))
  }

  lemma {:induction false} OutcomeAppend(outcomes: seq<Outcome>, o: Outcome, a: nat, t: Token)
    requires |o.txs| == |o.statuses|
    ensures TotalRejected(outcomes + [o], a, t) == TotalRejected(outcomes, a, t) + RejectedFor(o.txs, o.statuses, a, t)
    ensures TotalStranded(outcomes + [o], t)
            == TotalStranded(outcomes, t) + StrandedIn(o.txs, o.statuses, o.burnable, t)
  {
    assert (outcomes + [o])[..|outcomes|] == outcomes;
  }

  lemma {:induction false} ClaimAppend(payouts: seq<Payout>, p: Payout, a: nat, t: Token)
    ensures TotalClaimed(payouts + [p], a, t)
            == TotalClaimed(payouts, a, t) + if p.account == a && p.token == t then p.amount else 0
  {
    assert (payouts + [p])[..|payouts|] == payouts;
  }

  lemma {:induction false} LedgerSettles(s: Safe, r: Safe, outcomes: seq<Outcome>, payouts: seq<Payout>, o: Outcome)
    requires LedgerMatches(s, outcomes, payouts) && |o.txs| == |o.statuses|
    requires Booked(s, r, o.txs, o.statuses, o.burnable)
    ensures LedgerMatches(r, outcomes + [o], payouts)
  {
    forall t: Token ensures Get(r.stranded, t) == TotalStranded(outcomes + [o], t) {
      assert BookedAt(s, r, o.txs, o.statuses, o.burnable, 0, t);
      OutcomeAppend(outcomes, o, 0, t);
    }
    forall a: nat, t: Token
      ensures Get(r.refunds, (a, t)) + TotalClaimed(payouts, a, t) == TotalRejected(outcomes + [o], a, t)
    {
      assert BookedAt(s, r, o.txs, o.statuses, o.burnable, a, t);
      OutcomeAppend(outcomes, o, a, t);
    }
  }

  lemma {:induction false} LedgerClaims(
    s: Safe, outcomes: seq<Outcome>, payouts: seq<Payout>, caller: nat, token: Token)
    requires LedgerMatches(s, outcomes, payouts) && Claim(s, caller, token).Some?
    ensures var r := Claim(s, caller, token).value;
            var p := Payout(caller, token, Minus(Get(s.balance, token), Get(r.balance, token)));
            LedgerMatches(r, outcomes, payouts + [p])
  {
    var r := Claim(s, caller, token).value;
    var p := Payout(caller, token, Minus(Get(s.balance, token), Get(r.balance, token)));
    ClaimPays(s, caller, token);
    forall a: nat, t: Token
      ensures Get(r.refunds, (a, t)) + TotalClaimed(payouts + [p], a, t) == TotalRejected(outcomes, a, t)
    {
      ClaimAppend(payouts, p, a, t);
    }
  }

  /** No other call touches refunds or stranded amounts. */
  lemma {:induction false} OthersKeepLedger(w: World, hash: Hasher, step: Step)
    requires WorldOk(w, hash) && Next(w, hash, step).Some?
    requires !PerformedAction(w, step).SetBatchStatus? && !step.ClaimBy?
    ensures var r := Next(w, hash, step).value.safe;
            r.refunds == w.safe.refunds && r.stranded == w.safe.stranded
  {
    if IsSafeStep(step) {
      SafeStepKeepsLedger(w, step);
    } else {
      SafeUntouched(w, hash, step);
    }
  }

  lemma {:induction false} SafeStepKeepsLedger(w: World, step: Step)
    requires IsSafeStep(step) && SafeNext(w, step).Some? && !step.ClaimBy?
    ensures var r := SafeNext(w, step).value.safe; r.refunds == w.safe.refunds && r.stranded == w.safe.stranded
  {
  }

  lemma {:induction false} LedgerSettleStep(
    w: World, hash: Hasher, step: Step, outcomes: seq<Outcome>, payouts: seq<Payout>)
    requires Next(w, hash, step).Some? && PerformedAction(w, step).SetBatchStatus?
    requires LedgerMatches(w.safe, outcomes, payouts)
    ensures LedgerMatches(Next(w, hash, step).value.safe, outcomes + OutcomeNow(w, step), payouts)
  {
    var a := PerformedAction(w, step);
    SettlementIsBooked(w.safe, a.batchId, a.statuses, step.facts.burnable);
    LedgerSettles(w.safe, Next(w, hash, step).value.safe, outcomes, payouts, OutcomeNow(w, step)[0]);
  }

  lemma {:induction false} LedgerStep(
    w: World, hash: Hasher, step: Step, outcomes: seq<Outcome>, payouts: seq<Payout>)
    requires WorldOk(w, hash) && Next(w, hash, step).Some? && LedgerMatches(w.safe, outcomes, payouts)
    ensures LedgerMatches(Next(w, hash, step).value.safe,
                          outcomes + OutcomeNow(w, step), payouts + ClaimedNow(w, step))
  {
    if PerformedAction(w, step).SetBatchStatus? {
      LedgerSettleStep(w, hash, step, outcomes, payouts);
      assert payouts + ClaimedNow(w, step) == payouts;
    } else {
      assert outcomes + OutcomeNow(w, step) == outcomes;
      if step.ClaimBy? {
        LedgerClaims(w.safe, outcomes, payouts, step.caller, step.token);
      } else {
        OthersKeepLedger(w, hash, step);
        assert payouts + ClaimedNow(w, step) == payouts;
      }
    }
  }

  /** Over any run, for every account and token: what the safe owes it is what it sent and was rejected, minus what it
      has claimed. And per token, what is stranded is what was executed while the burn role was missing. */
  lemma {:induction false} RefundsGoToSenders(w: World, hash: Hasher, steps: seq<Step>)
    requires Initial(w)
    ensures LedgerMatches(Run(w, hash, steps).safe,
                          Collect(w, hash, steps, OutcomeNow), Collect(w, hash, steps, ClaimedNow))
  {
    if steps != [] {
      var n := |steps| - 1;
      var u := Run(w, hash, steps[..n]);
      RefundsGoToSenders(w, hash, steps[..n]);
      InitialOk(w, hash);
      RunOk(w, hash, steps[..n]);
      if Next(u, hash, steps[n]).Some? {
        var outcomes, payouts := Collect(w, hash, steps[..n], OutcomeNow), Collect(w, hash, steps[..n], ClaimedNow);
        LedgerStep(u, hash, steps[n], outcomes, payouts);
      }
    }
  }
}
