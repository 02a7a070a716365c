/** What the EsdtSafe contract computes (rs/esdt-safe), as functions on values, and its bookkeeping laws. */
module SafeLedger {
  import opened Collections
  import opened Transactions
  import opened BatchQueue
  import opened FeeSharing

  const MAX_PERCENTAGE: nat := 10000

  /** `stranded` is not stored by the contract: it records what a missing burn role leaves behind. */
  datatype Safe = Safe(
    queue: Queue,
    fees: map<Token, nat>,
    refunds: map<(nat, Token), nat>,
    balance: map<Token, nat>,
    stranded: map<Token, nat>,
    whitelist: set<Token>,
    maxAmount: map<Token, nat>,
    defaultPrice: map<Token, nat>,
    gasLimit: nat, servicePercentage: nat, maxServiceFee: nat, paused: bool)

  // ----- Fees -----

  /** `prices` holds the aggregator's answers during one call. */
  function RequiredFee(s: Safe, prices: map<Token, nat>, token: Token): nat {
    (if token in prices then prices[token] else Get(s.defaultPrice, token)) * s.gasLimit
  }

  function ServiceFee(s: Safe, amount: nat): nat {
    var fee := amount * s.servicePercentage / MAX_PERCENTAGE;
    if fee > s.maxServiceFee then s.maxServiceFee else fee
  }

  predicate AboveMaxAmount(limits: map<Token, nat>, token: Token, amount: nat) {
    Get(limits, token) > 0 && amount > Get(limits, token)
  }

  // ----- createTransaction -----

  function NewTx(s: Safe, now: nat, prices: map<Token, nat>, from: nat, to: nat, paid: Payment): Option<Transaction> {
    var fee := RequiredFee(s, prices, paid.token);
    if s.paused || paid.token !in s.whitelist || paid.amount <= fee
       || AboveMaxAmount(s.maxAmount, paid.token, paid.amount) then None
    else
      var gross := paid.amount - fee;
      var service := ServiceFee(s, gross);
      if service > gross then None
      else Some(Transaction(now, s.queue.lastNonce + 1, Mvx(from), Eth(to), paid.token,
                            gross - service, service, false))
  }

  function Create(s: Safe, now: nat, prices: map<Token, nat>, from: nat, to: nat, paid: Payment): Option<Safe> {
    var tx := NewTx(s, now, prices, from, to, paid);
    if tx.None? then None
    else
      Some(s.(balance := Credit(s.balance, paid.token, paid.amount),
              fees := Credit(s.fees, paid.token, RequiredFee(s, prices, paid.token)),
              queue := Add(s.queue.(lastNonce := tx.value.nonce), now, tx.value)))
  }

  // ----- setTransactionBatchStatus -----

  function SettleOne(s: Safe, tx: Transaction, status: TransactionStatus, burnable: set<Token>): Option<Safe> {
    if tx.isRefund then Some(s)
    else match status
      case Executed =>
        if tx.token in burnable then
          var sent := Debit(s.balance, tx.token, tx.serviceFee);
          if sent.None? then None
          else
            var burnt := Debit(sent.value, tx.token, tx.amount);
            if burnt.None? then None else Some(s.(balance := burnt.value))
        else Some(s.(stranded := Credit(s.stranded, tx.token, tx.amount + tx.serviceFee)))
      case Rejected =>
        if tx.from.Mvx?
        then Some(s.(refunds := Credit(s.refunds, (tx.from.mvx, tx.token), tx.amount + tx.serviceFee)))
        else None
      case _ => None
  }

  function SettleAll(
    s: Safe, txs: seq<Transaction>, statuses: seq<TransactionStatus>, burnable: set<Token>): Option<Safe>
    requires |txs| == |statuses|
  {
    if txs == [] then Some(s)
    else
      var n := |txs| - 1;
      var before := SettleAll(s, txs[..n], statuses[..n], burnable);
      if before.None? then None else SettleOne(before.value, txs[n], statuses[n], burnable)
  }

  function SetStatus(s: Safe, batchId: nat, statuses: seq<TransactionStatus>, burnable: set<Token>): Option<Safe> {
    var batch := Batch(s.queue, batchId);
    if batchId != s.queue.first || |batch| != |statuses| then None
    else
      var settled := SettleAll(s, batch, statuses, burnable);
      if settled.None? then None else Some(settled.value.(queue := ClearFirst(settled.value.queue)))
  }

  // ----- addRefundBatch -----

  /** The Elrond -> Ethereum transactions made from failed Ethereum -> Elrond ones; too small ones are dropped. */
  function RefundTxs(s: Safe, now: nat, prices: map<Token, nat>, txs: seq<Transaction>): (r: seq<Transaction>)
    ensures |r| <= |txs|
  {
    if txs == [] then []
    else
      var made := RefundTxs(s, now, prices, txs[..|txs| - 1]);
      var tx := txs[|txs| - 1];
      var fee := RequiredFee(s, prices, tx.token);
      if tx.amount <= fee then made
      else made + [Transaction(now, s.queue.lastNonce + |made| + 1, tx.to, tx.from, tx.token,
                               tx.amount - fee, tx.serviceFee, true)]
  }

  function AddRefundBatch(s: Safe, now: nat, prices: map<Token, nat>, txs: seq<Transaction>): Safe {
    var made := RefundTxs(s, now, prices, txs);
    s.(queue := AddAll(s.queue.(lastNonce := s.queue.lastNonce + |made|), now, made))
  }

  // ----- claimRefund and distributeFees -----

  function Claim(s: Safe, caller: nat, token: Token): Option<Safe> {
    var due := Get(s.refunds, (caller, token));
    var paid := Debit(s.balance, token, due);
    if due == 0 || paid.None? then None
    else Some(s.(refunds := s.refunds - {(caller, token)}, balance := paid.value))
  }

  /** The cuts of one token's fees exceed neither the fees nor the funds. */
  predicate Covered(s: Safe, shares: seq<Share>, t: Token) {
    CutSum(Get(s.fees, t), shares) <= Get(s.fees, t) && CutSum(Get(s.fees, t), shares) <= Get(s.balance, t)
  }

  predicate CanDistribute(s: Safe, shares: seq<Share>) {
    forall t :: t in s.whitelist ==> Covered(s, shares, t)
  }

  /** The fees left, and the tokens left, once the tokens in `done` are distributed. */
  function FeesAfter(s: Safe, shares: seq<Share>, done: set<Token>): map<Token, nat> {
    map t | t in s.fees :: if t in done then Minus(s.fees[t], CutSum(s.fees[t], shares)) else s.fees[t]
  }

  function BalanceAfter(s: Safe, shares: seq<Share>, done: set<Token>): map<Token, nat> {
    map t | t in s.balance :: if t in done then Minus(s.balance[t], CutSum(Get(s.fees, t), shares)) else s.balance[t]
  }

  function Distribute(s: Safe, shares: seq<Share>): Option<Safe> {
    if PercentSum(shares) != PERCENTAGE_TOTAL || !CanDistribute(s, shares) then None
    else Some(s.(fees := FeesAfter(s, shares, s.whitelist), balance := BalanceAfter(s, shares, s.whitelist)))
  }

  // ----- Bookkeeping -----

  /** Tokens the safe holds for transactions on their way to Ethereum. */
  ghost function Locked(txs: seq<Transaction>, token: Token): nat {
    if txs == [] then 0
    else
      var tx := txs[|txs| - 1];
      Locked(txs[..|txs| - 1], token) +
      (if !tx.isRefund && tx.token == token then tx.amount + tx.serviceFee else 0)
  }

  ghost function RefundsIn(refunds: map<(nat, Token), nat>, token: Token): map<(nat, Token), nat> {
    map k | k in refunds && k.1 == token :: refunds[k]
  }

  /** What the safe owes besides the locked amounts. */
  ghost function Owed(s: Safe, token: Token): nat {
    Get(s.fees, token) + Total(RefundsIn(s.refunds, token)) + Get(s.stranded, token)
  }

  /** The books balance for every token. */
  ghost predicate Solvent(s: Safe) {
    forall t: Token :: Get(s.balance, t) == Locked(Waiting(s.queue), t) + Owed(s, t)
  }

  /** A transaction that is not a refund was created by a MultiversX account. */
  ghost predicate OriginsOk(txs: seq<Transaction>) {
    forall i :: 0 <= i < |txs| && !txs[i].isRefund ==> txs[i].from.Mvx?
  }

  ghost predicate SafeOk(s: Safe, now: nat) {
    && QueueOk(s.queue)
    && NoncesOk(Waiting(s.queue), s.queue.lastNonce)
    && AgesOk(Waiting(s.queue), now)
    && OriginsOk(Waiting(s.queue))
    && Solvent(s)
  }

  predicate EmptySafe(s: Safe) {
    EmptyQueue(s.queue) && s.fees == map[] && s.refunds == map[] && s.balance == map[] && s.stranded == map[]
  }

  lemma {:induction false} EmptySafeOk(s: Safe, now: nat)
    requires EmptySafe(s)
    ensures SafeOk(s, now) && Waiting(s.queue) == []
  {
    assert Concat(s.queue, 1, 1) == [];
    assert forall t: Token :: RefundsIn(s.refunds, t) == map[];
  }

  lemma {:induction false} LockedConcat(a: seq<Transaction>, b: seq<Transaction>, token: Token)
    ensures Locked(a + b, token) == Locked(a, token) + Locked(b, token)
  {
    if b == [] {
      assert a + b == a;
    } else {
      var n := |b| - 1;
      assert (a + b)[..|a + b| - 1] == a + b[..n];
      LockedConcat(a, b[..n], token);
    }
  }

  lemma {:induction false} RefundCredit(refunds: map<(nat, Token), nat>, k: (nat, Token), v: nat, token: Token)
    ensures Total(RefundsIn(refunds[k := v], token)) ==
            Total(RefundsIn(refunds, token)) + (if k.1 == token then v - Get(refunds, k) else 0)
  {
    var r := RefundsIn(refunds, token);
    if k.1 == token {
      assert RefundsIn(refunds[k := v], token) == r[k := v];
      TotalUpdate(r, k, v);
    } else {
      assert RefundsIn(refunds[k := v], token) == r;
    }
  }

  lemma {:induction false} RefundRemove(refunds: map<(nat, Token), nat>, k: (nat, Token), token: Token)
    requires k in refunds
    ensures Total(RefundsIn(refunds - {k}, token)) ==
            Total(RefundsIn(refunds, token)) - (if k.1 == token then refunds[k] else 0)
    ensures k.1 == token ==> refunds[k] <= Total(RefundsIn(refunds, token))
  {
    var r := RefundsIn(refunds, token);
    if k.1 == token {
      assert RefundsIn(refunds - {k}, token) == r - {k};
      TotalRemove(r, k);
    } else {
      assert RefundsIn(refunds - {k}, token) == r;
    }
  }

  lemma {:induction false} LockedOne(tx: Transaction, token: Token)
    ensures Locked([tx], token) == if !tx.isRefund && tx.token == token then tx.amount + tx.serviceFee else 0
  {
    assert [tx][..0] == [];
  }

  /** New transactions: the next nonces, the present block, and a MultiversX sender unless they are refunds. */
  ghost predicate Fresh(more: seq<Transaction>, lastNonce: nat, now: nat) {
    forall i :: 0 <= i < |more| ==>
      && more[i].nonce == lastNonce + 1 + i && more[i].blockNonce == now
      && (more[i].isRefund || more[i].from.Mvx?)
  }

  lemma {:induction false} AppendKeepsLaws(waiting: seq<Transaction>, more: seq<Transaction>, lastNonce: nat, now: nat)
    requires NoncesOk(waiting, lastNonce) && AgesOk(waiting, now) && OriginsOk(waiting) && Fresh(more, lastNonce, now)
    ensures NoncesOk(waiting + more, lastNonce + |more|) && AgesOk(waiting + more, now) && OriginsOk(waiting + more)
  {
    NoncesAppend(waiting, more, lastNonce);
    AgesAppend(waiting, more, now);
  }

  /** Appending transactions that carry the next nonces keeps the queue's laws. */
  lemma {:induction false} AppendKeepsQueue(q: Queue, p: Queue, now: nat, more: seq<Transaction>)
    requires QueueOk(q) && NoncesOk(Waiting(q), q.lastNonce) && AgesOk(Waiting(q), now) && OriginsOk(Waiting(q))
    requires Fresh(more, q.lastNonce, now)
    requires p == AddAll(q.(lastNonce := q.lastNonce + |more|), now, more)
    ensures QueueOk(p) && NoncesOk(Waiting(p), p.lastNonce) && AgesOk(Waiting(p), now) && OriginsOk(Waiting(p))
    ensures Waiting(p) == Waiting(q) + more && p.first == q.first
  {
    var q' := q.(lastNonce := q.lastNonce + |more|);
    ConcatSame(q, q', q.first, q.last + 1);
    assert Waiting(q') == Waiting(q);
    AddAllAppends(q', now, more);
    AppendKeepsLaws(Waiting(q), more, q.lastNonce, now);
  }

  lemma {:induction false} AddAllOne(q: Queue, now: nat, tx: Transaction)
    ensures AddAll(q, now, [tx]) == Add(q, now, tx)
  {
    assert [tx][..0] == [];
  }

  /** A new transaction locks what the user paid, minus the gas fee, which is booked as a fee. */
  lemma {:induction false} CreateKeepsBooks(
    s: Safe, now: nat, prices: map<Token, nat>, from: nat, to: nat, paid: Payment)
    requires SafeOk(s, now)
    requires Create(s, now, prices, from, to, paid).Some?
    ensures var r := Create(s, now, prices, from, to, paid).value;
            var tx := NewTx(s, now, prices, from, to, paid).value;
            && SafeOk(r, now)
            && Waiting(r.queue) == Waiting(s.queue) + [tx]
            && tx.amount + tx.serviceFee + RequiredFee(s, prices, paid.token) == paid.amount
            && tx.nonce == s.queue.lastNonce + 1 == r.queue.lastNonce
  {
    var r := Create(s, now, prices, from, to, paid).value;
    var tx := NewTx(s, now, prices, from, to, paid).value;
    AddAllOne(s.queue.(lastNonce := tx.nonce), now, tx);
    AppendKeepsQueue(s.queue, r.queue, now, [tx]);
    forall t: Token ensures Get(r.balance, t) == Locked(Waiting(r.queue), t) + Owed(r, t) {
      LockedConcat(Waiting(s.queue), [tx], t);
      LockedOne(tx, t);
    }
  }

  /** Balance that no claim accounts for. */
  ghost function Spare(s: Safe, token: Token): int {
    Get(s.balance, token) - Owed(s, token)
  }

  lemma {:induction false} RejectBooks(s: Safe, tx: Transaction, burnable: set<Token>, token: Token)
    requires !tx.isRefund && tx.from.Mvx?
    ensures Spare(SettleOne(s, tx, Rejected, burnable).value, token) + Locked([tx], token) == Spare(s, token)
  {
    var k, amount := (tx.from.mvx, tx.token), tx.amount + tx.serviceFee;
    LockedOne(tx, token);
    RefundCredit(s.refunds, k, Get(s.refunds, k) + amount, token);
  }

  lemma {:induction false} BurnBooks(s: Safe, tx: Transaction, burnable: set<Token>, token: Token)
    requires !tx.isRefund && tx.token in burnable && SettleOne(s, tx, Executed, burnable).Some?
    ensures Spare(SettleOne(s, tx, Executed, burnable).value, token) + Locked([tx], token) == Spare(s, token)
  {
    LockedOne(tx, token);
  }

  lemma {:induction false} StrandBooks(s: Safe, tx: Transaction, burnable: set<Token>, token: Token)
    requires !tx.isRefund && tx.token !in burnable
    ensures Spare(SettleOne(s, tx, Executed, burnable).value, token) + Locked([tx], token) == Spare(s, token)
  {
    LockedOne(tx, token);
  }

  /** Settling one transaction releases exactly what was locked for it. */
  lemma {:induction false} SettleOneBooks(
    s: Safe, tx: Transaction, status: TransactionStatus, burnable: set<Token>, token: Token)
    requires SettleOne(s, tx, status, burnable).Some?
    ensures var r := SettleOne(s, tx, status, burnable).value;
            && Spare(r, token) + Locked([tx], token) == Spare(s, token)
            && r == s.(balance := r.balance, refunds := r.refunds, stranded := r.stranded)
  {
    if tx.isRefund {
      LockedOne(tx, token);
    } else if status.Rejected? {
      RejectBooks(s, tx, burnable, token);
    } else if tx.token in burnable {
      BurnBooks(s, tx, burnable, token);
    } else {
      StrandBooks(s, tx, burnable, token);
    }
  }

  lemma {:induction false} SettleAllBooks(
    s: Safe, txs: seq<Transaction>, statuses: seq<TransactionStatus>, burnable: set<Token>, token: Token)
    requires |txs| == |statuses|
    requires SettleAll(s, txs, statuses, burnable).Some?
    ensures var r := SettleAll(s, txs, statuses, burnable).value;
            && Spare(r, token) + Locked(txs, token) == Spare(s, token)
            && r == s.(balance := r.balance, refunds := r.refunds, stranded := r.stranded)
  {
    if txs != [] {
      var n := |txs| - 1;
      SettleAllBooks(s, txs[..n], statuses[..n], burnable, token);
      SettleOneBooks(SettleAll(s, txs[..n], statuses[..n], burnable).value, txs[n], statuses[n], burnable, token);
      LockedOne(txs[n], token);
    }
  }

  /** What is left of the queue when its first batch is taken off obeys the same laws. */
  lemma {:induction false} SettledQueueOk(q: Queue, now: nat)
    requires QueueOk(q) && NoncesOk(Waiting(q), q.lastNonce) && AgesOk(Waiting(q), now) && OriginsOk(Waiting(q))
    ensures var p := ClearFirst(q);
            && QueueOk(p) && NoncesOk(Waiting(p), p.lastNonce) && AgesOk(Waiting(p), now) && OriginsOk(Waiting(p))
            && Waiting(q) == Batch(q, q.first) + Waiting(p)
  {
    ClearFirstDrops(q);
    var batch, rest := Batch(q, q.first), Waiting(ClearFirst(q));
    SuffixKeepsLaws(batch, rest, q.lastNonce, now);
    assert forall i :: 0 <= i < |rest| ==> rest[i] == Waiting(q)[|batch| + i];
  }

  /** The books balance without the settled batch. */
  lemma {:induction false} SettledSolvent(
    s: Safe, batch: seq<Transaction>, statuses: seq<TransactionStatus>, burnable: set<Token>, r: Safe)
    requires |batch| == |statuses| && SettleAll(s, batch, statuses, burnable).Some?
    requires Solvent(s) && r == SettleAll(s, batch, statuses, burnable).value.(queue := r.queue)
    requires Waiting(s.queue) == batch + Waiting(r.queue)
    ensures Solvent(r)
  {
    forall t: Token ensures Get(r.balance, t) == Locked(Waiting(r.queue), t) + Owed(r, t) {
      SettleAllBooks(s, batch, statuses, burnable, t);
      LockedConcat(batch, Waiting(r.queue), t);
    }
  }

  /** A settled batch leaves the queue at the front and the books balanced. */
  lemma {:induction false} SetStatusKeepsBooks(
    s: Safe, now: nat, batchId: nat, statuses: seq<TransactionStatus>, burnable: set<Token>)
    requires SafeOk(s, now)
    requires SetStatus(s, batchId, statuses, burnable).Some?
    ensures var r := SetStatus(s, batchId, statuses, burnable).value;
            && SafeOk(r, now)
            && r.queue == ClearFirst(s.queue)
            && Waiting(s.queue) == Batch(s.queue, batchId) + Waiting(r.queue)
            && |statuses| == |Batch(s.queue, batchId)|
  {
    var r := SetStatus(s, batchId, statuses, burnable).value;
    var batch := Batch(s.queue, batchId);
    SettleAllBooks(s, batch, statuses, burnable, 0);
    SettledQueueOk(s.queue, now);
    SettledSolvent(s, batch, statuses, burnable, r);
  }

  /** A status list the contract accepts for these transactions. */
  ghost predicate StatusesFit(txs: seq<Transaction>, statuses: seq<TransactionStatus>) {
    && |txs| == |statuses|
    && forall i :: 0 <= i < |txs| && !txs[i].isRefund ==> statuses[i].Executed? || statuses[i].Rejected?
  }

  lemma {:induction false} SettleAllPays(
    s: Safe, txs: seq<Transaction>, statuses: seq<TransactionStatus>, burnable: set<Token>)
    requires |txs| == |statuses|
    requires OriginsOk(txs)
    requires forall t: Token :: Locked(txs, t) + Owed(s, t) <= Get(s.balance, t)
    ensures SettleAll(s, txs, statuses, burnable).Some? <==> StatusesFit(txs, statuses)
  {
    if txs != [] {
      var n := |txs| - 1;
      SettleAllPays(s, txs[..n], statuses[..n], burnable);
      var before := SettleAll(s, txs[..n], statuses[..n], burnable);
      if before.Some? {
        SettleAllBooks(s, txs[..n], statuses[..n], burnable, txs[n].token);
        assert StatusesFit(txs, statuses) <==>
               (txs[n].isRefund || statuses[n].Executed? || statuses[n].Rejected?);
      }
    }
  }

  /** With balanced books a settlement fails only for a wrong id, a wrong count or an illegal status, never for lack of
      funds. */
  lemma {:induction false} SettlementIsFunded(
    s: Safe, now: nat, batchId: nat, statuses: seq<TransactionStatus>, burnable: set<Token>)
    requires SafeOk(s, now)
    ensures SetStatus(s, batchId, statuses, burnable).Some? <==>
            batchId == s.queue.first && StatusesFit(Batch(s.queue, batchId), statuses)
  {
    var batch := Batch(s.queue, batchId);
    if batchId == s.queue.first && |batch| == |statuses| {
      ConcatSplit(s.queue, s.queue.first, s.queue.last + 1);
      var rest := Concat(s.queue, s.queue.first + 1, s.queue.last + 1);
      assert forall i :: 0 <= i < |batch| ==> batch[i] == Waiting(s.queue)[i];
      forall t: Token ensures Locked(batch, t) + Owed(s, t) <= Get(s.balance, t) {
        LockedConcat(batch, rest, t);
      }
      SettleAllPays(s, batch, statuses, burnable);
    }
  }

  /** Every refund marked by a rejected transaction can be claimed. */
  lemma {:induction false} ClaimIsFunded(s: Safe, now: nat, caller: nat, token: Token)
    requires SafeOk(s, now)
    ensures Claim(s, caller, token).Some? <==> Get(s.refunds, (caller, token)) > 0
    ensures Claim(s, caller, token).Some? ==> SafeOk(Claim(s, caller, token).value, now)
  {
    var k := (caller, token);
    if k in s.refunds {
      RefundRemove(s.refunds, k, token);
    }
    if Claim(s, caller, token).Some? {
      var r := Claim(s, caller, token).value;
      forall t: Token ensures Get(r.balance, t) == Locked(Waiting(r.queue), t) + Owed(r, t) {
        RefundRemove(s.refunds, k, t);
      }
    }
  }

  /** Distribution succeeds for any shares that add up, pays out of the fees alone and keeps the books. */
  lemma {:induction false} DistributionIsFunded(s: Safe, now: nat, shares: seq<Share>)
    requires SafeOk(s, now)
    ensures Distribute(s, shares).Some? <==> PercentSum(shares) == PERCENTAGE_TOTAL
    ensures Distribute(s, shares).Some? ==> SafeOk(Distribute(s, shares).value, now)
    ensures Distribute(s, shares).Some? ==> forall t :: t in s.whitelist ==>
              && Get(s.fees, t) - Get(Distribute(s, shares).value.fees, t)
                 == Get(s.balance, t) - Get(Distribute(s, shares).value.balance, t)
              && Get(Distribute(s, shares).value.fees, t) < |shares|
  {
    if PercentSum(shares) == PERCENTAGE_TOTAL {
      forall t: Token
        ensures CutSum(Get(s.fees, t), shares) <= Get(s.fees, t) < CutSum(Get(s.fees, t), shares) + |shares|
      {
        DustIsSmall(Get(s.fees, t), shares);
      }
      var r := Distribute(s, shares).value;
      forall t: Token ensures Get(r.balance, t) == Locked(Waiting(r.queue), t) + Owed(r, t) {
        assert Get(s.balance, t) == Locked(Waiting(s.queue), t) + Owed(s, t);
      }
    }
  }

  /** Distribution takes from each whitelisted token's fees, and from the funds, the sum of the cuts; nothing
      else moves. */
  lemma {:induction false} DistributionIs(s: Safe, shares: seq<Share>, t: Token)
    requires Distribute(s, shares).Some?
    ensures var r, paid := Distribute(s, shares).value, if t in s.whitelist then CutSum(Get(s.fees, t), shares) else 0;
            && Get(r.fees, t) + paid == Get(s.fees, t) && Get(r.balance, t) + paid == Get(s.balance, t)
            && r == s.(fees := r.fees, balance := r.balance)
  {
    assert t in s.whitelist ==> Covered(s, shares, t);
    NoFeesNoCut(shares);
  }

  lemma {:induction false} NoFeesNoCut(shares: seq<Share>)
    ensures CutSum(0, shares) == 0
  {
    if shares != [] {
      NoFeesNoCut(shares[..|shares| - 1]);
    }
  }

  // ----- The refund route -----

  /** The queued refunds worth more than their gas fee, in order. */
  ghost function WorthRefunding(s: Safe, prices: map<Token, nat>, txs: seq<Transaction>): seq<Transaction> {
    if txs == [] then []
    else
      var kept := WorthRefunding(s, prices, txs[..|txs| - 1]);
      var tx := txs[|txs| - 1];
      if tx.amount > RequiredFee(s, prices, tx.token) then kept + [tx] else kept
  }

  /** The way back of one failed transfer. */
  ghost predicate IsReturnOf(r: Transaction, tx: Transaction, fee: nat) {
    && r.from == tx.to && r.to == tx.from
    && r.token == tx.token && r.amount + fee == tx.amount && r.serviceFee == tx.serviceFee
    && r.isRefund
  }

  /** Each queued refund yields exactly one flagged transaction back, unless the fee eats it. */
  lemma {:induction false} RefundsAreReturned(s: Safe, now: nat, prices: map<Token, nat>, txs: seq<Transaction>)
    ensures var made, kept := RefundTxs(s, now, prices, txs), WorthRefunding(s, prices, txs);
            && |made| == |kept|
            && forall i :: 0 <= i < |made| ==>
                 && IsReturnOf(made[i], kept[i], RequiredFee(s, prices, kept[i].token))
                 && made[i].nonce == s.queue.lastNonce + 1 + i
                 && made[i].blockNonce == now
  {
    if txs != [] {
      RefundsAreReturned(s, now, prices, txs[..|txs| - 1]);
    }
  }

  lemma {:induction false} RefundsLockNothing(txs: seq<Transaction>, token: Token)
    requires forall i :: 0 <= i < |txs| ==> txs[i].isRefund
    ensures Locked(txs, token) == 0
  {
    if txs != [] {
      RefundsLockNothing(txs[..|txs| - 1], token);
    }
  }

  /** Refunds enter at the back of the queue and no token moves. */
  lemma {:induction false} AddRefundsKeepsBooks(s: Safe, now: nat, prices: map<Token, nat>, txs: seq<Transaction>)
    requires SafeOk(s, now)
    ensures var r := AddRefundBatch(s, now, prices, txs);
            && SafeOk(r, now)
            && Waiting(r.queue) == Waiting(s.queue) + RefundTxs(s, now, prices, txs)
            && r == s.(queue := r.queue) && r.queue.first == s.queue.first
  {
    var made := RefundTxs(s, now, prices, txs);
    var r := AddRefundBatch(s, now, prices, txs);
    RefundsAreReturned(s, now, prices, txs);
    AppendKeepsQueue(s.queue, r.queue, now, made);
    RefundsKeepSolvent(s, r, made);
  }

  lemma {:induction false} RefundsKeepSolvent(s: Safe, r: Safe, made: seq<Transaction>)
    requires Solvent(s) && r == s.(queue := r.queue) && Waiting(r.queue) == Waiting(s.queue) + made
    requires forall i :: 0 <= i < |made| ==> made[i].isRefund
    ensures Solvent(r)
  {
    forall t: Token ensures Get(r.balance, t) == Locked(Waiting(r.queue), t) + Owed(r, t) {
      LockedConcat(Waiting(s.queue), made, t);
      RefundsLockNothing(made, t);
    }
  }

  /** Settling a batch of refunds moves no tokens, whatever the statuses say. */
  lemma {:induction false} SettlingRefundsMovesNothing(
    s: Safe, txs: seq<Transaction>, statuses: seq<TransactionStatus>, burnable: set<Token>)
    requires |txs| == |statuses|
    requires forall i :: 0 <= i < |txs| ==> txs[i].isRefund
    ensures SettleAll(s, txs, statuses, burnable) == Some(s)
  {
    if txs != [] {
      var n := |txs| - 1;
      SettlingRefundsMovesNothing(s, txs[..n], statuses[..n], burnable);
    }
  }
}
