/** The EsdtSafe contract (rs/esdt-safe): storage as fields, endpoints as methods that succeed or revert. */
module EsdtSafe {
  import opened Collections
  import opened Transactions
  import opened TxBatchModule
  import opened FeeSharing
  import opened SafeLedger

  type Ledger = map<Token, nat>

  const DEFAULT_MAX_TX_BATCH_SIZE: nat := 10
  const DEFAULT_MAX_TX_BATCH_BLOCK_DURATION: nat := 100

  class EsdtSafeContract {
    const queue: TxBatchStorage
    var accumulatedFees: map<Token, nat>
    var refundAmount: map<(nat, Token), nat>
    var balance: map<Token, nat>
    var stranded: map<Token, nat>
    var whitelist: set<Token>
    var maxBridgedAmount: map<Token, nat>
    var defaultPricePerGasUnit: map<Token, nat>
    var ethTxGasLimit: nat
    var serviceFeePercentage: nat
    var maxServiceFee: nat
    var paused: bool

    constructor (gasLimit: nat, serviceFeePercentage: nat, maxServiceFee: nat)
      ensures EmptySafe(State()) && paused && fresh(queue)
    {
      queue := new TxBatchStorage(DEFAULT_MAX_TX_BATCH_SIZE, DEFAULT_MAX_TX_BATCH_BLOCK_DURATION);
      accumulatedFees, refundAmount, balance, stranded := map[], map[], map[], map[];
      whitelist, maxBridgedAmount, defaultPricePerGasUnit := {}, map[], map[];
      ethTxGasLimit := gasLimit;
      this.serviceFeePercentage, this.maxServiceFee := serviceFeePercentage, maxServiceFee;
      paused := true;
    }

    function State(): Safe
      reads this, queue
    {
      Safe(queue.State(), accumulatedFees, refundAmount, balance, stranded, whitelist, maxBridgedAmount,
           defaultPricePerGasUnit, ethTxGasLimit, serviceFeePercentage, maxServiceFee, paused)
    }

    /** A failed call leaves no trace. */
    method Revert(s: Safe)
      modifies this, queue
      ensures State() == s
    {
      queue.Revert(s.queue);
      accumulatedFees, refundAmount, balance, stranded := s.fees, s.refunds, s.balance, s.stranded;
      whitelist, maxBridgedAmount, defaultPricePerGasUnit := s.whitelist, s.maxAmount, s.defaultPrice;
      ethTxGasLimit, serviceFeePercentage, maxServiceFee := s.gasLimit, s.servicePercentage, s.maxServiceFee;
      paused := s.paused;
    }

    method SetPaused(value: bool)
      modifies this`paused
      ensures State() == old(State()).(paused := value)
    {
      paused := value;
    }

    method AddTokenToWhitelist(token: Token, defaultPrice: Option<nat>)
      modifies this`whitelist, this`defaultPricePerGasUnit
      ensures State() == old(State()).(
                whitelist := old(whitelist) + {token},
                defaultPrice := if defaultPrice.Some? then old(defaultPricePerGasUnit)[token := defaultPrice.value]
                                else old(defaultPricePerGasUnit))
    {
      if defaultPrice.Some? {
        defaultPricePerGasUnit := defaultPricePerGasUnit[token := defaultPrice.value];
      }
      whitelist := whitelist + {token};
    }

    method RemoveTokenFromWhitelist(token: Token)
      modifies this`whitelist, this`defaultPricePerGasUnit
      ensures State() == old(State()).(
                whitelist := old(whitelist) - {token}, defaultPrice := old(defaultPricePerGasUnit) - {token})
    {
      defaultPricePerGasUnit := defaultPricePerGasUnit - {token};
      whitelist := whitelist - {token};
    }

    method SetMaxBridgedAmount(token: Token, amount: nat)
      modifies this`maxBridgedAmount
      ensures State() == old(State()).(maxAmount := old(maxBridgedAmount)[token := amount])
    {
      maxBridgedAmount := maxBridgedAmount[token := amount];
    }

    method SetFees(gasLimit: nat, percentage: nat, maxFee: nat)
      modifies this`ethTxGasLimit, this`serviceFeePercentage, this`maxServiceFee
      ensures State() == old(State()).(gasLimit := gasLimit, servicePercentage := percentage, maxServiceFee := maxFee)
    {
      ethTxGasLimit, serviceFeePercentage, maxServiceFee := gasLimit, percentage, maxFee;
    }

    method CreateTransaction(now: nat, prices: Ledger, from: nat, to: nat, paid: Payment) returns (ok: bool)
      modifies this, queue
      ensures ok <==> Create(old(State()), now, prices, from, to, paid).Some?
      ensures State() == if ok then Create(old(State()), now, prices, from, to, paid).value else old(State())
    {
      if paused || paid.token !in whitelist {
        return false;
      }
      var requiredFee := RequiredFee(State(), prices, paid.token);
      if requiredFee >= paid.amount || AboveMaxAmount(maxBridgedAmount, paid.token, paid.amount) {
        return false;
      }
      var amountWithoutGas := paid.amount - requiredFee;
      var serviceFee := ServiceFee(State(), amountWithoutGas);
      if serviceFee > amountWithoutGas {
        return false;
      }
      balance := Credit(balance, paid.token, paid.amount);
      accumulatedFees := Credit(accumulatedFees, paid.token, requiredFee);
      var nonce := queue.GetAndSaveNextTxId();
      var tx := Transaction(now, nonce, Mvx(from), Eth(to), paid.token,
                            amountWithoutGas - serviceFee, serviceFee, false);
      var batchId := queue.AddToBatch(now, tx);
      ok := true;
    }

    method SetTransactionBatchStatus(batchId: nat, statuses: seq<TransactionStatus>, burnable: set<Token>)
      returns (ok: bool)
      modifies this, queue
      ensures ok <==> SetStatus(old(State()), batchId, statuses, burnable).Some?
      ensures State() == if ok then SetStatus(old(State()), batchId, statuses, burnable).value else old(State())
    {
      if batchId != queue.firstBatchId {
        return false;
      }
      var txBatch := new TxBatchMapper(queue, batchId);
      if txBatch.vecLen != |statuses| {
        return false;
      }
      var snapshot := State();
      var txs := txBatch.Collect();
      for i := 0 to |txs|
        invariant SettleAll(snapshot, txs[..i], statuses[..i], burnable) == Some(State())
        invariant queue.State() == snapshot.queue
      {
        var settled := SettleTransaction(txs[i], statuses[i], burnable);
        assert txs[..i + 1][..i] == txs[..i] && statuses[..i + 1][..i] == statuses[..i];
        if !settled {
          SettleAllFails(snapshot, txs, statuses, burnable, i + 1);
          Revert(snapshot);
          return false;
        }
      }
      assert txs[..|txs|] == txs && statuses[..|txs|] == statuses;
      queue.ClearFirstBatch(txBatch);
      ok := true;
    }

    /** One round of the settlement loop. */
    method SettleTransaction(tx: Transaction, status: TransactionStatus, burnable: set<Token>) returns (ok: bool)
      modifies this
      ensures ok <==> SettleOne(old(State()), tx, status, burnable).Some?
      ensures ok ==> State() == SettleOne(old(State()), tx, status, burnable).value
    {
      // a refund has no tokens in this contract
      if tx.isRefund {
        return true;
      }
      match status {
        case Executed =>
          if tx.token in burnable {
            ok := Send(tx.token, tx.serviceFee);
            if ok {
              ok := Send(tx.token, tx.amount);
            }
          } else {
            stranded := Credit(stranded, tx.token, tx.amount + tx.serviceFee);
            ok := true;
          }
        case Rejected =>
          if tx.from.Eth? {
            return false;
          }
          var key := (tx.from.mvx, tx.token);
          refundAmount := Credit(refundAmount, key, tx.amount + tx.serviceFee);
          ok := true;
        case _ =>
          ok := false;
      }
    }

    /** Tokens leave the contract, to another account or by being burnt. */
    method Send(token: Token, amount: nat) returns (ok: bool)
      modifies this`balance
      ensures ok <==> Debit(old(balance), token, amount).Some?
      ensures ok ==> balance == Debit(old(balance), token, amount).value
      ensures !ok ==> balance == old(balance)
    {
      ok := amount <= Get(balance, token);
      if ok {
        balance := balance[token := Get(balance, token) - amount];
      }
    }

    method AddRefundBatch(now: nat, prices: Ledger, refundTxs: seq<Transaction>)
      modifies queue
      ensures State() == SafeLedger.AddRefundBatch(old(State()), now, prices, refundTxs)
    {
      var newTxs := MakeRefundTransactions(now, prices, refundTxs);
      var batchIds := queue.AddMultipleTxToBatch(now, newTxs);
    }

    /** Turns the failed transfers round, each under a new nonce. */
    method MakeRefundTransactions(now: nat, prices: Ledger, refundTxs: seq<Transaction>)
      returns (newTxs: seq<Transaction>)
      modifies queue`lastTxNonce
      ensures newTxs == RefundTxs(old(State()), now, prices, refundTxs)
      ensures queue.State() == old(queue.State()).(lastNonce := old(queue.lastTxNonce) + |newTxs|)
    {
      ghost var before := State();
      var cachedTokens: seq<Token> := [];
      var cachedFees: seq<nat> := [];
      newTxs := [];
      for i := 0 to |refundTxs|
        invariant CacheOk(before, prices, cachedTokens, cachedFees)
        invariant newTxs == RefundTxs(before, now, prices, refundTxs[..i])
        invariant queue.lastTxNonce == before.queue.lastNonce + |newTxs|
      {
        assert refundTxs[..i + 1][..i] == refundTxs[..i];
        var tx := refundTxs[i];
        var requiredFee;
        requiredFee, cachedTokens, cachedFees := CachedRequiredFee(before, prices, tx.token, cachedTokens, cachedFees);
        if tx.amount > requiredFee {
          var nonce := queue.GetAndSaveNextTxId();
          newTxs := newTxs + [Transaction(now, nonce, tx.to, tx.from, tx.token,
                                          tx.amount - requiredFee, tx.serviceFee, true)];
        }
      }
      assert refundTxs[..|refundTxs|] == refundTxs;
    }

    /** Looks the fee up once per token. */
    method CachedRequiredFee(ghost s: Safe, prices: Ledger, token: Token, tokens: seq<Token>, fees: seq<nat>)
      returns (fee: nat, newTokens: seq<Token>, newFees: seq<nat>)
      requires s == State().(queue := s.queue)
      requires CacheOk(s, prices, tokens, fees)
      ensures fee == RequiredFee(s, prices, token)
      ensures CacheOk(s, prices, newTokens, newFees)
    {
      newTokens, newFees := tokens, fees;
      var index := Position(tokens, token);
      if index.Some? {
        fee := fees[index.value];
      } else {
        fee := RequiredFee(State(), prices, token);
        newTokens, newFees := tokens + [token], fees + [fee];
      }
    }

    method ClaimRefund(caller: nat, token: Token) returns (ok: bool, paid: nat)
      modifies this
      ensures ok <==> Claim(old(State()), caller, token).Some?
      ensures State() == if ok then Claim(old(State()), caller, token).value else old(State())
      ensures ok ==> paid == Get(old(refundAmount), (caller, token)) > 0
    {
      paid := Get(refundAmount, (caller, token));
      if paid == 0 || paid > Get(balance, token) {
        return false, 0;
      }
      refundAmount := refundAmount - {(caller, token)};
      ok := Send(token, paid);
    }

    /** Pays every whitelisted token's fees out by percentage; rounding dust stays accumulated. */
    method DistributeFees(shares: seq<Share>) returns (ok: bool, paid: map<(nat, Token), nat>)
      modifies this`accumulatedFees, this`balance
      ensures ok <==> Distribute(old(State()), shares).Some?
      ensures State() == if ok then Distribute(old(State()), shares).value else old(State())
      ensures ok ==> PaidOut(old(State()), shares, whitelist, paid)
    {
      paid := map[];
      var percentageSum := SumPercentages(shares);
      if percentageSum != PERCENTAGE_TOTAL {
        return false, paid;
      }
      var fees0, balance0 := accumulatedFees, balance;
      ghost var before := State();
      var todo := whitelist;
      assert Progress(before, shares, {}, paid);
      while todo != {}
        invariant todo <= whitelist
        invariant forall t :: t in whitelist - todo ==> Covered(before, shares, t)
        invariant Progress(before, shares, whitelist - todo, paid)
        decreases todo
      {
        var token :| token in todo;
        ok, paid := DistributeToken(token, shares, paid, before, whitelist - todo);
        if !ok {
          accumulatedFees, balance := fees0, balance0;
          return;
        }
        assert whitelist - (todo - {token}) == whitelist - todo + {token};
        todo := todo - {token};
      }
      assert whitelist - todo == whitelist;
      ok := true;
    }

    /** The tokens in `done` have been distributed, the others not yet. */
    ghost predicate Progress(s: Safe, shares: seq<Share>, done: set<Token>, paid: map<(nat, Token), nat>)
      reads this
    {
      && accumulatedFees == FeesAfter(s, shares, done)
      && balance == BalanceAfter(s, shares, done)
      && PaidOut(s, shares, done, paid)
    }

    /** One round of the distribution loop. */
    method DistributeToken(token: Token, shares: seq<Share>, paidBefore: map<(nat, Token), nat>,
                           ghost s: Safe, ghost done: set<Token>)
      returns (ok: bool, paid: map<(nat, Token), nat>)
      requires token !in done && Progress(s, shares, done, paidBefore)
      modifies this`accumulatedFees, this`balance
      ensures ok <==> Covered(s, shares, token)
      ensures ok ==> Progress(s, shares, done + {token}, paid)
    {
      var accumulated, available := Get(accumulatedFees, token), Get(balance, token);
      assert accumulated == Get(s.fees, token) && available == Get(s.balance, token);
      var remaining, left;
      ok, remaining, left, paid := PayShares(token, accumulated, available, shares, paidBefore);
      if ok && accumulated != remaining {
        accumulatedFees := accumulatedFees[token := remaining];
        balance := balance[token := left];
      }
    }
  }

  ghost predicate CacheOk(s: Safe, prices: Ledger, tokens: seq<Token>, fees: seq<nat>) {
    |tokens| == |fees| && forall k :: 0 <= k < |tokens| ==> fees[k] == RequiredFee(s, prices, tokens[k])
  }

  /** Every address has received its cut of every token in `done`, and nothing else. */
  ghost predicate PaidOut(s: Safe, shares: seq<Share>, done: set<Token>, paid: map<(nat, Token), nat>) {
    forall a, t :: Get(paid, (a, t)) == (if t in done then CutFor(Get(s.fees, t), shares, a) else 0)
  }

  method SumPercentages(shares: seq<Share>) returns (sum: nat)
    ensures sum == PercentSum(shares)
  {
    sum := 0;
    for i := 0 to |shares|
      invariant sum == PercentSum(shares[..i])
    {
      assert shares[..i + 1][..i] == shares[..i];
      sum := sum + shares[i].percentage;
    }
    assert shares[..|shares|] == shares;
  }

  ghost predicate PaidOnTop(
    token: Token, fees: nat, shares: seq<Share>, before: map<(nat, Token), nat>, after: map<(nat, Token), nat>)
  {
    forall a, t :: Get(after, (a, t)) == Get(before, (a, t)) + (if t == token then CutFor(fees, shares, a) else 0)
  }

  /** Pays one token's fees; fails exactly if the cuts exceed the fees or the funds. */
  method PayShares(
    token: Token, accumulated: nat, available: nat, shares: seq<Share>, paidBefore: map<(nat, Token), nat>)
    returns (ok: bool, remaining: nat, left: nat, paid: map<(nat, Token), nat>)
    ensures ok <==> CutSum(accumulated, shares) <= accumulated && CutSum(accumulated, shares) <= available
    ensures ok ==> remaining == accumulated - CutSum(accumulated, shares)
    ensures ok ==> left == available - CutSum(accumulated, shares)
    ensures ok ==> PaidOnTop(token, accumulated, shares, paidBefore, paid)
  {
    remaining, left, paid := accumulated, available, paidBefore;
    assert shares[..0] == [];
    assert forall a :: CutFor(accumulated, [], a) == 0;
    for i := 0 to |shares|
      invariant CutSum(accumulated, shares[..i]) <= accumulated && CutSum(accumulated, shares[..i]) <= available
      invariant remaining == accumulated - CutSum(accumulated, shares[..i])
      invariant left == available - CutSum(accumulated, shares[..i])
      invariant PaidOnTop(token, accumulated, shares[..i], paidBefore, paid)
    {
      assert shares[..i + 1][..i] == shares[..i];
      CutSumMonotone(accumulated, shares, i + 1);
      var amount := Cut(accumulated, shares[i].percentage);
      if amount > 0 {
        if amount > remaining || amount > left {
          return false, remaining, left, paid;
        }
        remaining, left := remaining - amount, left - amount;
        paid := Credit(paid, (shares[i].address, token), amount);
      }
    }
    assert shares[..|shares|] == shares;
    ok := true;
  }

  /** The first cached index of a token. */
  method Position(tokens: seq<Token>, token: Token) returns (index: Option<nat>)
    ensures index.Some? <==> token in tokens
    ensures index.Some? ==> index.value < |tokens| && tokens[index.value] == token
  {
    for i := 0 to |tokens|
      invariant token !in tokens[..i]
    {
      if tokens[i] == token {
        return Some(i);
      }
    }
    index := None;
  }

  /** Once a prefix of a batch cannot be settled, the whole batch cannot. */
  lemma {:induction false} SettleAllFails(
    s: Safe, txs: seq<Transaction>, statuses: seq<TransactionStatus>, burnable: set<Token>, k: nat)
    requires |txs| == |statuses| && k <= |txs|
    requires SettleAll(s, txs[..k], statuses[..k], burnable).None?
    ensures SettleAll(s, txs, statuses, burnable).None?
  {
    if k < |txs| {
      var n := |txs| - 1;
      assert txs[..n][..k] == txs[..k] && statuses[..n][..k] == statuses[..k];
      SettleAllFails(s, txs[..n], statuses[..n], burnable, k);
    } else {
      assert txs[..k] == txs && statuses[..k] == statuses;
    }
  }
}
