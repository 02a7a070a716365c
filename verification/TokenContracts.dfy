/** The wrapper, swap and delivery contracts: storage as fields, endpoints as methods that succeed or revert. */
module TokenContracts {
  import opened Collections
  import opened Transactions
  import opened BatchQueue
  import opened TxBatchModule
  import opened SafeLedger
  import opened TokenWrapper
  import opened Delivery

  /** rs/bridged-tokens-wrapper */
  class BridgedTokensWrapper {
    var universalBridgedTokenIds: set<Token>
    var chainSpecificToUniversal: map<Token, Token>
    var tokenDecimals: map<Token, nat>
    var tokenLiquidity: map<Token, nat>
    var issued: map<Token, int>
    var mintRoles: set<Token>
    var burnRoles: set<Token>
    var paused: bool

    constructor ()
      ensures State() == Wrapper({}, map[], map[], map[], map[], {}, {}, true)
    {
      universalBridgedTokenIds, mintRoles, burnRoles := {}, {}, {};
      chainSpecificToUniversal, tokenDecimals, tokenLiquidity, issued := map[], map[], map[], map[];
      paused := true;
    }

    function State(): Wrapper
      reads this
    {
      Wrapper(universalBridgedTokenIds, chainSpecificToUniversal, tokenDecimals, tokenLiquidity, issued,
              mintRoles, burnRoles, paused)
    }

    method Revert(w: Wrapper)
      modifies this
      ensures State() == w
    {
      universalBridgedTokenIds, chainSpecificToUniversal, tokenDecimals := w.universals, w.universalOf, w.decimals;
      tokenLiquidity, issued, mintRoles, burnRoles, paused := w.liquidity, w.issued, w.mintRoles, w.burnRoles, w.paused;
    }

    method SetPaused(value: bool)
      modifies this`paused
      ensures State() == old(State()).(paused := value)
    {
      paused := value;
    }

    /** The chain grants or takes away roles. */
    method SetRoles(mint: set<Token>, burn: set<Token>)
      modifies this`mintRoles, this`burnRoles
      ensures State() == old(State()).(mintRoles := mint, burnRoles := burn)
    {
      mintRoles, burnRoles := mint, burn;
    }

    method AddWrappedToken(universal: Token, decimals: nat) returns (ok: bool)
      modifies this`universalBridgedTokenIds, this`tokenDecimals
      ensures ok <==> TokenWrapper.AddWrappedToken(old(State()), universal, decimals).Some?
      ensures State() == if ok then TokenWrapper.AddWrappedToken(old(State()), universal, decimals).value
                         else old(State())
    {
      ok := universal !in universalBridgedTokenIds && universal in mintRoles && universal in burnRoles;
      if ok {
        tokenDecimals := tokenDecimals[universal := decimals];
        universalBridgedTokenIds := universalBridgedTokenIds + {universal};
      }
    }

    method UpdateWrappedToken(universal: Token, decimals: nat) returns (ok: bool)
      modifies this`tokenDecimals
      ensures ok <==> TokenWrapper.UpdateWrappedToken(old(State()), universal, decimals).Some?
      ensures State() == if ok then TokenWrapper.UpdateWrappedToken(old(State()), universal, decimals).value
                         else old(State())
    {
      ok := universal in universalBridgedTokenIds;
      if ok {
        tokenDecimals := tokenDecimals[universal := decimals];
      }
    }

    /** Clears the chain tokens one by one, then the universal token. */
    method RemoveWrappedToken(universal: Token)
      modifies this`universalBridgedTokenIds, this`chainSpecificToUniversal, this`tokenDecimals
      ensures State() == TokenWrapper.RemoveWrappedToken(old(State()), universal)
    {
      universalBridgedTokenIds := universalBridgedTokenIds - {universal};
      ghost var mapping, decimals := chainSpecificToUniversal, tokenDecimals;
      var chain := ChainTokens(State(), universal);
      var todo := chain;
      while todo != {}
        invariant todo <= chain
        invariant universalBridgedTokenIds == old(universalBridgedTokenIds) - {universal}
        invariant chainSpecificToUniversal == mapping - (chain - todo)
        invariant tokenDecimals == decimals - (chain - todo)
        decreases todo
      {
        var token :| token in todo;
        chainSpecificToUniversal := chainSpecificToUniversal - {token};
        tokenDecimals := tokenDecimals - {token};
        assert chain - todo + {token} == chain - (todo - {token});
        todo := todo - {token};
      }
      assert chain - todo == chain;
      assert chain == ChainTokens(old(State()), universal);
      tokenDecimals := tokenDecimals - {universal};
      assert tokenDecimals == decimals - (chain + {universal});
    }

    method WhitelistToken(chain: Token, decimals: nat, universal: Token) returns (ok: bool)
      modifies this`universalBridgedTokenIds, this`chainSpecificToUniversal, this`tokenDecimals
      ensures ok <==> TokenWrapper.WhitelistToken(old(State()), chain, decimals, universal).Some?
      ensures State() == if ok then TokenWrapper.WhitelistToken(old(State()), chain, decimals, universal).value
                         else old(State())
    {
      ok := universal in mintRoles && universal in burnRoles && chain !in chainSpecificToUniversal;
      if ok {
        tokenDecimals := tokenDecimals[chain := decimals];
        chainSpecificToUniversal := chainSpecificToUniversal[chain := universal];
        universalBridgedTokenIds := universalBridgedTokenIds + {universal};
      }
    }

    method UpdateWhitelistedToken(chain: Token, decimals: nat) returns (ok: bool)
      modifies this`tokenDecimals
      ensures ok <==> TokenWrapper.UpdateWhitelistedToken(old(State()), chain, decimals).Some?
      ensures State() == if ok then TokenWrapper.UpdateWhitelistedToken(old(State()), chain, decimals).value
                         else old(State())
    {
      ok := chain in chainSpecificToUniversal;
      if ok {
        tokenDecimals := tokenDecimals[chain := decimals];
      }
    }

    method BlacklistToken(chain: Token)
      modifies this`chainSpecificToUniversal, this`tokenDecimals
      ensures State() == TokenWrapper.BlacklistToken(old(State()), chain)
    {
      chainSpecificToUniversal := chainSpecificToUniversal - {chain};
      tokenDecimals := tokenDecimals - {chain};
    }

    method DepositLiquidity(paid: Payment)
      modifies this`tokenLiquidity
      ensures State() == TokenWrapper.DepositLiquidity(old(State()), paid)
    {
      tokenLiquidity := Credit(tokenLiquidity, paid.token, paid.amount);
    }

    /** Wraps what it can and sends back the rest unchanged, in the order of the payments. */
    method WrapTokens(payments: seq<Payment>) returns (ok: bool, newPayments: seq<Payment>)
      modifies this
      ensures ok <==> TokenWrapper.WrapTokens(old(State()), payments).Some?
      ensures ok ==> (State(), newPayments) == TokenWrapper.WrapTokens(old(State()), payments).value
      ensures !ok ==> State() == old(State())
    {
      newPayments := [];
      if paused {
        return false, [];
      }
      var snapshot := State();
      for i := 0 to |payments|
        invariant WrapAll(snapshot, payments[..i]) == Some((State(), newPayments))
      {
        assert payments[..i + 1][..i] == payments[..i];
        var wrapped, out := WrapPayment(payments[i]);
        if !wrapped {
          WrapAllFails(snapshot, payments, i + 1);
          Revert(snapshot);
          return false, [];
        }
        newPayments := newPayments + [out];
      }
      assert payments[..|payments|] == payments;
      ok := true;
    }

    /** One round of the wrapping loop. */
    method WrapPayment(p: Payment) returns (ok: bool, out: Payment)
      modifies this
      ensures ok <==> WrapOne(old(State()), p).Some?
      ensures ok ==> (State(), out) == WrapOne(old(State()), p).value
      ensures !ok ==> State() == old(State())
    {
      out := p;
      if p.token !in chainSpecificToUniversal {
        return true, p;
      }
      var universal := chainSpecificToUniversal[p.token];
      if Get(tokenDecimals, universal) == 0 || Get(tokenDecimals, p.token) == 0 {
        return false, p;
      }
      var converted := Convert(p.amount, tokenDecimals[p.token], tokenDecimals[universal]);
      if converted.None? || universal !in mintRoles {
        return false, p;
      }
      tokenLiquidity := Credit(tokenLiquidity, p.token, p.amount);
      issued := issued[universal := GetInt(issued, universal) + converted.value];
      ok, out := true, Payment(universal, converted.value);
    }

    method UnwrapToken(paid: Payment, requested: Token) returns (ok: bool, out: Payment)
      modifies this
      ensures ok <==> TokenWrapper.UnwrapToken(old(State()), paid, requested).Some?
      ensures ok ==> (State(), out) == TokenWrapper.UnwrapToken(old(State()), paid, requested).value
      ensures !ok ==> State() == old(State())
    {
      out := paid;
      if paused || paid.amount == 0 {
        return false, out;
      }
      if requested !in chainSpecificToUniversal || chainSpecificToUniversal[requested] != paid.token {
        return false, out;
      }
      if Get(tokenDecimals, paid.token) == 0 || Get(tokenDecimals, requested) == 0 {
        return false, out;
      }
      var converted := Convert(paid.amount, tokenDecimals[paid.token], tokenDecimals[requested]);
      if converted.None? || converted.value > Get(tokenLiquidity, requested) || paid.token !in burnRoles {
        return false, out;
      }
      tokenLiquidity := tokenLiquidity[requested := Get(tokenLiquidity, requested) - converted.value];
      issued := issued[paid.token := GetInt(issued, paid.token) - paid.amount];
      ok, out := true, Payment(requested, converted.value);
    }
  }

  lemma {:induction false} WrapAllFails(w: Wrapper, payments: seq<Payment>, k: nat)
    requires k <= |payments| && WrapAll(w, payments[..k]).None?
    ensures WrapAll(w, payments).None?
  {
    if k < |payments| {
      var n := |payments| - 1;
      assert payments[..n][..k] == payments[..k];
      WrapAllFails(w, payments[..n], k);
    } else {
      assert payments[..k] == payments;
    }
  }

  /** rs/wesdt-swap. The contract reads its pause flag but ignores the answer. */
  class EsdtWEsdtSwap {
    const esdtTokenId: Token
    const wrappedEsdtTokenId: Token
    var lockedBalance: nat
    var issued: int
    var mayMint: bool
    var mayBurn: bool

    constructor (wrapped: Token, esdt: Token)
      ensures State() == Swap(esdt, wrapped, 0, 0, false, false)
    {
      wrappedEsdtTokenId, esdtTokenId := wrapped, esdt;
      lockedBalance, issued, mayMint, mayBurn := 0, 0, false, false;
    }

    /** The chain grants or takes away roles. */
    method SetRoles(mint: bool, burn: bool)
      modifies this`mayMint, this`mayBurn
      ensures State() == old(State()).(mayMint := mint, mayBurn := burn)
    {
      mayMint, mayBurn := mint, burn;
    }

    function State(): Swap
      reads this
    {
      Swap(esdtTokenId, wrappedEsdtTokenId, lockedBalance, issued, mayMint, mayBurn)
    }

    method Revert(locked: nat, minted: int)
      modifies this`lockedBalance, this`issued
      ensures lockedBalance == locked && issued == minted
    {
      lockedBalance, issued := locked, minted;
    }

    method WrapEsdt(paid: Payment) returns (ok: bool, out: Payment)
      modifies this`lockedBalance, this`issued
      ensures ok <==> SwapWrap(old(State()), paid).Some?
      ensures ok ==> (State(), out) == SwapWrap(old(State()), paid).value
      ensures !ok ==> State() == old(State())
    {
      out := paid;
      if paid.token != esdtTokenId || paid.amount == 0 || !mayMint {
        return false, out;
      }
      lockedBalance := lockedBalance + paid.amount;
      issued := issued + paid.amount;
      ok, out := true, Payment(wrappedEsdtTokenId, paid.amount);
    }

    /** Both unwrap endpoints: they differ only in who is paid. */
    method UnwrapEsdtToAddress(paid: Payment, to: nat) returns (ok: bool, payout: Payout)
      modifies this`lockedBalance, this`issued
      ensures ok <==> SwapUnwrap(old(State()), paid).Some?
      ensures ok ==> State() == SwapUnwrap(old(State()), paid).value && payout == Payout(to, esdtTokenId, paid.amount)
      ensures !ok ==> State() == old(State())
    {
      payout := Payout(to, esdtTokenId, 0);
      if paid.token != wrappedEsdtTokenId || paid.amount == 0 || paid.amount > lockedBalance || !mayBurn {
        return false, payout;
      }
      issued := issued - paid.amount;
      lockedBalance := lockedBalance - paid.amount;
      ok, payout := true, Payout(to, esdtTokenId, paid.amount);
    }
  }

  /** rs/multi-transfer-esdt */
  class MultiTransferEsdt {
    const queue: TxBatchStorage
    const wrapper: BridgedTokensWrapper
    const swap: EsdtWEsdtSwap
    var maxBridgedAmount: map<Token, nat>
    var wrappingAddressSet: bool
    var swappingAddressSet: bool
    var minted: map<Token, nat>

    constructor (queue: TxBatchStorage, wrapper: BridgedTokensWrapper, swap: EsdtWEsdtSwap)
      ensures this.queue == queue && this.wrapper == wrapper && this.swap == swap
      ensures State() == MultiTransfer(queue.State(), map[], true, true, map[])
    {
      this.queue, this.wrapper, this.swap := queue, wrapper, swap;
      maxBridgedAmount, minted := map[], map[];
      wrappingAddressSet, swappingAddressSet := true, true;
    }

    function State(): MultiTransfer
      reads this, queue
    {
      MultiTransfer(queue.State(), maxBridgedAmount, wrappingAddressSet, swappingAddressSet, minted)
    }

    method SetMaxBridgedAmount(token: Token, amount: nat)
      modifies this`maxBridgedAmount
      ensures State() == old(State()).(maxAmount := old(maxBridgedAmount)[token := amount])
    {
      maxBridgedAmount := maxBridgedAmount[token := amount];
    }

    /** Which of the two contracts the delivery goes through; leaving an address out clears it. */
    method SetContractAddresses(hasWrapper: bool, hasSwap: bool)
      modifies this`wrappingAddressSet, this`swappingAddressSet
      ensures State() == old(State()).(hasWrapper := hasWrapper, hasSwap := hasSwap)
    {
      wrappingAddressSet, swappingAddressSet := hasWrapper, hasSwap;
    }

    /** Pays what can be paid, queues the rest for refund; any failure on the way undoes everything. */
    method BatchTransferEsdtToken(f: Facts, now: nat, transfers: seq<EthTransaction>)
      returns (ok: bool, payouts: seq<Payout>)
      modifies this, queue, wrapper, swap`lockedBalance, swap`issued
      ensures ok <==> BatchTransfer(f, now, old(State()), old(wrapper.State()), old(swap.State()), transfers).Some?
      ensures ok ==> Delivered(State(), wrapper.State(), swap.State(), payouts)
                     == BatchTransfer(f, now, old(State()), old(wrapper.State()), old(swap.State()), transfers).value
      ensures !ok ==> State() == old(State()) && wrapper.State() == old(wrapper.State())
                      && swap.State() == old(swap.State())
    {
      ghost var mt := State();
      var wrapperBefore, lockedBefore, issuedBefore := wrapper.State(), swap.lockedBalance, swap.issued;
      var payments, dests, refunds, newMinted := SortTransfers(f, now, transfers);
      var wrapped := payments;
      ok := true;
      if wrappingAddressSet {
        ok, wrapped := wrapper.WrapTokens(payments);
      }
      payouts := [];
      if ok {
        ok, payouts := DistributePayments(dests, wrapped);
      }
      if !ok {
        wrapper.Revert(wrapperBefore);
        swap.Revert(lockedBefore, issuedBefore);
        return false, [];
      }
      minted := newMinted;
      var ids := queue.AddMultipleTxToBatch(now, refunds);
    }

    /** The loop over the batch: three lists and the mints. */
    method SortTransfers(f: Facts, now: nat, transfers: seq<EthTransaction>)
      returns (payments: seq<Payment>, dests: seq<nat>, refunds: seq<Transaction>, newMinted: map<Token, nat>)
      ensures payments == PaymentsOf(Accepted(f, State(), transfers))
      ensures dests == DestinationsOf(Accepted(f, State(), transfers))
      ensures refunds == RefundRecords(now, Refused(f, State(), transfers))
      ensures newMinted == MintAll(minted, Accepted(f, State(), transfers))
    {
      payments, dests, refunds, newMinted := [], [], [], minted;
      for i := 0 to |transfers|
        invariant payments == PaymentsOf(Accepted(f, State(), transfers[..i]))
        invariant dests == DestinationsOf(Accepted(f, State(), transfers[..i]))
        invariant refunds == RefundRecords(now, Refused(f, State(), transfers[..i]))
        invariant newMinted == MintAll(minted, Accepted(f, State(), transfers[..i]))
      {
        assert transfers[..i + 1][..i] == transfers[..i];
        ghost var before := Accepted(f, State(), transfers[..i]);
        var tx := transfers[i];
        if tx.to == ZERO_ADDRESS || tx.to in f.contracts || tx.token !in f.mintable
           || AboveMaxAmount(maxBridgedAmount, tx.token, tx.amount) || (tx.to, tx.token) in f.frozen {
          refunds := refunds + [ConvertToRefundTx(now, tx)];
        } else {
          assert (before + [tx])[..|before|] == before;
          newMinted := Credit(newMinted, tx.token, tx.amount);
          dests := dests + [tx.to];
          payments := payments + [Payment(tx.token, tx.amount)];
        }
      }
      assert transfers[..|transfers|] == transfers;
    }

    method DistributePayments(dests: seq<nat>, payments: seq<Payment>) returns (ok: bool, payouts: seq<Payout>)
      requires |dests| == |payments|
      modifies swap`lockedBalance, swap`issued
      ensures ok <==> PayAll(old(State()), old(swap.State()), dests, payments).Some?
      ensures ok ==> (swap.State(), payouts) == PayAll(old(State()), old(swap.State()), dests, payments).value
    {
      payouts := [];
      ghost var mt, before := State(), swap.State();
      for i := 0 to |dests|
        invariant PayAll(mt, before, dests[..i], payments[..i]) == Some((swap.State(), payouts))
      {
        assert dests[..i + 1][..i] == dests[..i] && payments[..i + 1][..i] == payments[..i];
        var payout := Payout(dests[i], swap.esdtTokenId, 0);
        ok := swappingAddressSet;
        if ok {
          ok, payout := swap.UnwrapEsdtToAddress(payments[i], dests[i]);
        }
        if !ok {
          PayAllFails(mt, before, dests, payments, i + 1);
          return;
        }
        payouts := payouts + [payout];
      }
      assert dests[..|dests|] == dests && payments[..|dests|] == payments;
      ok := true;
    }

    method GetAndClearFirstRefundBatch() returns (txs: seq<TxFields>)
      modifies queue
      ensures txs == SplitAll(Batch(old(queue.State()), old(queue.State()).first))
      ensures State() == if txs == [] then old(State()) else old(State()).(queue := ClearFirst(old(queue.State())))
    {
      var current := queue.GetFirstBatchAnyStatus();
      txs := [];
      if current.Some? {
        var batch := new TxBatchMapper(queue, queue.firstBatchId);
        queue.ClearFirstBatch(batch);
        txs := current.value.1;
      }
    }
  }

  lemma {:induction false} PayAllFails(mt: MultiTransfer, s: Swap, dests: seq<nat>, payments: seq<Payment>, k: nat)
    requires |dests| == |payments| && k <= |dests| && PayAll(mt, s, dests[..k], payments[..k]).None?
    ensures PayAll(mt, s, dests, payments).None?
  {
    if k < |dests| {
      var n := |dests| - 1;
      assert dests[..n][..k] == dests[..k] && payments[..n][..k] == payments[..k];
      PayAllFails(mt, s, dests[..n], payments[..n], k);
    } else {
      assert dests[..k] == dests && payments[..k] == payments;
    }
  }
}
