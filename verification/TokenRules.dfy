/** The wrapper's and the swap's calls said in the fields of their state: when they go through and what they move. */
module TokenRules {
  import opened Collections
  import opened Transactions
  import opened TokenWrapper

  /** Both decimals are set and close enough. */
  predicate Convertible(w: Wrapper, a: Token, b: Token) {
    && a in w.decimals && b in w.decimals && w.decimals[a] > 0 && w.decimals[b] > 0
    && w.decimals[a] <= w.decimals[b] + 19 && w.decimals[b] <= w.decimals[a] + 19
  }

  /** Of a token's books only this one moves, by this much. */
  ghost predicate OnlyMoves(before: map<Token, nat>, after: map<Token, nat>, token: Token, delta: int) {
    && Get(after, token) == Get(before, token) + delta
    && forall t :: t != token ==> Get(after, t) == Get(before, t)
  }

  ghost predicate OnlyIssues(before: map<Token, int>, after: map<Token, int>, token: Token, delta: int) {
    && GetInt(after, token) == GetInt(before, token) + delta
    && forall t :: t != token ==> GetInt(after, t) == GetInt(before, t)
  }

  /** A token without universal counterpart comes back as it is. */
  lemma {:induction false} UnmappedPassesThrough(w: Wrapper, p: Payment)
    requires p.token !in w.universalOf
    ensures WrapOne(w, p) == Some((w, p))
  {
  }

  /** A mapped token is wrapped exactly if its decimals allow it and the universal token can be minted. It becomes its
      universal token, converted and rounded down, and the whole payment becomes liquidity. */
  lemma {:induction false} WrapIs(w: Wrapper, p: Payment)
    requires p.token in w.universalOf
    ensures WrapOne(w, p).Some? <==>
            Convertible(w, p.token, w.universalOf[p.token]) && w.universalOf[p.token] in w.mintRoles
    ensures WrapOne(w, p).Some? ==>
            var (v, out) := WrapOne(w, p).value;
            && out.token == w.universalOf[p.token]
            && IsConverted(p.amount, Get(w.decimals, p.token), Get(w.decimals, out.token), out.amount)
            && OnlyMoves(w.liquidity, v.liquidity, p.token, p.amount)
            && OnlyIssues(w.issued, v.issued, out.token, out.amount)
            && v == w.(liquidity := v.liquidity, issued := v.issued)
  {
    var u := w.universalOf[p.token];
    ConversionLimit(p.amount, Get(w.decimals, p.token), Get(w.decimals, u));
    if WrapOne(w, p).Some? {
      ConversionExact(p.amount, Get(w.decimals, p.token), Get(w.decimals, u));
    }
  }

  /** A universal token is unwrapped exactly if the wrapper runs, something is paid, the requested token is mapped to
      it, decimals allow it, it can be burnt, and the liquidity of the requested token covers the converted amount. */
  lemma {:induction false} UnwrapIs(w: Wrapper, paid: Payment, requested: Token)
    ensures UnwrapToken(w, paid, requested).Some? <==>
            && !w.paused && paid.amount > 0 && requested in w.universalOf && w.universalOf[requested] == paid.token
            && Convertible(w, paid.token, requested) && paid.token in w.burnRoles
            && exists out: nat :: IsConverted(paid.amount, Get(w.decimals, paid.token), Get(w.decimals, requested), out)
                                  && out <= Get(w.liquidity, requested)
    ensures UnwrapToken(w, paid, requested).Some? ==>
            var (v, out) := UnwrapToken(w, paid, requested).value;
            && out.token == requested
            && IsConverted(paid.amount, Get(w.decimals, paid.token), Get(w.decimals, requested), out.amount)
            && OnlyMoves(w.liquidity, v.liquidity, requested, 0 - out.amount)
            && OnlyIssues(w.issued, v.issued, paid.token, 0 - paid.amount)
            && v == w.(liquidity := v.liquidity, issued := v.issued)
  {
    var from, to := Get(w.decimals, paid.token), Get(w.decimals, requested);
    ConversionLimit(paid.amount, from, to);
    if Convert(paid.amount, from, to).Some? {
      ConversionExact(paid.amount, from, to);
      forall out: nat | IsConverted(paid.amount, from, to, out) ensures out == Convert(paid.amount, from, to).value {
        ConvertedUnique(paid.amount, from, to, out, Convert(paid.amount, from, to).value);
      }
    }
  }

  /** There is only one converted amount. */
  lemma {:induction false} ConvertedUnique(amount: nat, from: nat, to: nat, a: nat, b: nat)
    requires IsConverted(amount, from, to, a) && IsConverted(amount, from, to, b)
    ensures a == b
  {
    if from > to {
      var p := Pow10(from - to);
      if a < b {
        MulMonotone(a + 1, b, p);
      } else if b < a {
        MulMonotone(b + 1, a, p);
      }
    }
  }

  /** The swap takes a positive amount of the base token if it may mint, and gives as much WESDT. */
  lemma {:induction false} SwapWrapIs(s: Swap, paid: Payment)
    ensures SwapWrap(s, paid).Some? <==> paid.token == s.esdt && paid.amount > 0 && s.mayMint
    ensures SwapWrap(s, paid).Some? ==>
            SwapWrap(s, paid).value
            == (s.(locked := s.locked + paid.amount, issued := s.issued + paid.amount), Payment(s.wesdt, paid.amount))
  {
  }

  /** It takes a positive amount of WESDT back if it may burn and the pot covers it. */
  lemma {:induction false} SwapUnwrapIs(s: Swap, paid: Payment)
    ensures SwapUnwrap(s, paid).Some? <==>
            paid.token == s.wesdt && 0 < paid.amount <= s.locked && s.mayBurn
    ensures SwapUnwrap(s, paid).Some? ==>
            SwapUnwrap(s, paid).value == s.(locked := s.locked - paid.amount, issued := s.issued - paid.amount)
  {
  }

  // ----- Changes of tokens -----

  /** Of the mapping and the decimals only those of one token change. */
  ghost predicate OnlyToken(w: Wrapper, v: Wrapper, token: Token) {
    && (forall t :: t != token ==> (t in v.universalOf <==> t in w.universalOf)
                                   && (t in v.universalOf ==> v.universalOf[t] == w.universalOf[t]))
    && (forall t :: t != token ==> Get(v.decimals, t) == Get(w.decimals, t))
    && v.liquidity == w.liquidity && v.issued == w.issued && v.paused == w.paused
    && v.mintRoles == w.mintRoles && v.burnRoles == w.burnRoles
  }

  lemma {:induction false} AddWrappedIs(w: Wrapper, universal: Token, decimals: nat)
    ensures AddWrappedToken(w, universal, decimals).Some? <==>
            universal !in w.universals && universal in w.mintRoles && universal in w.burnRoles
    ensures AddWrappedToken(w, universal, decimals).Some? ==>
            var v := AddWrappedToken(w, universal, decimals).value;
            && OnlyToken(w, v, universal) && v.universalOf == w.universalOf && Get(v.decimals, universal) == decimals
            && v.universals == w.universals + {universal}
  {
  }

  lemma {:induction false} WhitelistIs(w: Wrapper, chain: Token, decimals: nat, universal: Token)
    ensures WhitelistToken(w, chain, decimals, universal).Some? <==>
            chain !in w.universalOf && universal in w.mintRoles && universal in w.burnRoles
    ensures WhitelistToken(w, chain, decimals, universal).Some? ==>
            var v := WhitelistToken(w, chain, decimals, universal).value;
            && OnlyToken(w, v, chain) && Get(v.decimals, chain) == decimals
            && chain in v.universalOf && v.universalOf[chain] == universal
            && v.universals == w.universals + {universal}
  {
  }

  lemma {:induction false} BlacklistIs(w: Wrapper, chain: Token)
    ensures var v := BlacklistToken(w, chain);
            && OnlyToken(w, v, chain) && chain !in v.universalOf && Get(v.decimals, chain) == 0
            && v.universals == w.universals
  {
  }

  /** Depositing liquidity raises that of the deposited token alone. */
  lemma {:induction false} DepositIs(w: Wrapper, paid: Payment)
    ensures var v := DepositLiquidity(w, paid);
            OnlyMoves(w.liquidity, v.liquidity, paid.token, paid.amount) && v == w.(liquidity := v.liquidity)
  {
  }
}
