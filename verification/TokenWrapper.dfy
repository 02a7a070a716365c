/** Decimal conversion, the bridged-tokens wrapper and the ESDT/WESDT swap, as functions on values. */
module TokenWrapper {
  import opened Collections
  import opened Transactions

  // ----- Conversion between decimals (rs/bridged-tokens-wrapper/src/dfp_big_uint.rs) -----

  function Pow10(n: nat): (p: nat)
    ensures p > 0
  {
    if n == 0 then 1 else 10 * Pow10(n - 1)
  }

  /** The power of ten is a 64-bit number; if it overflows, the call fails. */
  function Convert(amount: nat, from: nat, to: nat): Option<nat> {
    if from == to then Some(amount)
    else if from > to then
      if Pow10(from - to) < U64 then Some(amount / Pow10(from - to)) else None
    else
      if Pow10(to - from) < U64 then Some(amount * Pow10(to - from)) else None
  }

  /** An amount counted in the smallest unit of a token with `common` decimals. */
  function Scale(amount: int, decimals: nat, common: nat): int {
    if decimals <= common then amount * Pow10(common - decimals) else 0
  }

  lemma {:induction false} Pow10Adds(a: nat, b: nat)
    ensures Pow10(a + b) == Pow10(a) * Pow10(b)
  {
    if a > 0 {
      Pow10Adds(a - 1, b);
      assert Pow10(a + b) == 10 * Pow10(a - 1 + b);
      assert Pow10(a) * Pow10(b) == 10 * (Pow10(a - 1) * Pow10(b));
    }
  }

  lemma {:induction false} Pow10Grows(a: nat, b: nat)
    requires a <= b
    ensures Pow10(a) <= Pow10(b)
    decreases b
  {
    if a < b {
      Pow10Grows(a, b - 1);
    }
  }

  /** A conversion goes through exactly if the decimals differ by at most 19. */
  lemma {:induction false} ConversionLimit(amount: nat, from: nat, to: nat)
    ensures Convert(amount, from, to).Some? <==> from <= to + 19 && to <= from + 19
  {
    var diff := if from > to then from - to else to - from;
    assert Pow10(19) == 10_000_000_000_000_000_000 by {
      Pow10Adds(10, 9);
      assert Pow10(5) == 100_000;
      Pow10Adds(5, 5);
      Pow10Adds(5, 4);
    }
    if diff <= 19 {
      Pow10Grows(diff, 19);
    } else {
      Pow10Grows(20, diff);
    }
  }

  lemma {:induction false} DivideThenScale(amount: nat, p: nat, c: nat)
    requires p > 0
    ensures amount / p * (p * c) <= amount * c
  {
    var r := amount / p;
    DivisionRoundsDown(amount, p);
    assert r * (p * c) == (r * p) * c;
    MulMonotone(r * p, amount, c);
  }

  /** A conversion never creates value; going to more decimals loses none. */
  lemma {:induction false} ConversionNeverGains(amount: nat, from: nat, to: nat, common: nat)
    requires Convert(amount, from, to).Some?
    requires from <= common && to <= common
    ensures Scale(Convert(amount, from, to).value, to, common) <= Scale(amount, from, common)
    ensures from <= to ==> Scale(Convert(amount, from, to).value, to, common) == Scale(amount, from, common)
  {
    if from > to {
      Pow10Adds(from - to, common - from);
      DivideThenScale(amount, Pow10(from - to), Pow10(common - from));
    } else if from < to {
      var p, c := Pow10(to - from), Pow10(common - to);
      Pow10Adds(to - from, common - to);
      assert (amount * p) * c == amount * (p * c);
    }
  }

  /** `out` is `amount` moved from one number of decimals to another: multiplied exactly, or divided and rounded down.
      */
  ghost predicate IsConverted(amount: nat, from: nat, to: nat, out: nat) {
    if from <= to then out == amount * Pow10(to - from)
    else out * Pow10(from - to) <= amount < (out + 1) * Pow10(from - to)
  }

  /** A conversion rounds down by less than one unit. */
  lemma {:induction false} ConversionExact(amount: nat, from: nat, to: nat)
    requires Convert(amount, from, to).Some?
    ensures IsConverted(amount, from, to, Convert(amount, from, to).value)
  {
    if from > to {
      DivisionBounds(amount, Pow10(from - to));
    }
  }

  lemma {:induction false} DivisionBounds(a: nat, b: nat)
    requires b > 0
    ensures a / b * b <= a < (a / b + 1) * b
  {
    assert a == a / b * b + a % b;
    assert (a / b + 1) * b == a / b * b + b;
  }

  lemma {:induction false} DivisionRoundsDown(a: nat, b: nat)
    requires b > 0
    ensures a / b * b <= a
  {
  }

  lemma {:induction false} MulMonotone(a: nat, b: nat, c: nat)
    requires a <= b
    ensures a * c <= b * c
  {
  }

  lemma {:induction false} MulDivCancels(a: nat, b: nat)
    requires b > 0
    ensures a * b / b == a
  {
    var q := a * b / b;
    assert q * b <= a * b < (q + 1) * b;
    if q + 1 <= a {
      MulMonotone(q + 1, a, b);
    } else if a + 1 <= q {
      MulMonotone(a + 1, q, b);
    }
  }

  /** Out and back never pays more than went in, and exactly that if the other side has as many decimals. */
  lemma {:induction false} ConversionRoundTrip(amount: nat, from: nat, to: nat)
    requires Convert(amount, from, to).Some?
    ensures var back := Convert(Convert(amount, from, to).value, to, from);
            back.Some? && back.value <= amount && (from <= to ==> back.value == amount)
  {
    if from > to {
      DivisionRoundsDown(amount, Pow10(from - to));
    } else if from < to {
      MulDivCancels(amount, Pow10(to - from));
    }
  }

  // ----- The wrapper (rs/bridged-tokens-wrapper/src/lib.rs) -----

  /** `issued` records, per universal token, what the wrapper minted minus what it burnt. `mintRoles` and `burnRoles`
      are the tokens for which the chain has given the wrapper those roles. */
  datatype Wrapper = Wrapper(
    universals: set<Token>, universalOf: map<Token, Token>, decimals: map<Token, nat>, liquidity: map<Token, nat>,
    issued: map<Token, int>, mintRoles: set<Token>, burnRoles: set<Token>, paused: bool)

  predicate HasRoles(w: Wrapper, token: Token) {
    token in w.mintRoles && token in w.burnRoles
  }

  function AddWrappedToken(w: Wrapper, universal: Token, decimals: nat): Option<Wrapper> {
    if universal in w.universals || !HasRoles(w, universal) then None
    else Some(w.(decimals := w.decimals[universal := decimals], universals := w.universals + {universal}))
  }

  function UpdateWrappedToken(w: Wrapper, universal: Token, decimals: nat): Option<Wrapper> {
    if universal !in w.universals then None else Some(w.(decimals := w.decimals[universal := decimals]))
  }

  /** The chain tokens mapped to a universal token. */
  function ChainTokens(w: Wrapper, universal: Token): set<Token> {
    set c | c in w.universalOf && w.universalOf[c] == universal
  }

  /** Takes the universal token and all its chain tokens out. */
  function RemoveWrappedToken(w: Wrapper, universal: Token): Wrapper {
    var chain := ChainTokens(w, universal);
    w.(universals := w.universals - {universal}, universalOf := w.universalOf - chain,
       decimals := w.decimals - (chain + {universal}))
  }

  function WhitelistToken(w: Wrapper, chain: Token, decimals: nat, universal: Token): Option<Wrapper> {
    if chain in w.universalOf || !HasRoles(w, universal) then None
    else Some(w.(decimals := w.decimals[chain := decimals], universalOf := w.universalOf[chain := universal],
                 universals := w.universals + {universal}))
  }

  function UpdateWhitelistedToken(w: Wrapper, chain: Token, decimals: nat): Option<Wrapper> {
    if chain !in w.universalOf then None else Some(w.(decimals := w.decimals[chain := decimals]))
  }

  /** Also clears the decimals of a token that was never whitelisted. */
  function BlacklistToken(w: Wrapper, chain: Token): Wrapper {
    w.(decimals := w.decimals - {chain}, universalOf := w.universalOf - {chain})
  }

  /** What a chain token is worth in its universal token, which has to be minted for it. A decimals slot holding zero
      reads as not set. */
  function WrappedAmount(w: Wrapper, p: Payment): Option<nat> {
    if p.token !in w.universalOf then Some(p.amount)
    else
      var u := w.universalOf[p.token];
      if Get(w.decimals, u) == 0 || Get(w.decimals, p.token) == 0 || u !in w.mintRoles then None
      else Convert(p.amount, w.decimals[p.token], w.decimals[u])
  }

  /** A token without a universal counterpart is sent back unchanged. */
  function WrapOne(w: Wrapper, p: Payment): Option<(Wrapper, Payment)> {
    var amount := WrappedAmount(w, p);
    if amount.None? then None
    else if p.token !in w.universalOf then Some((w, p))
    else
      var u := w.universalOf[p.token];
      Some((w.(liquidity := Credit(w.liquidity, p.token, p.amount),
               issued := w.issued[u := GetInt(w.issued, u) + amount.value]),
            Payment(u, amount.value)))
  }

  function WrapAll(w: Wrapper, payments: seq<Payment>): (r: Option<(Wrapper, seq<Payment>)>)
    ensures r.Some? ==> |r.value.1| == |payments|
  {
    if payments == [] then Some((w, []))
    else
      var before := WrapAll(w, payments[..|payments| - 1]);
      if before.None? then None
      else
        var one := WrapOne(before.value.0, payments[|payments| - 1]);
        if one.None? then None else Some((one.value.0, before.value.1 + [one.value.1]))
  }

  function WrapTokens(w: Wrapper, payments: seq<Payment>): (r: Option<(Wrapper, seq<Payment>)>)
    ensures r.Some? ==> |r.value.1| == |payments|
  {
    if w.paused then None else WrapAll(w, payments)
  }

  function UnwrapToken(w: Wrapper, paid: Payment, requested: Token): Option<(Wrapper, Payment)> {
    if w.paused || paid.amount == 0 || requested !in w.universalOf || w.universalOf[requested] != paid.token
       || Get(w.decimals, paid.token) == 0 || Get(w.decimals, requested) == 0 || paid.token !in w.burnRoles then None
    else
      var amount := Convert(paid.amount, w.decimals[paid.token], w.decimals[requested]);
      if amount.None? || amount.value > Get(w.liquidity, requested) then None
      else
        Some((w.(liquidity := w.liquidity[requested := Get(w.liquidity, requested) - amount.value],
                 issued := w.issued[paid.token := GetInt(w.issued, paid.token) - paid.amount]),
              Payment(requested, amount.value)))
  }

  function DepositLiquidity(w: Wrapper, paid: Payment): Wrapper {
    w.(liquidity := Credit(w.liquidity, paid.token, paid.amount))
  }

  // ----- The swap (rs/wesdt-swap/src/lib.rs) -----

  /** `issued` records what the swap minted minus what it burnt. `mayMint` and `mayBurn` are the roles for WESDT that
      the chain has given the swap. */
  datatype Swap = Swap(esdt: Token, wesdt: Token, locked: nat, issued: int, mayMint: bool, mayBurn: bool)

  function SwapWrap(s: Swap, paid: Payment): Option<(Swap, Payment)> {
    if paid.token != s.esdt || paid.amount == 0 || !s.mayMint then None
    else Some((s.(locked := s.locked + paid.amount, issued := s.issued + paid.amount),
               Payment(s.wesdt, paid.amount)))
  }

  function SwapUnwrap(s: Swap, paid: Payment): Option<Swap> {
    if paid.token != s.wesdt || paid.amount == 0 || paid.amount > s.locked || !s.mayBurn then None
    else Some(s.(locked := s.locked - paid.amount, issued := s.issued - paid.amount))
  }

  // ----- Backing -----

  /** A universal token and its chain tokens have at most `common` decimals. */
  ghost predicate DecimalsWithin(w: Wrapper, universal: Token, common: nat) {
    && Get(w.decimals, universal) <= common
    && forall c :: c in w.universalOf && w.universalOf[c] == universal ==> Get(w.decimals, c) <= common
  }

  /** The chain tokens that back a universal token, in common units. */
  ghost function BackingMap(w: Wrapper, universal: Token, common: nat): map<Token, nat> {
    map c | c in w.liquidity && c in w.universalOf && w.universalOf[c] == universal ::
      Scale(w.liquidity[c], Get(w.decimals, c), common) as nat
  }

  ghost function Backing(w: Wrapper, universal: Token, common: nat): nat {
    Total(BackingMap(w, universal, common))
  }

  /** Backing that no issued universal token claims. */
  ghost function Surplus(w: Wrapper, universal: Token, common: nat): int {
    Backing(w, universal, common) - Scale(GetInt(w.issued, universal), Get(w.decimals, universal), common)
  }

  /** A universal token and its chain tokens have `common` decimals; the universal token may not be set up yet. */
  ghost predicate UniformDecimals(w: Wrapper, universal: Token, common: nat) {
    && (|| Get(w.decimals, universal) == common
        || (Get(w.decimals, universal) == 0 && GetInt(w.issued, universal) == 0))
    && forall c :: c in w.universalOf && w.universalOf[c] == universal ==> Get(w.decimals, c) == common
  }

  ghost predicate SameConfig(w: Wrapper, v: Wrapper) {
    v == w.(liquidity := v.liquidity, issued := v.issued)
  }

  lemma {:induction false} ScaleAdds(a: int, b: int, decimals: nat, common: nat)
    ensures Scale(a + b, decimals, common) == Scale(a, decimals, common) + Scale(b, decimals, common)
  {
  }

  /** What a mapped chain token contributes to the backing of a universal token. */
  ghost function Contribution(w: Wrapper, chain: Token, universal: Token, common: nat): nat {
    if chain in w.universalOf && w.universalOf[chain] == universal
    then Scale(Get(w.liquidity, chain), Get(w.decimals, chain), common) as nat else 0
  }

  lemma {:induction false} BackingWithout(w: Wrapper, token: Token, universal: Token, common: nat)
    ensures var m := BackingMap(w, universal, common);
            Backing(w, universal, common) == Total(m - {token}) + Contribution(w, token, universal, common)
  {
    var m := BackingMap(w, universal, common);
    if token in m {
      TotalRemove(m, token);
    } else {
      assert m - {token} == m;
    }
  }

  /** Changing the liquidity of one chain token moves the backing of its universal token only. */
  lemma {:induction false} BackingUpdate(w: Wrapper, token: Token, amount: nat, universal: Token, common: nat)
    ensures var v := w.(liquidity := w.liquidity[token := amount]);
            Backing(v, universal, common) == Backing(w, universal, common)
              + Contribution(v, token, universal, common) - Contribution(w, token, universal, common)
  {
    var v := w.(liquidity := w.liquidity[token := amount]);
    assert BackingMap(w, universal, common) - {token} == BackingMap(v, universal, common) - {token};
    BackingWithout(w, token, universal, common);
    BackingWithout(v, token, universal, common);
  }

  /** Liquidity of a chain token up or down, issuance of its universal token up or down. */
  function Moved(w: Wrapper, token: Token, liquidity: int, issued: int): Wrapper
    requires token in w.universalOf && Get(w.liquidity, token) + liquidity >= 0
  {
    var u := w.universalOf[token];
    w.(liquidity := w.liquidity[token := Get(w.liquidity, token) + liquidity],
       issued := w.issued[u := GetInt(w.issued, u) + issued])
  }

  lemma {:induction false} SurplusMoved(
    w: Wrapper, token: Token, liquidity: int, issued: int, universal: Token, common: nat)
    requires token in w.universalOf && Get(w.liquidity, token) + liquidity >= 0
    ensures var v, u := Moved(w, token, liquidity, issued), w.universalOf[token];
            Surplus(v, universal, common) == Surplus(w, universal, common) +
              if u == universal
              then Scale(liquidity, Get(w.decimals, token), common) - Scale(issued, Get(w.decimals, u), common)
              else 0
  {
    var v, u := Moved(w, token, liquidity, issued), w.universalOf[token];
    BackingUpdate(w, token, v.liquidity[token], universal, common);
    assert BackingMap(v, universal, common) == BackingMap(w.(liquidity := v.liquidity), universal, common);
    ScaleAdds(Get(w.liquidity, token), liquidity, Get(w.decimals, token), common);
    ScaleAdds(GetInt(w.issued, u), issued, Get(w.decimals, u), common);
  }

  /** The surplus did not shrink, and did not grow either if all decimals agree. */
  ghost predicate SurplusKept(w: Wrapper, v: Wrapper, universal: Token, common: nat) {
    && SameConfig(w, v)
    && Surplus(v, universal, common) >= Surplus(w, universal, common)
    && (UniformDecimals(w, universal, common) ==>
          Surplus(v, universal, common) == Surplus(w, universal, common) && UniformDecimals(v, universal, common))
  }

  /** Wrapping never eats into the surplus. */
  lemma {:induction false} WrapOneSurplus(w: Wrapper, p: Payment, universal: Token, common: nat)
    requires WrapOne(w, p).Some? && DecimalsWithin(w, universal, common)
    ensures SurplusKept(w, WrapOne(w, p).value.0, universal, common)
  {
    if p.token in w.universalOf {
      var u, amount := w.universalOf[p.token], WrappedAmount(w, p).value;
      assert WrapOne(w, p).value.0 == Moved(w, p.token, p.amount, amount);
      SurplusMoved(w, p.token, p.amount, amount, universal, common);
      if u == universal {
        ConversionNeverGains(p.amount, w.decimals[p.token], w.decimals[u], common);
      }
    }
  }

  lemma {:induction false} WrapAllSurplus(w: Wrapper, payments: seq<Payment>, universal: Token, common: nat)
    requires WrapAll(w, payments).Some? && DecimalsWithin(w, universal, common)
    ensures SurplusKept(w, WrapAll(w, payments).value.0, universal, common)
  {
    if payments != [] {
      var n := |payments| - 1;
      WrapAllSurplus(w, payments[..n], universal, common);
      WrapOneSurplus(WrapAll(w, payments[..n]).value.0, payments[n], universal, common);
    }
  }

  /** Unwrapping never eats into the surplus: what leaves is worth no more than what is burnt. */
  lemma {:induction false} UnwrapSurplus(w: Wrapper, paid: Payment, requested: Token, universal: Token, common: nat)
    requires UnwrapToken(w, paid, requested).Some? && DecimalsWithin(w, universal, common)
    ensures SurplusKept(w, UnwrapToken(w, paid, requested).value.0, universal, common)
  {
    var out := UnwrapToken(w, paid, requested).value.1;
    UnwrapMoves(w, paid, requested);
    SurplusMoved(w, requested, 0 - out.amount, 0 - paid.amount, universal, common);
    if paid.token == universal {
      RedeemedValue(paid.amount, w.decimals[paid.token], w.decimals[requested], common);
    }
  }

  lemma {:induction false} UnwrapMoves(w: Wrapper, paid: Payment, requested: Token)
    requires UnwrapToken(w, paid, requested).Some?
    ensures var (v, out) := UnwrapToken(w, paid, requested).value;
            && requested in w.universalOf && w.universalOf[requested] == paid.token
            && out.amount <= Get(w.liquidity, requested)
            && v == Moved(w, requested, 0 - out.amount, 0 - paid.amount)
  {
  }

  /** What leaves is worth no more than what is burnt, in signed amounts. */
  lemma {:induction false} RedeemedValue(amount: nat, from: nat, to: nat, common: nat)
    requires Convert(amount, from, to).Some? && from <= common && to <= common
    ensures Scale(0 - Convert(amount, from, to).value, to, common) >= Scale(0 - amount, from, common)
    ensures from <= to ==> Scale(0 - Convert(amount, from, to).value, to, common) == Scale(0 - amount, from, common)
  {
    ScaleNegates(Convert(amount, from, to).value, to, common);
    ScaleNegates(amount, from, common);
    ConversionNeverGains(amount, from, to, common);
  }

  lemma {:induction false} ScaleNegates(a: nat, decimals: nat, common: nat)
    ensures Scale(0 - a, decimals, common) == 0 - Scale(a, decimals, common)
  {
    ScaleAdds(0 - a, a, decimals, common);
  }

  lemma {:induction false} DepositSurplus(w: Wrapper, paid: Payment, universal: Token, common: nat)
    ensures Surplus(DepositLiquidity(w, paid), universal, common) == Surplus(w, universal, common) +
              if paid.token in w.universalOf && w.universalOf[paid.token] == universal
              then Scale(paid.amount, Get(w.decimals, paid.token), common) else 0
  {
    BackingUpdate(w, paid.token, Get(w.liquidity, paid.token) + paid.amount, universal, common);
    ScaleAdds(Get(w.liquidity, paid.token), paid.amount, Get(w.decimals, paid.token), common);
  }

  /** Wrapping and unwrapping the same token at once works unless the payment rounds down to nothing or the burn role is
      missing. It pays back at most the payment, exactly it if the universal token has at least as many decimals, and
      leaves the wrapper holding the rounding loss. */
  lemma {:induction false} WrapUnwrapRoundTrip(w: Wrapper, p: Payment)
    requires !w.paused && p.token in w.universalOf && WrapOne(w, p).Some?
    ensures var (v, wrapped) := WrapOne(w, p).value;
            var back := UnwrapToken(v, wrapped, p.token);
            && (back.Some? <==> wrapped.amount > 0 && wrapped.token in w.burnRoles)
            && (back.Some? ==>
                  && back.value.1.token == p.token && back.value.1.amount <= p.amount
                  && Get(back.value.0.liquidity, p.token)
                     == Get(w.liquidity, p.token) + (p.amount - back.value.1.amount)
                  && GetInt(back.value.0.issued, wrapped.token) == GetInt(w.issued, wrapped.token)
                  && (Get(w.decimals, p.token) <= Get(w.decimals, wrapped.token) ==> back.value.1 == p))
  {
    var u := w.universalOf[p.token];
    ConversionRoundTrip(p.amount, w.decimals[p.token], w.decimals[u]);
  }

  // ----- Configuration -----

  /** A decimals slot that holds zero reads as not set: neither wrapping nor unwrapping goes through. */
  lemma {:induction false} ZeroDecimalsFail(w: Wrapper, chain: Token, amount: nat)
    requires chain in w.universalOf
    requires Get(w.decimals, chain) == 0 || Get(w.decimals, w.universalOf[chain]) == 0
    ensures WrapOne(w, Payment(chain, amount)).None?
    ensures UnwrapToken(w, Payment(w.universalOf[chain], amount), chain).None?
  {
  }

  /** Changing the decimals and the mapping of one token changes the surplus by what it contributes to the backing, less
      the change in what the issued units of that token itself are worth. */
  lemma {:induction false} ConfigSurplus(w: Wrapper, v: Wrapper, token: Token, universal: Token, common: nat)
    requires v.liquidity == w.liquidity && v.issued == w.issued
    requires v.universalOf - {token} == w.universalOf - {token} && v.decimals - {token} == w.decimals - {token}
    ensures Surplus(v, universal, common) ==
            Surplus(w, universal, common)
            + Contribution(v, token, universal, common) - Contribution(w, token, universal, common)
            - (if token == universal
               then Scale(GetInt(w.issued, universal), Get(v.decimals, universal), common)
                    - Scale(GetInt(w.issued, universal), Get(w.decimals, universal), common)
               else 0)
  {
    var m, n := BackingMap(w, universal, common), BackingMap(v, universal, common);
    assert forall c :: c != token ==> (c in v.universalOf <==> c in v.universalOf - {token});
    assert forall c :: c != token ==> (c in w.universalOf <==> c in w.universalOf - {token});
    assert forall c :: c != token ==> (c in v.decimals <==> c in v.decimals - {token});
    assert forall c :: c != token ==> (c in w.decimals <==> c in w.decimals - {token});
    assert m - {token} == n - {token};
    BackingWithout(w, token, universal, common);
    BackingWithout(v, token, universal, common);
  }

  /** Whitelisting a chain token that is not itself an issued universal token can only add to the backing. */
  lemma {:induction false} WhitelistSurplus(
    w: Wrapper, chain: Token, decimals: nat, target: Token, universal: Token, common: nat)
    requires WhitelistToken(w, chain, decimals, target).Some?
    requires chain == universal ==> GetInt(w.issued, chain) == 0
    ensures Surplus(WhitelistToken(w, chain, decimals, target).value, universal, common) ==
            Surplus(w, universal, common)
            + if target == universal then Scale(Get(w.liquidity, chain), decimals, common) else 0
  {
    ConfigSurplus(w, WhitelistToken(w, chain, decimals, target).value, chain, universal, common);
  }

  /** Setting up a universal token that was never issued and is no chain token changes no surplus. */
  lemma {:induction false} AddWrappedSurplus(w: Wrapper, token: Token, decimals: nat, universal: Token, common: nat)
    requires AddWrappedToken(w, token, decimals).Some?
    requires token == universal ==> GetInt(w.issued, token) == 0
    requires token in w.universalOf ==> w.universalOf[token] != universal
    ensures Surplus(AddWrappedToken(w, token, decimals).value, universal, common) == Surplus(w, universal, common)
  {
    ConfigSurplus(w, AddWrappedToken(w, token, decimals).value, token, universal, common);
  }

  /** New decimals for a chain token revalue its liquidity; nothing else changes. */
  lemma {:induction false} UpdateSurplus(w: Wrapper, chain: Token, decimals: nat, universal: Token, common: nat)
    requires UpdateWhitelistedToken(w, chain, decimals).Some?
    requires chain == universal ==> GetInt(w.issued, chain) == 0
    ensures Surplus(UpdateWhitelistedToken(w, chain, decimals).value, universal, common)
            == Surplus(w, universal, common) - Contribution(w, chain, universal, common)
               + if w.universalOf[chain] == universal then Scale(Get(w.liquidity, chain), decimals, common) else 0
  {
    ConfigSurplus(w, UpdateWhitelistedToken(w, chain, decimals).value, chain, universal, common);
  }

  /** Removing a universal token leaves no backing, so it stays covered if and only if none of it is in circulation. */
  lemma {:induction false} RemoveSurplus(w: Wrapper, universal: Token, common: nat)
    ensures Backing(RemoveWrappedToken(w, universal), universal, common) == 0
    ensures Surplus(RemoveWrappedToken(w, universal), universal, common) >= 0 <==>
            GetInt(w.issued, universal) <= 0
  {
    var v := RemoveWrappedToken(w, universal);
    assert BackingMap(v, universal, common) == map[];
    ScaleSign(GetInt(w.issued, universal), common);
  }

  lemma {:induction false} ScaleSign(amount: int, common: nat)
    ensures Scale(amount, 0, common) <= 0 <==> amount <= 0
  {
    var p := Pow10(common);
    if amount > 0 {
      MulMonotone(1, amount, p);
    } else {
      MulMonotone(0, 0 - amount, p);
    }
  }

  /** Blacklisting takes the liquidity of the token out of the backing, so a covered universal token stays covered if
      and only if that liquidity is no more than its surplus. */
  lemma {:induction false} BlacklistSurplus(w: Wrapper, chain: Token, universal: Token, common: nat)
    requires chain == universal ==> GetInt(w.issued, chain) == 0
    ensures Surplus(BlacklistToken(w, chain), universal, common)
            == Surplus(w, universal, common) - Contribution(w, chain, universal, common)
    ensures Surplus(BlacklistToken(w, chain), universal, common) >= 0
            <==> Contribution(w, chain, universal, common) <= Surplus(w, universal, common)
  {
    ConfigSurplus(w, BlacklistToken(w, chain), chain, universal, common);
  }
}
