/** Token conservation over whole runs: the safe, the wrapper, the swap and the stakes. */
module TokenRuns {
  import opened Collections
  import opened Transactions
  import opened BatchQueue
  import opened SafeLedger
  import opened TokenWrapper
  import opened Delivery
  import opened MultisigTable
  import opened Bridge
  import opened BridgeInvariant

  /** In every reachable state the safe's balance of each token is what waiting transactions lock, plus fees, plus
      refunds due, plus what a missing burn role left behind; so every refund due can be claimed. */
  lemma {:induction false} SafeBooksBalance(w: World, hash: Hasher, steps: seq<Step>, token: Token, user: nat)
    requires Initial(w)
    ensures var s := Run(w, hash, steps).safe;
            && Get(s.balance, token) == Locked(Waiting(s.queue), token) + Get(s.fees, token)
                 + Total(RefundsIn(s.refunds, token)) + Get(s.stranded, token)
            && (Claim(s, user, token).Some? <==> Get(s.refunds, (user, token)) > 0)
            && NoncesOk(Waiting(s.queue), s.queue.lastNonce)
  {
    InitialOk(w, hash);
    RunOk(w, hash, steps);
    var r := Run(w, hash, steps);
    assert Get(r.safe.balance, token) == Locked(Waiting(r.safe.queue), token) + Owed(r.safe, token);
    ClaimIsFunded(r.safe, r.now, user, token);
  }

  /** In every reachable state the board counter is right, the quorum can be met and the EGLD is all there. */
  lemma {:induction false} BoardAndStakesAgree(w: World, hash: Hasher, steps: seq<Step>)
    requires Initial(w)
    ensures var m := Run(w, hash, steps).ms;
            && m.boardCount == |m.board| && m.quorum <= m.boardCount
            && m.egld == Total(m.staked) + m.slashed
  {
    InitialOk(w, hash);
    RunOk(w, hash, steps);
  }

  // ----- Wrapper and swap -----

  /** What a step does to the backing of a universal token apart from issuing and redeeming it, in common units: the
      owner deposits liquidity, or changes the tokens that count. */
  ghost function BackingNow(w: World, step: Step, universal: Token, common: nat): int {
    if step.AddLiquidity? && step.paid.token in w.wrapper.universalOf
       && w.wrapper.universalOf[step.paid.token] == universal
    then Scale(step.paid.amount, Get(w.wrapper.decimals, step.paid.token), common)
    else if IsConfigStep(step) && Reconfigured(w.wrapper, step).Some?
    then Backing(Reconfigured(w.wrapper, step).value, universal, common) - Backing(w.wrapper, universal, common)
    else 0
  }

  ghost function BackingAdded(w: World, hash: Hasher, steps: seq<Step>, universal: Token, common: nat): int {
    if steps == [] then 0
    else
      var n := |steps| - 1;
      var u := Run(w, hash, steps[..n]);
      BackingAdded(w, hash, steps[..n], universal, common) +
      (if Next(u, hash, steps[n]).Some? then BackingNow(u, steps[n], universal, common) else 0)
  }

  /** What the owner has to observe when changing tokens: keep the decimals of a universal token in circulation, and
      stay within the common decimals. */
  ghost predicate TokensGuarded(w: World, step: Step, universal: Token, common: nat) {
    IsConfigStep(step) && Reconfigured(w.wrapper, step).Some? ==>
      var v := Reconfigured(w.wrapper, step).value;
      && (Get(v.decimals, universal) == Get(w.wrapper.decimals, universal) || GetInt(v.issued, universal) == 0)
      && DecimalsWithin(v, universal, common)
  }

  /** The same with equal decimals throughout. */
  ghost predicate TokensUniform(w: World, step: Step, universal: Token, common: nat) {
    && TokensGuarded(w, step, universal, common)
    && (IsConfigStep(step) && Reconfigured(w.wrapper, step).Some? ==>
          UniformDecimals(Reconfigured(w.wrapper, step).value, universal, common))
  }

  ghost function Guarded(universal: Token, common: nat): (World, Step) -> bool {
    (w: World, step: Step) => TokensGuarded(w, step, universal, common)
  }

  ghost function Uniform(universal: Token, common: nat): (World, Step) -> bool {
    (w: World, step: Step) => TokensUniform(w, step, universal, common)
  }

  /** The surplus grew at least by `added`, and by exactly that if decimals agree; the swap's pot follows its mints. */
  ghost predicate SurplusGrows(w: World, r: World, universal: Token, common: nat, added: int) {
    && Surplus(r.wrapper, universal, common) >= Surplus(w.wrapper, universal, common) + added
    && (UniformDecimals(w.wrapper, universal, common) ==>
          Surplus(r.wrapper, universal, common) == Surplus(w.wrapper, universal, common) + added)
    && r.swap.locked - r.swap.issued == w.swap.locked - w.swap.issued
    && r.swap.wesdt == w.swap.wesdt && r.swap.esdt == w.swap.esdt
  }

  /** One step of a guarded run. */
  ghost predicate SurplusStep(w: World, r: World, step: Step, universal: Token, common: nat) {
    && SurplusGrows(w, r, universal, common, BackingNow(w, step, universal, common))
    && DecimalsWithin(r.wrapper, universal, common)
    && (UniformDecimals(w.wrapper, universal, common) && TokensUniform(w, step, universal, common) ==>
          UniformDecimals(r.wrapper, universal, common))
  }

  /** Pausing and roles do not matter. */
  lemma {:induction false} SettingsSurplus(w: Wrapper, v: Wrapper, universal: Token, common: nat)
    requires v == w.(paused := v.paused, mintRoles := v.mintRoles, burnRoles := v.burnRoles)
    ensures Surplus(v, universal, common) == Surplus(w, universal, common)
  {
    assert BackingMap(v, universal, common) == BackingMap(w, universal, common);
  }

  lemma {:induction false} ReconfiguredBooks(v: Wrapper, step: Step)
    requires IsConfigStep(step) && Reconfigured(v, step).Some?
    ensures Reconfigured(v, step).value.issued == v.issued
  {
  }

  lemma {:induction false} ConfigStepSurplus(w: World, step: Step, universal: Token, common: nat)
    requires TokensGuarded(w, step, universal, common) && IsConfigStep(step) && TokenNext(w, step).Some?
    ensures SurplusStep(w, TokenNext(w, step).value, step, universal, common)
  {
    ReconfiguredBooks(w.wrapper, step);
  }

  lemma {:induction false} TokenStepSurplus(w: World, step: Step, universal: Token, common: nat)
    requires DecimalsWithin(w.wrapper, universal, common)
    requires IsTokenStep(step) && !IsConfigStep(step) && TokenNext(w, step).Some?
    ensures SurplusStep(w, TokenNext(w, step).value, step, universal, common)
  {
    if step.WrapperPause? || step.RolesChange? {
      SettingsSurplus(w.wrapper, TokenNext(w, step).value.wrapper, universal, common);
    } else if step.AddLiquidity? {
      DepositSurplus(w.wrapper, step.paid, universal, common);
    } else if step.WrapChainTokens? {
      WrapAllSurplus(w.wrapper, step.payments, universal, common);
    } else if step.UnwrapUniversal? {
      UnwrapSurplus(w.wrapper, step.paid, step.requested, universal, common);
    }
  }

  lemma {:induction false} DepositStepSurplus(w: World, step: Step, universal: Token, common: nat)
    requires DecimalsWithin(w.wrapper, universal, common)
    requires step.DepositBy? && Deposit(w, step.caller, step.to, step.paid, step.facts).Some?
    ensures SurplusStep(w, Deposit(w, step.caller, step.to, step.paid, step.facts).value, step, universal, common)
  {
    UnwrapSurplus(w.wrapper, SwapWrap(w.swap, step.paid).value.1, w.depositToken, universal, common);
    PlainStep(w, Deposit(w, step.caller, step.to, step.paid, step.facts).value, step, universal, common);
  }

  lemma {:induction false} DeliveryKept(w: World, step: Step, universal: Token, common: nat)
    requires DecimalsWithin(w.wrapper, universal, common)
    requires step.PerformBy? && PerformAction(w, step.caller, step.id, step.facts).Some?
    ensures var r := PerformAction(w, step.caller, step.id, step.facts).value;
            && SurplusKept(w.wrapper, r.wrapper, universal, common)
            && r.swap.locked - r.swap.issued == w.swap.locked - w.swap.issued
            && r.swap.wesdt == w.swap.wesdt && r.swap.esdt == w.swap.esdt
  {
    var a := ActionAt(w.ms, step.id);
    if a.TransferBatch? {
      DeliverySurplus(step.facts, w.now, w.mt, w.wrapper, w.swap, a.transfers, universal, common);
    }
  }

  lemma {:induction false} DeliveryStepSurplus(w: World, step: Step, universal: Token, common: nat)
    requires DecimalsWithin(w.wrapper, universal, common)
    requires step.PerformBy? && PerformAction(w, step.caller, step.id, step.facts).Some?
    ensures SurplusStep(w, PerformAction(w, step.caller, step.id, step.facts).value, step, universal, common)
  {
    DeliveryKept(w, step, universal, common);
    PlainStep(w, PerformAction(w, step.caller, step.id, step.facts).value, step, universal, common);
  }

  /** Every other step leaves the wrapper and the swap alone. */
  lemma {:induction false} WrapperUntouched(w: World, hash: Hasher, step: Step)
    requires Next(w, hash, step).Some? && !IsTokenStep(step) && !step.DepositBy? && !step.PerformBy?
    ensures Next(w, hash, step).value.wrapper == w.wrapper && Next(w, hash, step).value.swap == w.swap
  {
    if IsSafeStep(step) {
      SafeLeavesWrapper(w, step);
    }
  }

  lemma {:induction false} SafeLeavesWrapper(w: World, step: Step)
    requires IsSafeStep(step) && SafeNext(w, step).Some? && !step.DepositBy?
    ensures SafeNext(w, step).value.wrapper == w.wrapper && SafeNext(w, step).value.swap == w.swap
  {
  }

  /** A step that changes no tokens and adds no liquidity from outside. */
  lemma {:induction false} PlainStep(w: World, r: World, step: Step, universal: Token, common: nat)
    requires !IsConfigStep(step) && !step.AddLiquidity? && DecimalsWithin(w.wrapper, universal, common)
    requires SurplusKept(w.wrapper, r.wrapper, universal, common)
    requires r.swap.locked - r.swap.issued == w.swap.locked - w.swap.issued
    requires r.swap.wesdt == w.swap.wesdt && r.swap.esdt == w.swap.esdt
    ensures SurplusStep(w, r, step, universal, common)
  {
    assert BackingNow(w, step, universal, common) == 0;
  }

  lemma {:induction false} TokenGroupSurplus(w: World, step: Step, universal: Token, common: nat)
    requires DecimalsWithin(w.wrapper, universal, common) && TokensGuarded(w, step, universal, common)
    requires IsTokenStep(step) && TokenNext(w, step).Some?
    ensures SurplusStep(w, TokenNext(w, step).value, step, universal, common)
  {
    if IsConfigStep(step) {
      ConfigStepSurplus(w, step, universal, common);
    } else {
      TokenStepSurplus(w, step, universal, common);
    }
  }

  lemma {:induction false} StepSurplus(w: World, hash: Hasher, step: Step, universal: Token, common: nat)
    requires DecimalsWithin(w.wrapper, universal, common) && TokensGuarded(w, step, universal, common)
    requires Next(w, hash, step).Some?
    ensures SurplusStep(w, Next(w, hash, step).value, step, universal, common)
  {
    if IsTokenStep(step) {
      TokenGroupSurplus(w, step, universal, common);
    } else if step.DepositBy? {
      DepositStepSurplus(w, step, universal, common);
    } else if step.PerformBy? {
      DeliveryStepSurplus(w, step, universal, common);
    } else {
      WrapperUntouched(w, hash, step);
      PlainStep(w, Next(w, hash, step).value, step, universal, common);
    }
  }

  /** Over any guarded run the surplus of a universal token grows at least by the backing added from outside. */
  lemma {:induction false} RunSurplus(w: World, hash: Hasher, steps: seq<Step>, universal: Token, common: nat)
    requires DecimalsWithin(w.wrapper, universal, common) && Along(w, hash, steps, Guarded(universal, common))
    ensures var r, added := Run(w, hash, steps), BackingAdded(w, hash, steps, universal, common);
            && DecimalsWithin(r.wrapper, universal, common)
            && Surplus(r.wrapper, universal, common) >= Surplus(w.wrapper, universal, common) + added
            && r.swap.locked - r.swap.issued == w.swap.locked - w.swap.issued
            && r.swap.wesdt == w.swap.wesdt && r.swap.esdt == w.swap.esdt
  {
    if steps != [] {
      var n := |steps| - 1;
      var u := Run(w, hash, steps[..n]);
      AlongInit(w, hash, steps, Guarded(universal, common));
      RunSurplus(w, hash, steps[..n], universal, common);
      if Next(u, hash, steps[n]).Some? {
        StepSurplus(u, hash, steps[n], universal, common);
      }
    }
  }

  /** With equal decimals it grows by exactly that. */
  lemma {:induction false} RunSurplusExact(w: World, hash: Hasher, steps: seq<Step>, universal: Token, common: nat)
    requires UniformDecimals(w.wrapper, universal, common) && Along(w, hash, steps, Uniform(universal, common))
    ensures var r, added := Run(w, hash, steps), BackingAdded(w, hash, steps, universal, common);
            && UniformDecimals(r.wrapper, universal, common)
            && Surplus(r.wrapper, universal, common) == Surplus(w.wrapper, universal, common) + added
            && r.swap.locked - r.swap.issued == w.swap.locked - w.swap.issued
            && r.swap.wesdt == w.swap.wesdt
  {
    if steps != [] {
      var n := |steps| - 1;
      var u := Run(w, hash, steps[..n]);
      AlongInit(w, hash, steps, Uniform(universal, common));
      RunSurplusExact(w, hash, steps[..n], universal, common);
      if Next(u, hash, steps[n]).Some? {
        StepSurplus(u, hash, steps[n], universal, common);
      }
    }
  }

  lemma {:induction false} FreshSurplus(w: World, universal: Token, common: nat)
    requires Initial(w)
    ensures Surplus(w.wrapper, universal, common) == 0
  {
    assert BackingMap(w.wrapper, universal, common) == map[];
  }

  ghost predicate Backed(w: World, universal: Token, common: nat) {
    Backing(w.wrapper, universal, common)
    >= Scale(GetInt(w.wrapper.issued, universal), Get(w.wrapper.decimals, universal), common)
  }

  /** A change of tokens takes no more backing away than the surplus. */
  ghost predicate RemovesSurplusOnly(w: World, step: Step, universal: Token, common: nat) {
    IsConfigStep(step) && Reconfigured(w.wrapper, step).Some? ==>
      Backing(w.wrapper, universal, common) - Backing(Reconfigured(w.wrapper, step).value, universal, common)
      <= Surplus(w.wrapper, universal, common)
  }

  ghost function SurplusOnly(universal: Token, common: nat): (World, Step) -> bool {
    (w: World, step: Step) => RemovesSurplusOnly(w, step, universal, common)
  }

  lemma {:induction false} RemovalBounded(w: World, step: Step, universal: Token, common: nat)
    requires Backed(w, universal, common) && RemovesSurplusOnly(w, step, universal, common)
    ensures BackingNow(w, step, universal, common) + Surplus(w.wrapper, universal, common) >= 0
  {
  }

  lemma {:induction false} CoverStep(w: World, hash: Hasher, step: Step, universal: Token, common: nat)
    requires DecimalsWithin(w.wrapper, universal, common) && TokensGuarded(w, step, universal, common)
    requires Backed(w, universal, common) && RemovesSurplusOnly(w, step, universal, common)
    ensures Backed(Apply(w, hash, step), universal, common)
  {
    if Next(w, hash, step).Some? {
      StepSurplus(w, hash, step, universal, common);
      RemovalBounded(w, step, universal, common);
    }
  }

  /** Solvency: the liquidity behind a universal token, in common units, covers all of it that the wrapper has in
      circulation, after any guarded run in which no change of tokens takes away more than the surplus; and the swap's
      pot equals what the swap has in circulation. */
  lemma {:induction false} WrapperStaysSolvent(w: World, hash: Hasher, steps: seq<Step>, universal: Token, common: nat)
    requires Initial(w) && DecimalsWithin(w.wrapper, universal, common)
    requires Along(w, hash, steps, Guarded(universal, common))
    requires Along(w, hash, steps, SurplusOnly(universal, common))
    ensures var r := Run(w, hash, steps); Backed(r, universal, common) && r.swap.locked == r.swap.issued
  {
    RunSurplus(w, hash, steps, universal, common);
    FreshSurplus(w, universal, common);
    if steps != [] {
      var n := |steps| - 1;
      var u := Run(w, hash, steps[..n]);
      AlongInit(w, hash, steps, Guarded(universal, common));
      AlongInit(w, hash, steps, SurplusOnly(universal, common));
      WrapperStaysSolvent(w, hash, steps[..n], universal, common);
      RunSurplus(w, hash, steps[..n], universal, common);
      CoverStep(u, hash, steps[n], universal, common);
    }
  }

  /** That guard is exact: a change of tokens leaves the universal token covered if and only if it is met. What each
      change takes away or adds is in WhitelistSurplus, UpdateSurplus, BlacklistSurplus and RemoveSurplus. */
  lemma {:induction false} ConfigKeepsCover(w: World, step: Step, universal: Token, common: nat)
    requires IsConfigStep(step) && TokenNext(w, step).Some? && TokensGuarded(w, step, universal, common)
    ensures Backed(TokenNext(w, step).value, universal, common) <==> RemovesSurplusOnly(w, step, universal, common)
  {
    ReconfiguredBooks(w.wrapper, step);
  }

  /** With equal decimals the locked base tokens plus the wrapper's liquidity equal the circulating WESDT plus the
      backing added from outside, after any run of swaps, wraps, unwraps, deposits, deliveries and token changes. */
  lemma {:induction false} SystemConservation(w: World, hash: Hasher, steps: seq<Step>, common: nat)
    requires Initial(w) && UniformDecimals(w.wrapper, w.swap.wesdt, common)
    requires Along(w, hash, steps, Uniform(w.swap.wesdt, common))
    ensures var r, t := Run(w, hash, steps), w.swap.wesdt;
            r.swap.locked + Backing(r.wrapper, t, common)
            == (r.swap.issued + GetInt(r.wrapper.issued, t)) + BackingAdded(w, hash, steps, t, common)
  {
    var r, t := Run(w, hash, steps), w.swap.wesdt;
    FreshSurplus(w, t, common);
    RunSurplusExact(w, hash, steps, t, common);
    assert Scale(GetInt(r.wrapper.issued, t), common, common) == GetInt(r.wrapper.issued, t);
  }
}
