/** The contracts together: every endpoint as one step of a state machine. */
module Bridge {
  import opened Collections
  import opened Transactions
  import opened BatchQueue
  import opened FeeSharing
  import opened SafeLedger
  import opened TokenWrapper
  import opened Delivery
  import opened MultisigTable

  /** `depositToken` is the chain token the deposit wrapper sends to the safe. */
  datatype World = World(
    ms: Multisig, safe: Safe, mt: MultiTransfer, wrapper: Wrapper, swap: Swap, depositToken: Token, now: nat)

  datatype Step =
    // relayers
    | StakeBy(caller: nat, amount: nat)
    | UnstakeBy(caller: nat, amount: nat)
    | ProposeStatusBy(caller: nat, batchId: nat, statuses: seq<TransactionStatus>)
    | ProposeTransferBy(caller: nat, batchId: nat, transfers: seq<EthTransaction>)
    | SignBy(caller: nat, id: nat)
    | PerformBy(caller: nat, id: nat, facts: Facts)
    // owner
    | BoardAdd(address: nat)
    | BoardRemove(address: nat)
    | BoardSlash(address: nat)
    | QuorumChange(quorum: nat)
    | MultisigPause(paused: bool)
    | MoveRefunds(facts: Facts)
    | ShareFees(shares: seq<Share>, facts: Facts)
    | SafeLimits(maxSize: nat, maxDuration: nat)
    | RefundLimits(maxSize: nat, maxDuration: nat)
    | SafeSettings(settings: Safe)
    | DeliverySettings(delivery: MultiTransfer)
    | WrapperPause(paused: bool)
    | AddUniversal(universal: Token, decimals: nat)
    | UpdateUniversal(universal: Token, decimals: nat)
    | RemoveUniversal(universal: Token)
    | WhitelistChain(chain: Token, decimals: nat, universal: Token)
    | UpdateChain(chain: Token, decimals: nat)
    | BlacklistChain(chain: Token)
    | RolesChange(wrapperMint: set<Token>, wrapperBurn: set<Token>, swapMint: bool, swapBurn: bool)
    | AddLiquidity(paid: Payment)
    // users
    | CreateBy(caller: nat, to: nat, paid: Payment, facts: Facts)
    | ClaimBy(caller: nat, token: Token)
    | DepositBy(caller: nat, to: nat, paid: Payment, facts: Facts)
    | WrapEsdt(paid: Payment)
    | UnwrapEsdt(paid: Payment)
    | WrapChainTokens(payments: seq<Payment>)
    | UnwrapUniversal(paid: Payment, requested: Token)
    // time
    | Tick(blocks: nat)

  function WithMultisig(w: World, m: Option<Multisig>): Option<World> {
    if m.None? then None else Some(w.(ms := m.value))
  }

  function WithWrapper(w: World, v: Option<Wrapper>): Option<World> {
    if v.None? then None else Some(w.(wrapper := v.value))
  }

  function WithSafe(w: World, s: Option<Safe>): Option<World> {
    if s.None? then None else Some(w.(safe := s.value))
  }

  /** The id and the size of the batch the safe offers. */
  function CurrentBatch(q: Queue, now: nat): Option<(nat, nat)> {
    if Offered(q, now) then Some((q.first, |Batch(q, q.first)|)) else None
  }

  function PerformAction(w: World, caller: nat, id: nat, facts: Facts): Option<World> {
    if !MayPerform(w.ms, caller, id) then None
    else match ActionAt(w.ms, id)
      case Nothing => None
      case SetBatchStatus(batchId, statuses) =>
        var settled := SetStatus(w.safe, batchId, statuses, facts.burnable);
        if settled.None? then None
        else Some(w.(ms := CloseStatus(w.ms, id, batchId), safe := settled.value))
      case TransferBatch(batchId, transfers) =>
        var closed := CloseTransfer(w.ms, id, batchId, transfers);
        var delivered := BatchTransfer(facts, w.now, w.mt, w.wrapper, w.swap, transfers);
        if closed.None? || delivered.None? then None
        else
          var d := delivered.value;
          Some(w.(ms := closed.value, mt := d.mt, wrapper := d.wrapper, swap := d.swap))
  }

  /** The refunds the next MoveRefunds hands to the safe. */
  function FirstRefunds(w: World): seq<Transaction> {
    JoinAll(SplitAll(Batch(w.mt.queue, w.mt.queue.first)))
  }

  function MoveRefundBatch(w: World, facts: Facts): World {
    if FirstRefunds(w) == [] then w
    else w.(mt := w.mt.(queue := ClearFirst(w.mt.queue)),
            safe := AddRefundBatch(w.safe, w.now, facts.prices, FirstRefunds(w)))
  }

  /** The deposit wrapper's first two calls: base token to WESDT, WESDT to chain token. */
  function DepositSwap(w: World, paid: Payment): Option<(Swap, Wrapper, Payment)> {
    var swapped := SwapWrap(w.swap, paid);
    if swapped.None? then None
    else
      var unwrapped := UnwrapToken(w.wrapper, swapped.value.1, w.depositToken);
      if unwrapped.None? || unwrapped.value.1.amount < paid.amount then None
      else Some((swapped.value.0, unwrapped.value.0, unwrapped.value.1))
  }

  function Deposit(w: World, caller: nat, to: nat, paid: Payment, facts: Facts): Option<World> {
    var changed := DepositSwap(w, paid);
    if changed.None? then None
    else
      var (swap, wrapper, out) := changed.value;
      WithSafe(w.(swap := swap, wrapper := wrapper), Create(w.safe, w.now, facts.prices, caller, to, out))
  }

  function Limited(q: Queue, maxSize: nat, maxDuration: nat): Option<Queue> {
    if maxSize == 0 || maxDuration == 0 then None
    else Some(q.(maxSize := maxSize, maxDuration := maxDuration))
  }

  predicate IsBoardStep(step: Step) {
    || step.StakeBy? || step.UnstakeBy? || step.BoardAdd? || step.BoardRemove? || step.BoardSlash?
    || step.QuorumChange? || step.MultisigPause?
  }

  function BoardNext(w: World, step: Step): Option<World>
    requires IsBoardStep(step)
  {
    match step
    case StakeBy(caller, amount) => WithMultisig(w, Stake(w.ms, caller, amount))
    case UnstakeBy(caller, amount) => WithMultisig(w, Unstake(w.ms, caller, amount))
    case BoardAdd(address) => Some(w.(ms := AddBoardMember(w.ms, address)))
    case BoardRemove(address) => WithMultisig(w, RemoveUser(w.ms, address))
    case BoardSlash(address) => WithMultisig(w, SlashBoardMember(w.ms, address))
    case QuorumChange(quorum) => WithMultisig(w, ChangeQuorum(w.ms, quorum))
    case MultisigPause(paused) => Some(w.(ms := w.ms.(paused := paused)))
  }

  predicate IsActionStep(step: Step) {
    step.ProposeStatusBy? || step.ProposeTransferBy? || step.SignBy? || step.PerformBy?
  }

  function ActionNext(w: World, hash: Hasher, step: Step): Option<World>
    requires IsActionStep(step)
  {
    match step
    case ProposeStatusBy(caller, batchId, statuses) =>
      WithMultisig(w, ProposeStatus(w.ms, caller, batchId, statuses, CurrentBatch(w.safe.queue, w.now)))
    case ProposeTransferBy(caller, batchId, transfers) =>
      WithMultisig(w, ProposeTransfer(w.ms, hash, caller, batchId, transfers))
    case SignBy(caller, id) => WithMultisig(w, Sign(w.ms, caller, id))
    case PerformBy(caller, id, facts) => PerformAction(w, caller, id, facts)
  }

  predicate IsSafeStep(step: Step) {
    || step.MoveRefunds? || step.ShareFees? || step.SafeLimits? || step.SafeSettings?
    || step.CreateBy? || step.ClaimBy? || step.DepositBy?
  }

  function SafeNext(w: World, step: Step): Option<World>
    requires IsSafeStep(step)
  {
    match step
    case MoveRefunds(facts) => Some(MoveRefundBatch(w, facts))
    case ShareFees(shares, facts) =>
      if exists i :: 0 <= i < |shares| && shares[i].address in facts.contracts then None
      else WithSafe(w, Distribute(w.safe, shares))
    case SafeLimits(maxSize, maxDuration) =>
      var q := Limited(w.safe.queue, maxSize, maxDuration);
      if q.None? then None else Some(w.(safe := w.safe.(queue := q.value)))
    case SafeSettings(s) => Some(w.(safe := Configured(w.safe, s)))
    case CreateBy(caller, to, paid, facts) =>
      WithSafe(w, Create(w.safe, w.now, facts.prices, caller, to, paid))
    case ClaimBy(caller, token) => WithSafe(w, Claim(w.safe, caller, token))
    case DepositBy(caller, to, paid, facts) => Deposit(w, caller, to, paid, facts)
  }

  /** The owner may set everything except the books and the queue. */
  function Configured(s: Safe, settings: Safe): Safe {
    settings.(queue := s.queue, fees := s.fees, refunds := s.refunds, balance := s.balance, stranded := s.stranded)
  }

  /** The owner changes the tokens of the wrapper. */
  predicate IsConfigStep(step: Step) {
    || step.AddUniversal? || step.UpdateUniversal? || step.RemoveUniversal?
    || step.WhitelistChain? || step.UpdateChain? || step.BlacklistChain?
  }

  function Reconfigured(v: Wrapper, step: Step): Option<Wrapper>
    requires IsConfigStep(step)
  {
    match step
    case AddUniversal(universal, decimals) => AddWrappedToken(v, universal, decimals)
    case UpdateUniversal(universal, decimals) => UpdateWrappedToken(v, universal, decimals)
    case RemoveUniversal(universal) => Some(RemoveWrappedToken(v, universal))
    case WhitelistChain(chain, decimals, universal) => WhitelistToken(v, chain, decimals, universal)
    case UpdateChain(chain, decimals) => UpdateWhitelistedToken(v, chain, decimals)
    case BlacklistChain(chain) => Some(BlacklistToken(v, chain))
  }

  predicate IsTokenStep(step: Step) {
    !IsBoardStep(step) && !IsActionStep(step) && !IsSafeStep(step)
  }

  function TokenNext(w: World, step: Step): Option<World>
    requires IsTokenStep(step)
  {
    if IsConfigStep(step) then WithWrapper(w, Reconfigured(w.wrapper, step))
    else match step
    case RefundLimits(maxSize, maxDuration) =>
      var q := Limited(w.mt.queue, maxSize, maxDuration);
      if q.None? then None else Some(w.(mt := w.mt.(queue := q.value)))
    case DeliverySettings(s) => Some(w.(mt := s.(queue := w.mt.queue, minted := w.mt.minted)))
    case WrapperPause(paused) => Some(w.(wrapper := w.wrapper.(paused := paused)))
    case RolesChange(wrapperMint, wrapperBurn, swapMint, swapBurn) =>
      Some(w.(wrapper := w.wrapper.(mintRoles := wrapperMint, burnRoles := wrapperBurn),
              swap := w.swap.(mayMint := swapMint, mayBurn := swapBurn)))
    case AddLiquidity(paid) => Some(w.(wrapper := DepositLiquidity(w.wrapper, paid)))
    case WrapEsdt(paid) =>
      var r := SwapWrap(w.swap, paid);
      if r.None? then None else Some(w.(swap := r.value.0))
    case UnwrapEsdt(paid) =>
      var r := SwapUnwrap(w.swap, paid);
      if r.None? then None else Some(w.(swap := r.value))
    case WrapChainTokens(payments) =>
      var r := WrapTokens(w.wrapper, payments);
      if r.None? then None else Some(w.(wrapper := r.value.0))
    case UnwrapUniversal(paid, requested) =>
      var r := UnwrapToken(w.wrapper, paid, requested);
      if r.None? then None else Some(w.(wrapper := r.value.0))
    case Tick(blocks) => Some(w.(now := w.now + blocks))
  }

  /** One call. None: the call fails and reverts. */
  function Next(w: World, hash: Hasher, step: Step): Option<World> {
    if IsBoardStep(step) then BoardNext(w, step)
    else if IsActionStep(step) then ActionNext(w, hash, step)
    else if IsSafeStep(step) then SafeNext(w, step)
    else TokenNext(w, step)
  }

  /** A failed call changes nothing. */
  function Apply(w: World, hash: Hasher, step: Step): World {
    var r := Next(w, hash, step);
    if r.Some? then r.value else w
  }

  function Run(w: World, hash: Hasher, steps: seq<Step>): World {
    if steps == [] then w else Apply(Run(w, hash, steps[..|steps| - 1]), hash, steps[|steps| - 1])
  }

  /** What the successful calls of a run contribute, in order. */
  ghost function Collect<T>(w: World, hash: Hasher, steps: seq<Step>, out: (World, Step) -> seq<T>): seq<T> {
    if steps == [] then []
    else
      var before, last := Run(w, hash, steps[..|steps| - 1]), steps[|steps| - 1];
      var earlier := Collect(w, hash, steps[..|steps| - 1], out);
      if Next(before, hash, last).Some? then earlier + out(before, last) else earlier
  }

  /** `P` holds of every step of a run and the state it starts from. */
  ghost predicate Along(w: World, hash: Hasher, steps: seq<Step>, P: (World, Step) -> bool) {
    forall i :: 0 <= i < |steps| ==> P(Run(w, hash, steps[..i]), steps[i])
  }

  lemma {:induction false} AlongInit(w: World, hash: Hasher, steps: seq<Step>, P: (World, Step) -> bool)
    requires steps != [] && Along(w, hash, steps, P)
    ensures var n := |steps| - 1;
            Along(w, hash, steps[..n], P) && P(Run(w, hash, steps[..n]), steps[n])
  {
    var n := |steps| - 1;
    assert forall i :: 0 <= i < n ==> steps[..n][..i] == steps[..i];
  }

  lemma {:induction false} RunSnoc(w: World, hash: Hasher, steps: seq<Step>, step: Step)
    ensures Run(w, hash, steps + [step]) == Apply(Run(w, hash, steps), hash, step)
  {
    assert (steps + [step])[..|steps|] == steps;
  }

  /** Runs as folds, so that facts about sequences of steps need not look inside a step. */
  ghost function Fold<S, T>(f: (S, T) -> S, s: S, ts: seq<T>): S {
    if ts == [] then s else f(Fold(f, s, ts[..|ts| - 1]), ts[|ts| - 1])
  }

  lemma {:induction false} FoldConcat<S, T>(f: (S, T) -> S, s: S, a: seq<T>, b: seq<T>)
    ensures Fold(f, s, a + b) == Fold(f, Fold(f, s, a), b)
  {
    if b == [] {
      assert a + b == a;
    } else {
      var n := |b| - 1;
      FoldConcat(f, s, a, b[..n]);
      assert (a + b)[..|a| + n] == a + b[..n];
    }
  }

  ghost function Applying(hash: Hasher): (World, Step) -> World {
    (w: World, step: Step) => Apply(w, hash, step)
  }

  lemma {:induction false} RunIsFold(w: World, hash: Hasher, steps: seq<Step>)
    ensures Run(w, hash, steps) == Fold(Applying(hash), w, steps)
  {
    if steps != [] {
      RunIsFold(w, hash, steps[..|steps| - 1]);
    }
  }

  lemma {:induction false} RunConcat(w: World, hash: Hasher, a: seq<Step>, b: seq<Step>)
    ensures Run(w, hash, a + b) == Run(Run(w, hash, a), hash, b)
  {
    RunIsFold(w, hash, a + b);
    RunIsFold(w, hash, a);
    RunIsFold(Run(w, hash, a), hash, b);
    FoldConcat(Applying(hash), w, a, b);
  }

  lemma {:induction false} SplitAt<T>(s: seq<T>, k: nat, i: nat)
    requires k + i <= |s|
    ensures s[..k] + s[k..][..i] == s[..k + i]
    ensures k + i < |s| ==> s[k..][i] == s[k + i]
    ensures k + i == |s| ==> s[k..][..i] == s[k..] && s[..k + i] == s
  {
  }

  lemma {:induction false} RunSplit(w: World, hash: Hasher, steps: seq<Step>, k: nat, i: nat)
    requires k + i <= |steps|
    ensures Run(Run(w, hash, steps[..k]), hash, steps[k..][..i]) == Run(w, hash, steps[..k + i])
  {
    SplitAt(steps, k, i);
    RunConcat(w, hash, steps[..k], steps[k..][..i]);
  }

  lemma {:induction false} AlongAt(w: World, hash: Hasher, steps: seq<Step>, k: nat, i: nat, P: (World, Step) -> bool)
    requires Along(w, hash, steps, P) && k + i < |steps|
    ensures P(Run(Run(w, hash, steps[..k]), hash, steps[k..][..i]), steps[k..][i])
  {
    var j := k + i;
    assert P(Run(w, hash, steps[..j]), steps[j]);
    SplitAt(steps, k, i);
    RunSplit(w, hash, steps, k, i);
  }

  lemma {:induction false} AlongTail(w: World, hash: Hasher, steps: seq<Step>, k: nat, P: (World, Step) -> bool)
    requires Along(w, hash, steps, P) && k <= |steps|
    ensures Along(Run(w, hash, steps[..k]), hash, steps[k..], P)
  {
    var u, rest := Run(w, hash, steps[..k]), steps[k..];
    forall i | 0 <= i < |rest| ensures P(Run(u, hash, rest[..i]), rest[i]) {
      AlongAt(w, hash, steps, k, i, P);
    }
  }

  lemma {:induction false} RunTail(w: World, hash: Hasher, steps: seq<Step>, k: nat)
    requires k <= |steps|
    ensures Run(w, hash, steps) == Run(Run(w, hash, steps[..k]), hash, steps[k..])
  {
    SplitAt(steps, k, |steps| - k);
    RunSplit(w, hash, steps, k, |steps| - k);
  }

  // ----- The invariant -----

  ghost predicate TransferEntryOk(m: Multisig, hash: Hasher, batchId: nat, h: BatchHash) {
    h in TransferIds(m, batchId) ==>
      var id := TransferIds(m, batchId)[h];
      && batchId == m.lastEthBatch + 1
      && ActionAt(m, id).TransferBatch? && ActionAt(m, id).batchId == batchId
      && hash(ActionAt(m, id).transfers) == h
  }

  ghost predicate StatusEntryOk(m: Multisig, first: nat, batchId: nat, statuses: seq<TransactionStatus>) {
    statuses in StatusIds(m, batchId) ==>
      batchId == first && ActionAt(m, StatusIds(m, batchId)[statuses]) == SetBatchStatus(batchId, statuses)
  }

  /** A pending action is for the batch whose turn it is, and its index entry leads back to it. */
  ghost predicate ActionOk(m: Multisig, hash: Hasher, first: nat, id: nat) {
    match ActionAt(m, id)
    case Nothing => true
    case TransferBatch(batchId, transfers) =>
      && batchId == m.lastEthBatch + 1
      && Consecutive(transfers, m.lastEthTx + 1)
      && hash(transfers) in TransferIds(m, batchId) && TransferIds(m, batchId)[hash(transfers)] == id
    case SetBatchStatus(batchId, statuses) =>
      && batchId == first
      && statuses in StatusIds(m, batchId) && StatusIds(m, batchId)[statuses] == id
  }

  /** The pending-action table, both indexes, the executed counters and the safe's first batch id agree. */
  ghost predicate TableOk(m: Multisig, hash: Hasher, first: nat) {
    && (forall id :: ActionOk(m, hash, first, id))
    && (forall batchId, h :: TransferEntryOk(m, hash, batchId, h))
    && (forall batchId, statuses :: StatusEntryOk(m, first, batchId, statuses))
  }

  /** Only pending actions carry signatures, and only of known users. */
  ghost predicate SignersOk(m: Multisig) {
    forall id :: Signers(m, id) != {} ==>
      && ActionAt(m, id) != Nothing
      && forall s :: s in Signers(m, id) ==> 1 <= s <= |m.users|
  }

  ghost predicate StatusesTargetSomething(w: World) {
    forall id :: ActionAt(w.ms, id).SetBatchStatus? ==> Batch(w.safe.queue, w.safe.queue.first) != []
  }

  ghost predicate WorldOk(w: World, hash: Hasher) {
    && SafeOk(w.safe, w.now)
    && QueueOk(w.mt.queue)
    && BoardOk(w.ms) && StakesOk(w.ms) && SignersOk(w.ms)
    && TableOk(w.ms, hash, w.safe.queue.first)
    && StatusesTargetSomething(w)
  }

  function FirstIds(n: nat): (ids: set<nat>)
    ensures |ids| == n && forall i :: i in ids <==> 1 <= i <= n
  {
    if n == 0 then {} else FirstIds(n - 1) + {n}
  }

  /** Freshly deployed contracts: the multisig with its board, everything else empty. */
  ghost predicate Initial(w: World) {
    && var m := w.ms;
    && Distinct(m.users) && m.board == FirstIds(|m.users|) && m.boardCount == |m.users| && m.quorum <= m.boardCount
    && m.staked == map[] && m.slashed == 0 && m.egld == 0
    && m.actions == [] && m.signers == map[] && m.transferIndex == map[] && m.statusIndex == map[]
    && m.lastEthBatch == 0 && m.lastEthTx == 0
    && EmptySafe(w.safe)
    && EmptyQueue(w.mt.queue) && w.mt.minted == map[]
    && w.wrapper.liquidity == map[] && w.wrapper.issued == map[]
    && w.swap.locked == 0 && w.swap.issued == 0
  }

  lemma {:induction false} InitialOk(w: World, hash: Hasher)
    requires Initial(w)
    ensures WorldOk(w, hash)
  {
    EmptySafeOk(w.safe, w.now);
  }
}
