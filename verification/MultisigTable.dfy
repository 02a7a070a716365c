/** What the multisig contract computes (rs/multisig), as functions on values. */
module MultisigTable {
  import opened Collections
  import opened Transactions

  datatype Action =
    | Nothing
    | SetBatchStatus(batchId: nat, statuses: seq<TransactionStatus>)
    | TransferBatch(batchId: nat, transfers: seq<EthTransaction>)

  type BatchHash = nat
  type Hasher = seq<EthTransaction> -> BatchHash

  /** Action ids and user ids start at 1. `board` holds the ids whose role is board member. */
  datatype Multisig = Multisig(
    users: seq<nat>, board: set<nat>, boardCount: nat, quorum: nat,
    requiredStake: nat, slashAmount: nat, staked: map<nat, nat>, slashed: nat, egld: nat,
    actions: seq<Action>, signers: map<nat, set<nat>>,
    transferIndex: map<nat, map<BatchHash, nat>>,
    statusIndex: map<nat, map<seq<TransactionStatus>, nat>>,
    lastEthBatch: nat, lastEthTx: nat, paused: bool)

  // ----- Reading storage -----

  /** 0 for an unknown address. */
  function UserId(users: seq<nat>, address: nat): (id: nat)
    ensures id <= |users|
    ensures id == 0 <==> address !in users
    ensures id > 0 ==> users[id - 1] == address
  {
    if users == [] then 0
    else if users[|users| - 1] == address then |users|
    else UserId(users[..|users| - 1], address)
  }

  /** The zero address for an unknown id. */
  function UserAddress(m: Multisig, id: nat): nat {
    if 1 <= id <= |m.users| then m.users[id - 1] else 0
  }

  predicate IsBoardMember(m: Multisig, address: nat) {
    UserId(m.users, address) in m.board
  }

  predicate HasEnoughStake(m: Multisig, address: nat) {
    Get(m.staked, address) >= m.requiredStake
  }

  function ActionAt(m: Multisig, id: nat): Action {
    if 1 <= id <= |m.actions| then m.actions[id - 1] else Nothing
  }

  function Signers(m: Multisig, id: nat): set<nat> {
    if id in m.signers then m.signers[id] else {}
  }

  function TransferIds(m: Multisig, batchId: nat): map<BatchHash, nat> {
    if batchId in m.transferIndex then m.transferIndex[batchId] else map[]
  }

  function StatusIds(m: Multisig, batchId: nat): map<seq<TransactionStatus>, nat> {
    if batchId in m.statusIndex then m.statusIndex[batchId] else map[]
  }

  function ValidSigners(m: Multisig, id: nat): set<nat> {
    set s | s in Signers(m, id) && s in m.board && HasEnoughStake(m, UserAddress(m, s))
  }

  predicate QuorumReached(m: Multisig, id: nat) {
    |ValidSigners(m, id)| >= m.quorum
  }

  predicate WasActionExecuted(m: Multisig, id: nat) {
    1 <= id <= |m.actions| && ActionAt(m, id) == Nothing
  }

  // ----- Stakes, board and quorum -----

  function Stake(m: Multisig, caller: nat, amount: nat): Option<Multisig> {
    if !IsBoardMember(m, caller) then None
    else Some(m.(staked := Credit(m.staked, caller, amount), egld := m.egld + amount))
  }

  function Unstake(m: Multisig, caller: nat, amount: nat): Option<Multisig> {
    if amount > Get(m.staked, caller) || amount > m.egld
       || (IsBoardMember(m, caller) && Get(m.staked, caller) - amount < m.requiredStake) then None
    else Some(m.(staked := m.staked[caller := Get(m.staked, caller) - amount], egld := m.egld - amount))
  }

  function AddBoardMember(m: Multisig, address: nat): Multisig {
    var known := UserId(m.users, address);
    var users := if known == 0 then m.users + [address] else m.users;
    var id := if known == 0 then |m.users| + 1 else known;
    if id in m.board then m.(users := users)
    else m.(users := users, board := m.board + {id}, boardCount := m.boardCount + 1)
  }

  function RemoveUser(m: Multisig, address: nat): Option<Multisig> {
    var id := UserId(m.users, address);
    if id != 0 && id in m.board && m.boardCount == 0 then None
    else
      var r := if id != 0 && id in m.board
               then m.(board := m.board - {id}, boardCount := m.boardCount - 1) else m;
      if r.boardCount == 0 || r.quorum > r.boardCount then None else Some(r)
  }

  function SlashBoardMember(m: Multisig, address: nat): Option<Multisig> {
    var removed := RemoveUser(m, address);
    if removed.None? || Get(m.staked, address) < m.slashAmount then None
    else Some(removed.value.(
      staked := m.staked[address := Get(m.staked, address) - m.slashAmount],
      slashed := m.slashed + m.slashAmount))
  }

  function ChangeQuorum(m: Multisig, quorum: nat): Option<Multisig> {
    if quorum > m.boardCount then None else Some(m.(quorum := quorum))
  }

  // ----- Proposing and signing -----

  /** Appends an action; a proposer with enough stake signs it in the same call. */
  function ProposeAction(m: Multisig, caller: nat, action: Action): Option<Multisig> {
    if !IsBoardMember(m, caller) || m.paused then None
    else
      var id := |m.actions| + 1;
      Some(m.(actions := m.actions + [action],
              signers := if HasEnoughStake(m, caller)
                         then m.signers[id := Signers(m, id) + {UserId(m.users, caller)}] else m.signers))
  }

  /** `current` is the safe's batch that is ready: its id and its number of transactions. */
  function ProposeStatus(
    m: Multisig, caller: nat, batchId: nat, statuses: seq<TransactionStatus>, current: Option<(nat, nat)>)
    : Option<Multisig>
  {
    if current.None? || statuses in StatusIds(m, batchId)
       || CountByFields(current.value.1) != |statuses| || batchId != current.value.0 then None
    else
      var r := ProposeAction(m, caller, SetBatchStatus(batchId, statuses));
      if r.None? then None
      else Some(r.value.(
        statusIndex := m.statusIndex[batchId := StatusIds(m, batchId)[statuses := |m.actions| + 1]]))
  }

  function ProposeTransfer(m: Multisig, hash: Hasher, caller: nat, batchId: nat, transfers: seq<EthTransaction>)
    : Option<Multisig>
  {
    if batchId != m.lastEthBatch + 1 || !Consecutive(transfers, m.lastEthTx + 1)
       || hash(transfers) in TransferIds(m, batchId) then None
    else
      var r := ProposeAction(m, caller, TransferBatch(batchId, transfers));
      if r.None? then None
      else Some(r.value.(
        transferIndex := m.transferIndex[batchId := TransferIds(m, batchId)[hash(transfers) := |m.actions| + 1]]))
  }

  function Sign(m: Multisig, caller: nat, id: nat): Option<Multisig> {
    if ActionAt(m, id) == Nothing || !IsBoardMember(m, caller) || !HasEnoughStake(m, caller) then None
    else Some(m.(signers := m.signers[id := Signers(m, id) + {UserId(m.users, caller)}]))
  }

  // ----- Performing -----

  predicate MayPerform(m: Multisig, caller: nat, id: nat) {
    ActionAt(m, id) != Nothing && IsBoardMember(m, caller) && QuorumReached(m, id) && !m.paused
  }

  function ClearEntries(actions: seq<Action>, ids: set<nat>): seq<Action> {
    seq(|actions|, i requires 0 <= i < |actions| => if i + 1 in ids then Nothing else actions[i])
  }

  function ClearActions(m: Multisig, ids: set<nat>): Multisig {
    m.(actions := ClearEntries(m.actions, ids), signers := m.signers - ids)
  }

  /** The action itself and, if the index holds more than one proposal, all of them. */
  function IdsToClear<K>(id: nat, index: map<K, nat>): set<nat> {
    {id} + if |index| > 1 then index.Values else {}
  }

  /** The multisig's own bookkeeping when it performs a status action. */
  function CloseStatus(m: Multisig, id: nat, batchId: nat): Multisig {
    ClearActions(m, IdsToClear(id, StatusIds(m, batchId))).(statusIndex := m.statusIndex - {batchId})
  }

  /** The same for a transfer action; an action without transfers cannot be performed. */
  function CloseTransfer(m: Multisig, id: nat, batchId: nat, transfers: seq<EthTransaction>): Option<Multisig> {
    if transfers == [] then None
    else Some(ClearActions(m, IdsToClear(id, TransferIds(m, batchId))).(
      transferIndex := m.transferIndex - {batchId},
      lastEthBatch := m.lastEthBatch + 1,
      lastEthTx := transfers[|transfers| - 1].nonce))
  }

  // ----- Board and stake laws -----

  ghost predicate Distinct(users: seq<nat>) {
    forall i, j :: 0 <= i < j < |users| ==> users[i] != users[j]
  }

  lemma {:induction false} DistinctPush(users: seq<nat>, address: nat)
    requires Distinct(users) && address !in users
    ensures Distinct(users + [address])
  {
  }

  ghost predicate BoardOk(m: Multisig) {
    && Distinct(m.users)
    && (forall id :: id in m.board ==> 1 <= id <= |m.users|)
    && m.boardCount == |m.board|
    && m.quorum <= m.boardCount
  }

  ghost predicate StakesOk(m: Multisig) {
    m.egld == Total(m.staked) + m.slashed
  }

  lemma {:induction false} UserIdUnique(users: seq<nat>, id: nat)
    requires Distinct(users)
    requires 1 <= id <= |users|
    ensures UserId(users, users[id - 1]) == id
  {
  }

  lemma {:induction false} StakeKeepsBooks(m: Multisig, caller: nat, amount: nat)
    requires StakesOk(m) && Stake(m, caller, amount).Some?
    ensures StakesOk(Stake(m, caller, amount).value)
  {
    TotalUpdate(m.staked, caller, Get(m.staked, caller) + amount);
  }

  /** The contract always holds enough EGLD to pay an unstake that passes the checks. */
  lemma {:induction false} UnstakeKeepsBooks(m: Multisig, caller: nat, amount: nat)
    requires StakesOk(m)
    ensures Unstake(m, caller, amount).Some? <==>
            && amount <= Get(m.staked, caller)
            && (IsBoardMember(m, caller) ==> Get(m.staked, caller) - amount >= m.requiredStake)
    ensures Unstake(m, caller, amount).Some? ==> StakesOk(Unstake(m, caller, amount).value)
  {
    TotalAtLeast(m.staked, caller);
    if amount <= Get(m.staked, caller) {
      TotalUpdate(m.staked, caller, Get(m.staked, caller) - amount);
    }
  }

  lemma {:induction false} SlashKeepsBooks(m: Multisig, address: nat)
    requires StakesOk(m) && BoardOk(m) && SlashBoardMember(m, address).Some?
    ensures StakesOk(SlashBoardMember(m, address).value) && BoardOk(SlashBoardMember(m, address).value)
  {
    TotalUpdate(m.staked, address, Get(m.staked, address) - m.slashAmount);
  }

  lemma {:induction false} AddMemberKeepsBoard(m: Multisig, address: nat)
    requires BoardOk(m)
    ensures BoardOk(AddBoardMember(m, address)) && IsBoardMember(AddBoardMember(m, address), address)
    ensures m.users <= AddBoardMember(m, address).users
    ensures var r := AddBoardMember(m, address);
            r == m.(users := r.users, board := r.board, boardCount := r.boardCount)
  {
    var r, id := AddBoardMember(m, address), UserId(m.users, address);
    if id == 0 {
      var users := m.users + [address];
      DistinctPush(m.users, address);
      assert UserId(users, address) == |users| && |users| !in m.board;
      assert r == m.(users := users, board := m.board + {|users|}, boardCount := m.boardCount + 1);
    } else if id in m.board {
      assert r == m.(users := m.users);
    } else {
      assert r == m.(board := m.board + {id}, boardCount := m.boardCount + 1);
    }
  }

  lemma {:induction false} RemoveUserKeepsBoard(m: Multisig, address: nat)
    requires BoardOk(m) && RemoveUser(m, address).Some?
    ensures BoardOk(RemoveUser(m, address).value) && !IsBoardMember(RemoveUser(m, address).value, address)
    ensures var r := RemoveUser(m, address).value;
            r == m.(board := r.board, boardCount := r.boardCount)
  {
  }

  // ----- Quorum -----

  /** The addresses of an action's valid signers: distinct staked board members. */
  ghost function Endorsers(m: Multisig, id: nat): set<nat> {
    set s | s in ValidSigners(m, id) :: UserAddress(m, s)
  }

  lemma {:induction false} ImageSize(m: Multisig, ids: set<nat>)
    requires BoardOk(m) && forall s :: s in ids ==> 1 <= s <= |m.users|
    ensures |set s | s in ids :: UserAddress(m, s)| == |ids|
    decreases |ids|
  {
    if ids == {} {
      assert (set s | s in ids :: UserAddress(m, s)) == {};
    } else {
      var x :| x in ids;
      ImageSize(m, ids - {x});
      var rest := set s | s in ids - {x} :: UserAddress(m, s);
      assert UserAddress(m, x) !in rest;
      assert (set s | s in ids :: UserAddress(m, s)) == rest + {UserAddress(m, x)};
    }
  }

  /** A quorum means at least that many different accounts, each on the board and sufficiently staked. */
  lemma {:induction false} QuorumIsDistinct(m: Multisig, id: nat)
    requires BoardOk(m) && QuorumReached(m, id)
    ensures |Endorsers(m, id)| >= m.quorum
    ensures forall a :: a in Endorsers(m, id) ==> IsBoardMember(m, a) && HasEnoughStake(m, a)
  {
    ImageSize(m, ValidSigners(m, id));
    forall a | a in Endorsers(m, id) ensures IsBoardMember(m, a) && HasEnoughStake(m, a) {
      var s :| s in ValidSigners(m, id) && a == UserAddress(m, s);
      UserIdUnique(m.users, s);
    }
  }

  /** More signatures, more members and stakes that stay above the minimum never take a quorum away. */
  lemma {:induction false} QuorumMonotone(m: Multisig, n: Multisig, id: nat)
    requires BoardOk(m) && QuorumReached(m, id)
    requires n.quorum == m.quorum && m.board <= n.board && m.users <= n.users && n.requiredStake == m.requiredStake
    requires Signers(m, id) <= Signers(n, id)
    requires forall s :: s in ValidSigners(m, id) ==> HasEnoughStake(n, UserAddress(m, s))
    ensures QuorumReached(n, id)
  {
    assert ValidSigners(m, id) <= ValidSigners(n, id) by {
      forall s | s in ValidSigners(m, id) ensures s in ValidSigners(n, id) {
        assert UserAddress(n, s) == UserAddress(m, s);
      }
    }
    SubsetSize(ValidSigners(m, id), ValidSigners(n, id));
  }
}
