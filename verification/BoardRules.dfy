/** The multisig's calls said account by account: who has a seat, whose stake moves, and when a call goes through. */
module BoardRules {
  import opened Collections
  import opened Transactions
  import opened FeeSharing
  import opened SafeLedger
  import opened Delivery
  import opened MultisigTable
  import opened Bridge
  import opened SignatureRuns

  function StakeOf(m: Multisig, address: nat): nat {
    if address in m.staked then m.staked[address] else 0
  }

  /** Only the stakes change, and of them only that of `address`, to `amount`. */
  ghost predicate StakeMoved(m: Multisig, r: Multisig, address: nat, amount: int) {
    && StakeOf(r, address) == amount
    && forall other :: other != address ==> StakeOf(r, other) == StakeOf(m, other)
  }

  /** Exactly board members stake; the caller's own stake and the contract's EGLD rise by the payment. */
  lemma {:induction false} StakeIs(m: Multisig, caller: nat, amount: nat)
    requires BoardOk(m)
    ensures Stake(m, caller, amount).Some? <==> HasSeat(m, caller)
    ensures Stake(m, caller, amount).Some? ==>
            var r := Stake(m, caller, amount).value;
            && StakeMoved(m, r, caller, StakeOf(m, caller) + amount) && r.egld == m.egld + amount
            && r == m.(staked := r.staked, egld := r.egld)
  {
    SeatIs(m, caller);
  }

  /** Anyone gets back at most what they staked, a board member down to the required stake; it is their own stake that
      falls. */
  lemma {:induction false} UnstakeIs(m: Multisig, caller: nat, amount: nat)
    requires BoardOk(m) && StakesOk(m)
    ensures Unstake(m, caller, amount).Some? <==>
            amount <= StakeOf(m, caller) && (HasSeat(m, caller) ==> amount + m.requiredStake <= StakeOf(m, caller))
    ensures Unstake(m, caller, amount).Some? ==>
            var r := Unstake(m, caller, amount).value;
            && StakeMoved(m, r, caller, StakeOf(m, caller) - amount) && r.egld + amount == m.egld
            && r == m.(staked := r.staked, egld := r.egld)
  {
    SeatIs(m, caller);
    UnstakeKeepsBooks(m, caller, amount);
  }

  /** The id of another account is not the one that gets the seat, and stays what it is. */
  lemma {:induction false} OthersKeepIds(m: Multisig, address: nat, other: nat)
    requires BoardOk(m) && other != address
    ensures var r := AddBoardMember(m, address);
            && UserId(r.users, other) == UserId(m.users, other)
            && (UserId(m.users, other) in r.board <==> UserId(m.users, other) in m.board)
  {
    var r, id := AddBoardMember(m, address), UserId(m.users, address);
    if id == 0 {
      assert r.users == m.users + [address] && r.users[..|m.users|] == m.users;
    } else {
      assert r.users == m.users && m.users[id - 1] == address;
    }
  }

  /** The new member has a seat, everyone else keeps or lacks theirs as before. */
  lemma {:induction false} AddSeatIs(m: Multisig, address: nat, other: nat)
    requires BoardOk(m)
    ensures HasSeat(AddBoardMember(m, address), other) <==> other == address || HasSeat(m, other)
  {
    AddMemberKeepsBoard(m, address);
    SeatIs(m, other);
    SeatIs(AddBoardMember(m, address), other);
    if other != address {
      OthersKeepIds(m, address, other);
    }
  }

  lemma {:induction false} RemoveSeatIs(m: Multisig, address: nat, other: nat)
    requires BoardOk(m) && RemoveUser(m, address).Some?
    ensures HasSeat(RemoveUser(m, address).value, other) <==> other != address && HasSeat(m, other)
  {
    var r := RemoveUser(m, address).value;
    RemoveUserKeepsBoard(m, address);
    SeatIs(m, other);
    SeatIs(r, other);
  }

  /** A removal goes through exactly if somebody is left and the quorum can still be met. */
  lemma {:induction false} RemoveIff(m: Multisig, address: nat)
    requires BoardOk(m)
    ensures RemoveUser(m, address).Some? <==>
            var left := |m.board| - if HasSeat(m, address) then 1 else 0;
            left > 0 && m.quorum <= left
  {
    SeatIs(m, address);
  }

  /** Slashing takes the seat, and moves the slash amount from that account's own stake to the pool. */
  lemma {:induction false} SlashIs(m: Multisig, address: nat, other: nat)
    requires BoardOk(m)
    ensures SlashBoardMember(m, address).Some? <==>
            RemoveUser(m, address).Some? && m.slashAmount <= StakeOf(m, address)
    ensures SlashBoardMember(m, address).Some? ==>
            var r := SlashBoardMember(m, address).value;
            && (HasSeat(r, other) <==> other != address && HasSeat(m, other))
            && StakeMoved(m, r, address, StakeOf(m, address) - m.slashAmount)
            && r.slashed == m.slashed + m.slashAmount && r.egld == m.egld
  {
    if SlashBoardMember(m, address).Some? {
      RemoveSeatIs(m, address, other);
    }
  }

  /** A quorum can be set to at most the number of members, and is then what was asked for. */
  lemma {:induction false} QuorumIs(m: Multisig, quorum: nat)
    requires BoardOk(m)
    ensures ChangeQuorum(m, quorum).Some? <==> quorum <= |m.board|
    ensures ChangeQuorum(m, quorum).Some? ==> ChangeQuorum(m, quorum).value == m.(quorum := quorum)
  {
  }

  // ----- Actions -----

  /** A transfer batch is proposed exactly by a board member, while not paused, for the next batch, with deposit nonces
      that follow the last executed one, and not twice under the same hash. */
  lemma {:induction false} ProposeTransferIff(
    m: Multisig, hash: Hasher, caller: nat, batchId: nat, transfers: seq<EthTransaction>)
    requires BoardOk(m)
    ensures ProposeTransfer(m, hash, caller, batchId, transfers).Some? <==>
            && HasSeat(m, caller) && !m.paused && batchId == m.lastEthBatch + 1
            && (forall i :: 0 <= i < |transfers| ==> transfers[i].nonce == m.lastEthTx + 1 + i)
            && !(batchId in m.transferIndex && hash(transfers) in m.transferIndex[batchId])
  {
    SeatIs(m, caller);
  }

  /** A status list is proposed exactly by a board member, while not paused, for the batch on offer, with seven sixths
      of its length, and not twice. */
  lemma {:induction false} ProposeStatusIff(
    m: Multisig, caller: nat, batchId: nat, statuses: seq<TransactionStatus>, current: Option<(nat, nat)>)
    requires BoardOk(m)
    ensures ProposeStatus(m, caller, batchId, statuses, current).Some? <==>
            && HasSeat(m, caller) && !m.paused && current.Some? && batchId == current.value.0
            && |statuses| == current.value.1 + current.value.1 / 6
            && !(batchId in m.statusIndex && statuses in m.statusIndex[batchId])
  {
    SeatIs(m, caller);
    if current.Some? {
      CountByFieldsExact(current.value.1);
    }
  }

  /** An action may be performed exactly if it is pending, the caller is a board member, the contract is not paused, and
      at least quorum different accounts have signed it and have seat and stake now. */
  lemma {:induction false} MayPerformIff(m: Multisig, caller: nat, id: nat)
    requires BoardOk(m)
    ensures MayPerform(m, caller, id) <==>
            && IsPending(m, id) && HasSeat(m, caller) && !m.paused
            && exists accounts: set<nat> :: IsQuorum(m, id, accounts)
  {
    SeatIs(m, caller);
    if QuorumReached(m, id) {
      QuorumAccounts(m, id);
    }
    if accounts: set<nat> :| IsQuorum(m, id, accounts) {
      EnoughSigners(m, id, accounts);
    }
  }

  ghost predicate IsQuorum(m: Multisig, id: nat, accounts: set<nat>) {
    |accounts| >= m.quorum && forall a :: a in accounts ==> Signature(m, id, a) && HasSeat(m, a) && Staked(m, a)
  }

  lemma {:induction false} QuorumAccounts(m: Multisig, id: nat)
    requires BoardOk(m) && QuorumReached(m, id)
    ensures IsQuorum(m, id, Endorsers(m, id))
  {
    QuorumIsDistinct(m, id);
    forall a | a in Endorsers(m, id) ensures Signature(m, id, a) && HasSeat(m, a) && Staked(m, a) {
      var s :| s in ValidSigners(m, id) && a == UserAddress(m, s);
      UserIdUnique(m.users, s);
      SeatIs(m, a);
    }
  }

  /** Fees are shared out exactly if no recipient is a contract and the percentages add up to the whole. */
  lemma {:induction false} ShareFeesIff(w: World, shares: seq<Share>, facts: Facts)
    requires SafeOk(w.safe, w.now)
    ensures SafeNext(w, ShareFees(shares, facts)).Some? <==>
            (forall i :: 0 <= i < |shares| ==> shares[i].address !in facts.contracts) && PercentSum(shares) == 10000
  {
    DistributionIsFunded(w.safe, w.now, shares);
  }
}
