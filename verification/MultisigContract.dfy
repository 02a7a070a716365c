/** The multisig (rs/multisig) and the deposit wrapper (rs/deposit-wrapper), which drive the other contracts. */
module MultisigContract {
  import opened Collections
  import opened Transactions
  import opened FeeSharing
  import opened SafeLedger
  import opened EsdtSafe
  import opened Delivery
  import opened TokenContracts
  import opened MultisigTable
  import opened Bridge

  class MultisigContract {
    const safe: EsdtSafeContract
    const multiTransfer: MultiTransferEsdt
    var users: seq<nat>
    var board: set<nat>
    var numBoardMembers: nat
    var quorum: nat
    var requiredStakeAmount: nat
    var slashAmount: nat
    var amountStaked: map<nat, nat>
    var slashedTokensAmount: nat
    var egld: nat
    var actionMapper: seq<Action>
    var actionSignerIds: map<nat, set<nat>>
    var batchIdToActionId: map<nat, map<BatchHash, nat>>
    var actionIdForSetStatus: map<nat, map<seq<TransactionStatus>, nat>>
    var lastExecutedEthBatchId: nat
    var lastExecutedEthTxId: nat
    var paused: bool

    /** A deployment that MayDeploy refuses leaves no contract behind. */
    constructor (safe: EsdtSafeContract, multiTransfer: MultiTransferEsdt,
                 requiredStake: nat, slash: nat, quorum: nat, members: seq<nat>)
      requires Distinct(members) && quorum <= |members| && slash <= requiredStake
      ensures this.safe == safe && this.multiTransfer == multiTransfer
      ensures BoardOk(State()) && StakesOk(State()) && paused
      ensures State() == Multisig(members, FirstIds(|members|), |members|, quorum, requiredStake, slash,
                                  map[], 0, 0, [], map[], map[], map[], 0, 0, true)
    {
      this.safe, this.multiTransfer := safe, multiTransfer;
      users, board, numBoardMembers := members, FirstIds(|members|), |members|;
      this.quorum, requiredStakeAmount, slashAmount := quorum, requiredStake, slash;
      amountStaked, slashedTokensAmount, egld := map[], 0, 0;
      actionMapper, actionSignerIds := [], map[];
      batchIdToActionId, actionIdForSetStatus := map[], map[];
      lastExecutedEthBatchId, lastExecutedEthTxId := 0, 0;
      paused := true;
    }

    function State(): Multisig
      reads this
    {
      Multisig(users, board, numBoardMembers, quorum, requiredStakeAmount, slashAmount, amountStaked,
               slashedTokensAmount, egld, actionMapper, actionSignerIds, batchIdToActionId, actionIdForSetStatus,
               lastExecutedEthBatchId, lastExecutedEthTxId, paused)
    }

    /** Undoes what performing an action writes. */
    method Revert(m: Multisig)
      requires SameBoard(m, State())
      modifies this`actionMapper, this`actionSignerIds, this`batchIdToActionId, this`actionIdForSetStatus,
               this`lastExecutedEthBatchId, this`lastExecutedEthTxId
      ensures State() == m
    {
      actionMapper, actionSignerIds := m.actions, m.signers;
      batchIdToActionId, actionIdForSetStatus := m.transferIndex, m.statusIndex;
      lastExecutedEthBatchId, lastExecutedEthTxId := m.lastEthBatch, m.lastEthTx;
    }

    /** The two batch queues are different storages. */
    ghost predicate Valid()
      reads this, safe, multiTransfer
    {
      safe.queue != multiTransfer.queue
    }

    /** Everything this contract can reach. */
    ghost function Reached(depositToken: Token, now: nat): World
      reads this, safe, safe.queue, multiTransfer, multiTransfer.queue, multiTransfer.wrapper, multiTransfer.swap
    {
      World(State(), safe.State(), multiTransfer.State(), multiTransfer.wrapper.State(), multiTransfer.swap.State(),
            depositToken, now)
    }

    // ----- Stakes, board and quorum -----

    method Stake(caller: nat, payment: nat) returns (ok: bool)
      modifies this`amountStaked, this`egld
      ensures ok <==> MultisigTable.Stake(old(State()), caller, payment).Some?
      ensures State() == if ok then MultisigTable.Stake(old(State()), caller, payment).value else old(State())
    {
      ok := IsBoardMember(State(), caller);
      if ok {
        amountStaked := Credit(amountStaked, caller, payment);
        egld := egld + payment;
      }
    }

    method Unstake(caller: nat, amount: nat) returns (ok: bool)
      modifies this`amountStaked, this`egld
      ensures ok <==> MultisigTable.Unstake(old(State()), caller, amount).Some?
      ensures State() == if ok then MultisigTable.Unstake(old(State()), caller, amount).value else old(State())
    {
      var staked := Get(amountStaked, caller);
      if amount > staked {
        return false;
      }
      var remaining := staked - amount;
      if IsBoardMember(State(), caller) && remaining < requiredStakeAmount {
        return false;
      }
      if amount > egld {
        return false;
      }
      amountStaked := amountStaked[caller := remaining];
      egld := egld - amount;
      ok := true;
    }

    method AddBoardMember(address: nat)
      modifies this`users, this`board, this`numBoardMembers
      ensures State() == MultisigTable.AddBoardMember(old(State()), address)
    {
      var id := UserId(users, address);
      if id == 0 {
        users := users + [address];
        id := |users|;
      }
      if id !in board {
        numBoardMembers := numBoardMembers + 1;
        board := board + {id};
      }
    }

    method RemoveUser(address: nat) returns (ok: bool)
      modifies this`board, this`numBoardMembers
      ensures ok <==> MultisigTable.RemoveUser(old(State()), address).Some?
      ensures State() == if ok then MultisigTable.RemoveUser(old(State()), address).value else old(State())
    {
      var board0, count0 := board, numBoardMembers;
      var id := UserId(users, address);
      if id != 0 && id in board {
        if numBoardMembers == 0 {
          return false;
        }
        numBoardMembers := numBoardMembers - 1;
        board := board - {id};
      }
      ok := numBoardMembers > 0 && quorum <= numBoardMembers;
      if !ok {
        board, numBoardMembers := board0, count0;
      }
    }

    method SlashBoardMember(address: nat) returns (ok: bool)
      modifies this`board, this`numBoardMembers, this`amountStaked, this`slashedTokensAmount
      ensures Performed(old(State()), MultisigTable.SlashBoardMember(old(State()), address), ok, State())
    {
      ghost var before := State();
      var board0, count0 := board, numBoardMembers;
      ok := RemoveUser(address);
      if ok && slashAmount > Get(amountStaked, address) {
        Reseat(board0, count0);
        ok := false;
      } else if ok {
        MoveStake(address, slashAmount);
      }
      SlashBranch(before, address, ok, State());
    }

    method Reseat(members: set<nat>, count: nat)
      modifies this`board, this`numBoardMembers
      ensures State() == old(State()).(board := members, boardCount := count)
    {
      board, numBoardMembers := members, count;
    }

    /** From the member's stake to the slashed pool. */
    method MoveStake(address: nat, amount: nat)
      requires amount <= Get(amountStaked, address)
      modifies this`amountStaked, this`slashedTokensAmount
      ensures State() == old(State()).(
                staked := old(amountStaked)[address := Get(old(amountStaked), address) - amount],
                slashed := old(slashedTokensAmount) + amount)
    {
      amountStaked := amountStaked[address := Get(amountStaked, address) - amount];
      slashedTokensAmount := slashedTokensAmount + amount;
    }

    method ChangeQuorum(newQuorum: nat) returns (ok: bool)
      modifies this`quorum
      ensures ok <==> MultisigTable.ChangeQuorum(old(State()), newQuorum).Some?
      ensures State() == if ok then MultisigTable.ChangeQuorum(old(State()), newQuorum).value else old(State())
    {
      ok := newQuorum <= numBoardMembers;
      if ok {
        quorum := newQuorum;
      }
    }

    /** The board members with enough stake, each listed once, in the order of their ids. */
    method GetAllStakedRelayers() returns (relayers: seq<nat>)
      ensures forall a :: a in relayers <==> exists id :: 1 <= id <= |users| && StakedAt(id) && users[id - 1] == a
      ensures BoardOk(State()) ==>
        Distinct(relayers) && forall a :: a in relayers <==> IsBoardMember(State(), a) && HasEnoughStake(State(), a)
    {
      relayers := [];
      for id := 1 to |users| + 1
        invariant forall a :: a in relayers <==> exists k :: 1 <= k < id && StakedAt(k) && users[k - 1] == a
        invariant Distinct(users) ==> Distinct(relayers)
      {
        if StakedAt(id) {
          if Distinct(users) {
            assert users[id - 1] !in relayers;
            DistinctPush(relayers, users[id - 1]);
          }
          relayers := relayers + [users[id - 1]];
        }
      }
      if BoardOk(State()) {
        forall a ensures a in relayers <==> IsBoardMember(State(), a) && HasEnoughStake(State(), a) {
          if IsBoardMember(State(), a) && HasEnoughStake(State(), a) {
            assert StakedAt(UserId(users, a));
          }
          if a in relayers {
            var id :| 1 <= id <= |users| && StakedAt(id) && users[id - 1] == a;
            UserIdUnique(users, id);
          }
        }
      }
    }

    predicate StakedAt(id: nat)
      reads this
    {
      1 <= id <= |users| && id in board && HasEnoughStake(State(), users[id - 1])
    }

    method SetPaused(value: bool)
      modifies this`paused
      ensures State() == old(State()).(paused := value)
    {
      paused := value;
    }

    // ----- Actions -----

    method ProposeAction(caller: nat, action: Action) returns (ok: bool, actionId: nat)
      modifies this`actionMapper, this`actionSignerIds
      ensures ok <==> MultisigTable.ProposeAction(old(State()), caller, action).Some?
      ensures State() == if ok then MultisigTable.ProposeAction(old(State()), caller, action).value else old(State())
      ensures ok ==> actionId == |actionMapper| == |old(actionMapper)| + 1
    {
      if !IsBoardMember(State(), caller) || paused {
        return false, 0;
      }
      actionMapper := actionMapper + [action];
      actionId := |actionMapper|;
      if HasEnoughStake(State(), caller) {
        actionSignerIds := actionSignerIds[actionId := Signers(State(), actionId) + {UserId(users, caller)}];
      }
      ok := true;
    }

    method ProposeEsdtSafeSetCurrentTransactionBatchStatus(
      now: nat, caller: nat, batchId: nat, statuses: seq<TransactionStatus>) returns (ok: bool, actionId: nat)
      modifies this`actionMapper, this`actionSignerIds, this`actionIdForSetStatus
      ensures Performed(old(State()),
                        ProposeStatus(old(State()), caller, batchId, statuses, CurrentBatch(safe.queue.State(), now)),
                        ok, State())
      ensures ok ==> actionId == |actionMapper| && ActionAt(State(), actionId) == SetBatchStatus(batchId, statuses)
    {
      actionId := 0;
      var current := safe.queue.GetCurrentTxBatch(now);
      if current.None? || statuses in StatusIds(State(), batchId) {
        return false, 0;
      }
      var (currentId, fields) := current.value;
      var rawLen := TX_FIELDS_ACTUAL * |fields|;
      if rawLen / TX_FIELDS_DECLARED != |statuses| || batchId != currentId {
        return false, 0;
      }
      ok, actionId := ProposeAction(caller, SetBatchStatus(batchId, statuses));
      if ok {
        actionIdForSetStatus := actionIdForSetStatus[batchId := StatusIds(State(), batchId)[statuses := actionId]];
      }
    }

    method ProposeMultiTransferEsdtBatch(hash: Hasher, caller: nat, batchId: nat, transfers: seq<EthTransaction>)
      returns (ok: bool, actionId: nat)
      modifies this`actionMapper, this`actionSignerIds, this`batchIdToActionId
      ensures var r := ProposeTransfer(old(State()), hash, caller, batchId, transfers);
              ok == r.Some? && State() == if ok then r.value else old(State())
      ensures ok ==> actionId == |actionMapper| && ActionAt(State(), actionId) == TransferBatch(batchId, transfers)
    {
      actionId := 0;
      if batchId != lastExecutedEthBatchId + 1 {
        return false, 0;
      }
      ok := RequireValidEthTxIds(lastExecutedEthTxId, transfers);
      if !ok || hash(transfers) in TransferIds(State(), batchId) {
        return false, 0;
      }
      ok, actionId := ProposeAction(caller, TransferBatch(batchId, transfers));
      if ok {
        batchIdToActionId := batchIdToActionId[batchId := TransferIds(State(), batchId)[hash(transfers) := actionId]];
      }
    }

    method Sign(caller: nat, id: nat) returns (ok: bool)
      modifies this`actionSignerIds
      ensures ok <==> MultisigTable.Sign(old(State()), caller, id).Some?
      ensures State() == if ok then MultisigTable.Sign(old(State()), caller, id).value else old(State())
    {
      if ActionAt(State(), id) == Nothing || !IsBoardMember(State(), caller) || !HasEnoughStake(State(), caller) {
        return false;
      }
      actionSignerIds := actionSignerIds[id := Signers(State(), id) + {UserId(users, caller)}];
      ok := true;
    }

    method ClearAction(id: nat)
      modifies this`actionMapper, this`actionSignerIds
      ensures actionMapper == ClearEntries(old(actionMapper), {id})
      ensures actionSignerIds == old(actionSignerIds) - {id}
    {
      if 1 <= id <= |actionMapper| {
        actionMapper := actionMapper[id - 1 := Nothing];
      }
      actionSignerIds := actionSignerIds - {id};
    }

    /** Clears the performed action and then, if there are rivals, every action of the index. */
    method ClearWithSiblings<K>(id: nat, index: map<K, nat>)
      modifies this`actionMapper, this`actionSignerIds
      ensures actionMapper == ClearEntries(old(actionMapper), IdsToClear(id, index))
      ensures actionSignerIds == old(actionSignerIds) - IdsToClear(id, index)
    {
      ghost var actions, signers := actionMapper, actionSignerIds;
      ClearAction(id);
      var rivals := if |index| > 1 then index.Values else {};
      ClearSiblings(rivals);
      ClearTwice(actions, signers, {id}, rivals);
    }

    method ClearSiblings(ids: set<nat>)
      modifies this`actionMapper, this`actionSignerIds
      ensures actionMapper == ClearEntries(old(actionMapper), ids)
      ensures actionSignerIds == old(actionSignerIds) - ids
    {
      ghost var actions, signers := actionMapper, actionSignerIds;
      var todo := ids;
      while todo != {}
        invariant todo <= ids
        invariant actionMapper == ClearEntries(actions, ids - todo)
        invariant actionSignerIds == signers - (ids - todo)
        decreases todo
      {
        var actId :| actId in todo;
        ClearAction(actId);
        ClearTwice(actions, signers, ids - todo, {actId});
        assert ids - todo + {actId} == ids - (todo - {actId});
        todo := todo - {actId};
      }
      assert ids - todo == ids;
    }

    method PerformAction(now: nat, caller: nat, id: nat, facts: Facts, ghost depositToken: Token)
      returns (ok: bool)
      requires Valid()
      modifies this`actionMapper, this`actionSignerIds, this`batchIdToActionId, this`actionIdForSetStatus,
               this`lastExecutedEthBatchId, this`lastExecutedEthTxId,
               safe, safe.queue, multiTransfer, multiTransfer.queue, multiTransfer.wrapper, multiTransfer.swap
      ensures Outcome(old(Reached(depositToken, now)),
                      Bridge.PerformAction(old(Reached(depositToken, now)), caller, id, facts),
                      ok, Reached(depositToken, now))
    {
      if !MayPerform(State(), caller, id) {
        return false;
      }
      ghost var w := Reached(depositToken, now);
      var action := ActionAt(State(), id);
      if action.SetBatchStatus? {
        ok := PerformStatus(id, action.batchId, action.statuses, facts);
        StatusBranch(w, caller, id, facts, ok, Reached(depositToken, now));
      } else {
        ok := PerformTransfer(now, id, action.batchId, action.transfers, facts);
        TransferBranch(w, caller, id, facts, ok, Reached(depositToken, now));
      }
    }

    method CloseStatusAction(id: nat, batchId: nat)
      modifies this`actionMapper, this`actionSignerIds, this`actionIdForSetStatus
      ensures State() == CloseStatus(old(State()), id, batchId)
    {
      ClearWithSiblings(id, StatusIds(State(), batchId));
      actionIdForSetStatus := actionIdForSetStatus - {batchId};
    }

    method CloseTransferAction(id: nat, batchId: nat, transfers: seq<EthTransaction>) returns (ok: bool)
      modifies this`actionMapper, this`actionSignerIds, this`batchIdToActionId,
               this`lastExecutedEthBatchId, this`lastExecutedEthTxId
      ensures ok <==> transfers != []
      ensures ok ==> CloseTransfer(old(State()), id, batchId, transfers) == Some(State())
    {
      ClearTransferIndex(id, batchId);
      ok := AdvanceEthereum(transfers);
    }

    method ClearTransferIndex(id: nat, batchId: nat)
      modifies this`actionMapper, this`actionSignerIds, this`batchIdToActionId
      ensures State() == ClearActions(old(State()), IdsToClear(id, TransferIds(old(State()), batchId))).(
                transferIndex := old(State()).transferIndex - {batchId})
    {
      ClearWithSiblings(id, TransferIds(State(), batchId));
      batchIdToActionId := batchIdToActionId - {batchId};
    }

    /** Fails on an empty batch, because the index of the last transfer would be negative. */
    method AdvanceEthereum(transfers: seq<EthTransaction>) returns (ok: bool)
      modifies this`lastExecutedEthBatchId, this`lastExecutedEthTxId
      ensures ok <==> transfers != []
      ensures ok ==> State() == old(State()).(lastEthBatch := old(lastExecutedEthBatchId) + 1,
                                              lastEthTx := transfers[|transfers| - 1].nonce)
    {
      lastExecutedEthBatchId := lastExecutedEthBatchId + 1;
      ok := |transfers| > 0;
      if ok {
        lastExecutedEthTxId := transfers[|transfers| - 1].nonce;
      }
    }

    /** The status branch of performAction. */
    method PerformStatus(id: nat, batchId: nat, statuses: seq<TransactionStatus>, facts: Facts) returns (ok: bool)
      modifies this`actionMapper, this`actionSignerIds, this`batchIdToActionId, this`actionIdForSetStatus,
               this`lastExecutedEthBatchId, this`lastExecutedEthTxId, safe, safe.queue
      ensures ok <==> SetStatus(old(safe.State()), batchId, statuses, facts.burnable).Some?
      ensures State() == if ok then CloseStatus(old(State()), id, batchId) else old(State())
      ensures safe.State() == if ok then SetStatus(old(safe.State()), batchId, statuses, facts.burnable).value
                              else old(safe.State())
    {
      var before := State();
      CloseStatusAction(id, batchId);
      ok := safe.SetTransactionBatchStatus(batchId, statuses, facts.burnable);
      if !ok {
        Revert(before);
      }
    }

    /** What the delivery contract, the wrapper and the swap do with a batch. */
    ghost function Delivery(now: nat, transfers: seq<EthTransaction>, facts: Facts): Option<Delivered>
      reads this, multiTransfer, multiTransfer.queue, multiTransfer.wrapper, multiTransfer.swap
    {
      BatchTransfer(facts, now, multiTransfer.State(), multiTransfer.wrapper.State(), multiTransfer.swap.State(),
                    transfers)
    }

    /** The transfer branch of performAction. */
    method PerformTransfer(now: nat, id: nat, batchId: nat, transfers: seq<EthTransaction>, facts: Facts)
      returns (ok: bool)
      modifies this`actionMapper, this`actionSignerIds, this`batchIdToActionId, this`actionIdForSetStatus,
               this`lastExecutedEthBatchId, this`lastExecutedEthTxId,
               multiTransfer, multiTransfer.queue, multiTransfer.wrapper, multiTransfer.swap
      ensures ok <==> CloseTransfer(old(State()), id, batchId, transfers).Some?
                      && old(Delivery(now, transfers, facts)).Some?
      ensures State() == if ok then CloseTransfer(old(State()), id, batchId, transfers).value else old(State())
      ensures multiTransfer.State()
              == if ok then old(Delivery(now, transfers, facts)).value.mt else old(multiTransfer.State())
      ensures multiTransfer.wrapper.State()
              == if ok then old(Delivery(now, transfers, facts)).value.wrapper else old(multiTransfer.wrapper.State())
      ensures multiTransfer.swap.State()
              == if ok then old(Delivery(now, transfers, facts)).value.swap else old(multiTransfer.swap.State())
    {
      var before := State();
      ok := CloseTransferAction(id, batchId, transfers);
      if ok {
        var payouts;
        ok, payouts := multiTransfer.BatchTransferEsdtToken(facts, now, transfers);
      }
      if !ok {
        Revert(before);
      }
    }

    /** Takes the first refund batch out of the delivery contract and turns it round in the safe. */
    method MoveRefundBatchToSafe(now: nat, facts: Facts, ghost depositToken: Token)
      requires Valid()
      modifies safe.queue, multiTransfer.queue
      ensures Reached(depositToken, now) == MoveRefundBatch(old(Reached(depositToken, now)), facts)
    {
      var fields := multiTransfer.GetAndClearFirstRefundBatch();
      if fields != [] {
        var refundBatch := [];
        for i := 0 to |fields|
          invariant refundBatch == JoinAll(fields[..i])
        {
          refundBatch := refundBatch + [FromMultiresult(fields[i])];
        }
        assert fields[..|fields|] == fields;
        safe.AddRefundBatch(now, facts.prices, refundBatch);
      }
    }

    method DistributeFeesFromChildContracts(shares: seq<Share>, facts: Facts, ghost depositToken: Token, ghost now: nat)
      returns (ok: bool)
      modifies safe
      ensures ok <==> SafeNext(old(Reached(depositToken, now)), ShareFees(shares, facts)).Some?
      ensures Reached(depositToken, now)
              == if ok then SafeNext(old(Reached(depositToken, now)), ShareFees(shares, facts)).value
                 else old(Reached(depositToken, now))
    {
      var totalPercentage := 0;
      for i := 0 to |shares|
        invariant totalPercentage == PercentSum(shares[..i])
        invariant forall k :: 0 <= k < i ==> shares[k].address !in facts.contracts
      {
        if shares[i].address in facts.contracts {
          return false;
        }
        assert shares[..i + 1][..i] == shares[..i];
        totalPercentage := totalPercentage + shares[i].percentage;
      }
      assert shares[..|shares|] == shares;
      if totalPercentage != PERCENTAGE_TOTAL {
        return false;
      }
      var paid;
      ok, paid := safe.DistributeFees(shares);
    }
  }

  /** A call does what the specification says, or fails and changes nothing. */
  ghost predicate Outcome(before: World, result: Option<World>, ok: bool, after: World) {
    (ok <==> result.Some?) && after == if ok then result.value else before
  }

  /** Performing an action touches neither the board nor the stakes. */
  ghost predicate SameBoard(m: Multisig, n: Multisig) {
    && m.users == n.users && m.board == n.board && m.boardCount == n.boardCount && m.quorum == n.quorum
    && m.requiredStake == n.requiredStake && m.slashAmount == n.slashAmount && m.staked == n.staked
    && m.slashed == n.slashed && m.egld == n.egld && m.paused == n.paused
  }

  /** The same for a call that stays within the multisig. */
  ghost predicate Performed(before: Multisig, result: Option<Multisig>, ok: bool, after: Multisig) {
    (ok <==> result.Some?) && after == if ok then result.value else before
  }

  lemma {:induction false} SlashBranch(m: Multisig, address: nat, ok: bool, after: Multisig)
    requires ok <==> RemoveUser(m, address).Some? && Get(m.staked, address) >= m.slashAmount
    requires ok ==> after == RemoveUser(m, address).value.(
                      staked := m.staked[address := Get(m.staked, address) - m.slashAmount],
                      slashed := m.slashed + m.slashAmount)
    requires !ok ==> after == m
    ensures Performed(m, SlashBoardMember(m, address), ok, after)
  {
  }

  lemma {:induction false} StatusBranch(w: World, caller: nat, id: nat, facts: Facts, ok: bool, after: World)
    requires MayPerform(w.ms, caller, id) && ActionAt(w.ms, id).SetBatchStatus?
    requires var settled := SetStatus(w.safe, ActionAt(w.ms, id).batchId, ActionAt(w.ms, id).statuses, facts.burnable);
             && (ok <==> settled.Some?)
             && after.ms == (if ok then CloseStatus(w.ms, id, ActionAt(w.ms, id).batchId) else w.ms)
             && after.safe == (if ok then settled.value else w.safe)
    requires after.mt == w.mt && after.wrapper == w.wrapper && after.swap == w.swap
    requires after.depositToken == w.depositToken && after.now == w.now
    ensures Outcome(w, Bridge.PerformAction(w, caller, id, facts), ok, after)
  {
  }

  lemma {:induction false} TransferBranch(w: World, caller: nat, id: nat, facts: Facts, ok: bool, after: World)
    requires MayPerform(w.ms, caller, id) && ActionAt(w.ms, id).TransferBatch?
    requires after.safe == w.safe && after.depositToken == w.depositToken && after.now == w.now
    requires var a := ActionAt(w.ms, id);
             var closed := CloseTransfer(w.ms, id, a.batchId, a.transfers);
             var delivered := BatchTransfer(facts, w.now, w.mt, w.wrapper, w.swap, a.transfers);
             && (ok <==> closed.Some? && delivered.Some?)
             && (ok ==> after.ms == closed.value && after.mt == delivered.value.mt
                        && after.wrapper == delivered.value.wrapper && after.swap == delivered.value.swap)
    requires !ok ==> after.ms == w.ms && after.mt == w.mt && after.wrapper == w.wrapper && after.swap == w.swap
    ensures Outcome(w, Bridge.PerformAction(w, caller, id, facts), ok, after)
  {
    TransferResult(w, caller, id, facts);
  }

  lemma {:induction false} TransferResult(w: World, caller: nat, id: nat, facts: Facts)
    requires MayPerform(w.ms, caller, id) && ActionAt(w.ms, id).TransferBatch?
    ensures var a := ActionAt(w.ms, id);
            var closed := CloseTransfer(w.ms, id, a.batchId, a.transfers);
            var delivered := BatchTransfer(facts, w.now, w.mt, w.wrapper, w.swap, a.transfers);
            Bridge.PerformAction(w, caller, id, facts)
            == if closed.None? || delivered.None? then None
               else Some(w.(ms := closed.value, mt := delivered.value.mt, wrapper := delivered.value.wrapper,
                            swap := delivered.value.swap))
  {
  }

  /** The checks of a deployment: no member twice, a reachable quorum, no slash above the stake, and contracts at the
      addresses of the safe and of the delivery contract. */
  method MayDeploy(
    contracts: set<nat>, safe: nat, multiTransfer: nat, requiredStake: nat, slash: nat, quorum: nat, members: seq<nat>)
    returns (ok: bool)
    ensures ok <==> && Distinct(members) && quorum <= |members| && slash <= requiredStake
                    && safe in contracts && multiTransfer in contracts
  {
    var seen: set<nat> := {};
    for i := 0 to |members|
      invariant seen == set a | a in members[..i]
      invariant Distinct(members[..i])
    {
      if members[i] in seen {
        return false;
      }
      seen := seen + {members[i]};
      assert members[..i + 1] == members[..i] + [members[i]];
    }
    assert members[..|members|] == members;
    ok := quorum <= |members| && slash <= requiredStake && safe in contracts && multiTransfer in contracts;
  }

  /** Each deposit nonce must be the one after its predecessor's. */
  method RequireValidEthTxIds(lastExecuted: nat, transfers: seq<EthTransaction>) returns (ok: bool)
    ensures ok <==> Consecutive(transfers, lastExecuted + 1)
  {
    var expected := lastExecuted + 1;
    for i := 0 to |transfers|
      invariant expected == lastExecuted + 1 + i
      invariant Consecutive(transfers[..i], lastExecuted + 1)
    {
      if transfers[i].nonce != expected {
        return false;
      }
      expected := expected + 1;
    }
    ok := true;
  }

  /** Clearing in two rounds is clearing the union at once. */
  lemma {:induction false} ClearTwice(actions: seq<Action>, signers: map<nat, set<nat>>, a: set<nat>, b: set<nat>)
    ensures ClearEntries(ClearEntries(actions, a), b) == ClearEntries(actions, a + b)
    ensures signers - a - b == signers - (a + b)
  {
  }

  /** Swap, unwrap and bridge in one call. */
  class DepositWrapper {
    const wrapper: BridgedTokensWrapper
    const safe: EsdtSafeContract
    const swap: EsdtWEsdtSwap
    const esdtTokenId: Token
    const ethEsdtTokenId: Token

    constructor (wrapper: BridgedTokensWrapper, safe: EsdtSafeContract, swap: EsdtWEsdtSwap, chainToken: Token)
      ensures this.wrapper == wrapper && this.safe == safe && this.swap == swap
      ensures esdtTokenId == swap.esdtTokenId && ethEsdtTokenId == chainToken
    {
      this.wrapper, this.safe, this.swap := wrapper, safe, swap;
      esdtTokenId, ethEsdtTokenId := swap.esdtTokenId, chainToken;
    }

    ghost function Reached(ms: Multisig, mt: MultiTransfer, now: nat): World
      reads safe, safe.queue, wrapper, swap
    {
      World(ms, safe.State(), mt, wrapper.State(), swap.State(), ethEsdtTokenId, now)
    }

    method Deposit(now: nat, caller: nat, to: nat, paid: Payment, facts: Facts,
                   ghost ms: Multisig, ghost mt: MultiTransfer) returns (ok: bool)
      modifies safe, safe.queue, wrapper, swap`lockedBalance, swap`issued
      ensures Outcome(old(Reached(ms, mt, now)),
                      if paid.token != esdtTokenId then None
                      else Bridge.Deposit(old(Reached(ms, mt, now)), caller, to, paid, facts),
                      ok, Reached(ms, mt, now))
    {
      ghost var w := Reached(ms, mt, now);
      if paid.token != esdtTokenId {
        return false;
      }
      var wrapperBefore, lockedBefore, issuedBefore := wrapper.State(), swap.lockedBalance, swap.issued;
      var out;
      ok, out := SwapAndUnwrap(paid, w);
      if ok {
        ok := safe.CreateTransaction(now, facts.prices, caller, to, out);
      }
      if !ok {
        wrapper.Revert(wrapperBefore);
        swap.Revert(lockedBefore, issuedBefore);
      }
      DepositBranch(w, caller, to, paid, facts, ok, Reached(ms, mt, now));
    }

    /** The first two calls: base token to WESDT, WESDT to the chain token. */
    method SwapAndUnwrap(paid: Payment, ghost w: World) returns (ok: bool, out: Payment)
      requires w.wrapper == wrapper.State() && w.swap == swap.State() && w.depositToken == ethEsdtTokenId
      modifies wrapper, swap`lockedBalance, swap`issued
      ensures ok <==> DepositSwap(w, paid).Some?
      ensures ok ==> DepositSwap(w, paid).value == (swap.State(), wrapper.State(), out)
    {
      var wesdt;
      ok, wesdt := swap.WrapEsdt(paid);
      out := wesdt;
      if ok && wesdt.amount < paid.amount {
        ok := false;
      }
      if ok {
        ok, out := wrapper.UnwrapToken(wesdt, ethEsdtTokenId);
        if ok && out.amount < wesdt.amount {
          ok := false;
        }
      }
    }
  }

  lemma {:induction false} DepositBranch(
    w: World, caller: nat, to: nat, paid: Payment, facts: Facts, ok: bool, after: World)
    requires DepositSwap(w, paid).Some? ==>
               var (swap, wrapper, out) := DepositSwap(w, paid).value;
               var created := Create(w.safe, w.now, facts.prices, caller, to, out);
               && (ok <==> created.Some?)
               && (ok ==> after.safe == created.value && after.swap == swap && after.wrapper == wrapper)
    requires DepositSwap(w, paid).None? ==> !ok
    requires !ok ==> after.safe == w.safe && after.swap == w.swap && after.wrapper == w.wrapper
    requires after.ms == w.ms && after.mt == w.mt && after.depositToken == w.depositToken && after.now == w.now
    ensures Outcome(w, Bridge.Deposit(w, caller, to, paid, facts), ok, after)
  {
  }
}
