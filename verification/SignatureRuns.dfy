/** Signatures are stored and kept: what sign and propose do to the signer sets, and what enough signatures bring
    about. */
module SignatureRuns {
  import opened Collections
  import opened Delivery
  import opened MultisigTable
  import opened Bridge
  import opened ActionTable
  import opened BridgeInvariant
  import opened BridgeRuns
  import opened Performing
  import opened QuorumRuns

  /** The account has a seat on the board. */
  ghost predicate HasSeat(m: Multisig, address: nat) {
    exists i :: 0 <= i < |m.users| && m.users[i] == address && i + 1 in m.board
  }

  /** The account has staked at least the required amount. */
  predicate Staked(m: Multisig, address: nat) {
    (if address in m.staked then m.staked[address] else 0) >= m.requiredStake
  }

  ghost predicate IsPending(m: Multisig, id: nat) {
    1 <= id <= |m.actions| && m.actions[id - 1] != Nothing
  }

  lemma {:induction false} SeatIs(m: Multisig, address: nat)
    requires BoardOk(m)
    ensures IsBoardMember(m, address) <==> HasSeat(m, address)
  {
    if HasSeat(m, address) {
      var i :| 0 <= i < |m.users| && m.users[i] == address && i + 1 in m.board;
      UserIdUnique(m.users, i + 1);
    }
    if IsBoardMember(m, address) {
      var i := UserId(m.users, address) - 1;
      assert m.users[i] == address && i + 1 in m.board;
    }
  }

  /** A sign goes through exactly for a pending action and a board member with enough stake. It adds the caller's own
      signature to that action and changes nothing else. */
  lemma {:induction false} SignStores(m: Multisig, caller: nat, id: nat)
    requires BoardOk(m)
    ensures Sign(m, caller, id).Some? <==> IsPending(m, id) && HasSeat(m, caller) && Staked(m, caller)
    ensures Sign(m, caller, id).Some? ==>
            var r := Sign(m, caller, id).value;
            && caller in m.users
            && Signers(r, id) == Signers(m, id) + {UserId(m.users, caller)}
            && (forall other :: other != id ==> Signers(r, other) == Signers(m, other))
            && r == m.(signers := r.signers)
  {
    SeatIs(m, caller);
  }

  /** A proposal is stored under the next id. A proposer with enough stake is its only signer; without, it has none. */
  lemma {:induction false} ProposalStores(m: Multisig, caller: nat, action: Action)
    requires BoardOk(m) && SignersOk(m)
    ensures ProposeAction(m, caller, action).Some? <==> HasSeat(m, caller) && !m.paused
    ensures ProposeAction(m, caller, action).Some? ==>
            var r, id := ProposeAction(m, caller, action).value, |m.actions| + 1;
            && r.actions == m.actions + [action] && caller in m.users
            && Signers(r, id) == (if Staked(m, caller) then {UserId(m.users, caller)} else {})
            && (forall other :: other != id ==> Signers(r, other) == Signers(m, other))
            && r == m.(actions := r.actions, signers := r.signers)
  {
    SeatIs(m, caller);
    assert ActionAt(m, |m.actions| + 1) == Nothing && Signers(m, |m.actions| + 1) == {};
  }

  // ----- One step -----

  /** An action that is pending now was pending before, unless it is new. */
  lemma {:induction false} PendingBefore(w: World, hash: Hasher, step: Step, id: nat)
    requires WorldOk(w, hash) && Next(w, hash, step).Some?
    requires IsPending(Next(w, hash, step).value.ms, id) && id <= |w.ms.actions|
    ensures IsPending(w.ms, id)
  {
    if step.PerformBy? {
      PerformKeepsActions(w, hash, step, id);
    } else if !step.ProposeStatusBy? && !step.ProposeTransferBy? {
      OtherEffect(w, hash, step);
    }
  }

  lemma {:induction false} PerformKeepsLength(w: World, caller: nat, id: nat, facts: Facts)
    requires PerformAction(w, caller, id, facts).Some?
    ensures |PerformAction(w, caller, id, facts).value.ms.actions| == |w.ms.actions|
  {
  }

  lemma {:induction false} ActionsOnlyGrow(w: World, hash: Hasher, step: Step)
    requires WorldOk(w, hash) && Next(w, hash, step).Some?
    ensures |w.ms.actions| <= |Next(w, hash, step).value.ms.actions|
  {
    if step.PerformBy? {
      PerformKeepsLength(w, step.caller, step.id, step.facts);
    } else if !step.ProposeStatusBy? && !step.ProposeTransferBy? {
      OtherEffect(w, hash, step);
    }
  }

  lemma {:induction false} PerformKeepsSigners(w: World, hash: Hasher, step: Step, id: nat)
    requires WorldOk(w, hash) && step.PerformBy? && PerformAction(w, step.caller, step.id, step.facts).Some?
    requires IsPending(PerformAction(w, step.caller, step.id, step.facts).value.ms, id)
    ensures Signers(PerformAction(w, step.caller, step.id, step.facts).value.ms, id) == Signers(w.ms, id)
  {
    var m, a := PerformAction(w, step.caller, step.id, step.facts).value.ms, ActionAt(w.ms, step.id);
    var ids := if a.TransferBatch? then IdsToClear(step.id, TransferIds(w.ms, a.batchId))
               else IdsToClear(step.id, StatusIds(w.ms, a.batchId));
    assert m.actions == ClearActions(w.ms, ids).actions && m.signers == ClearActions(w.ms, ids).signers;
    ClearedAt(w.ms, ids, id);
    ClearSigners(w.ms, m, ids, id);
  }

  lemma {:induction false} ActionKeepsSigners(w: World, hash: Hasher, step: Step, id: nat)
    requires WorldOk(w, hash) && IsActionStep(step) && ActionNext(w, hash, step).Some?
    requires IsPending(w.ms, id) && IsPending(ActionNext(w, hash, step).value.ms, id)
    ensures Signers(w.ms, id) <= Signers(ActionNext(w, hash, step).value.ms, id)
  {
    if step.PerformBy? {
      PerformKeepsSigners(w, hash, step, id);
    }
  }

  /** A stored signature stays as long as the action is pending. */
  lemma {:induction false} SignaturesStay(w: World, hash: Hasher, step: Step, id: nat)
    requires WorldOk(w, hash) && Next(w, hash, step).Some?
    requires IsPending(w.ms, id) && IsPending(Next(w, hash, step).value.ms, id)
    ensures Signers(w.ms, id) <= Signers(Next(w, hash, step).value.ms, id)
  {
    if IsActionStep(step) {
      ActionKeepsSigners(w, hash, step, id);
    } else if IsBoardStep(step) {
      BoardFrame(w, hash, step);
    } else if IsSafeStep(step) {
      SafeFrame(w, step);
    } else {
      TokenFrame(w, step);
    }
  }

  /** Ids of known accounts never change. */
  lemma {:induction false} UsersOnlyGrow(w: World, hash: Hasher, step: Step)
    requires WorldOk(w, hash) && Next(w, hash, step).Some?
    ensures w.ms.users <= Next(w, hash, step).value.ms.users
  {
    if IsActionStep(step) {
      ActionKeepsUsers(w, hash, step);
    } else if IsBoardStep(step) {
      if step.BoardAdd? {
        AddMemberKeepsBoard(w.ms, step.address);
      }
    } else if IsSafeStep(step) {
      SafeFrame(w, step);
    } else {
      TokenFrame(w, step);
    }
  }

  lemma {:induction false} ActionKeepsUsers(w: World, hash: Hasher, step: Step)
    requires IsActionStep(step) && ActionNext(w, hash, step).Some?
    ensures ActionNext(w, hash, step).value.ms.users == w.ms.users
  {
  }

  lemma {:induction false} SameId(users: seq<nat>, more: seq<nat>, address: nat)
    requires users <= more && Distinct(more) && address in users
    ensures UserId(more, address) == UserId(users, address)
  {
    UserIdUnique(more, UserId(users, address));
  }

  // ----- Over runs -----

  /** Call `j` is `address` signing action `id`, or proposing it with enough stake. */
  ghost predicate SignedAt(w: World, hash: Hasher, steps: seq<Step>, j: nat, id: nat, address: nat) {
    && EndorsedAt(w, hash, steps, j, id, address)
    && (steps[j].SignBy? || Staked(Run(w, hash, steps[..j]).ms, address))
  }

  ghost predicate Signature(m: Multisig, id: nat, address: nat) {
    address in m.users && UserId(m.users, address) in Signers(m, id)
  }

  lemma {:induction false} SignedNow(w: World, hash: Hasher, step: Step, id: nat, address: nat)
    requires WorldOk(w, hash) && Next(w, hash, step).Some? && EndorsesNow(w, step, id, address)
    requires step.SignBy? || Staked(w.ms, address)
    ensures Signature(Next(w, hash, step).value.ms, id, address)
    ensures id <= |Next(w, hash, step).value.ms.actions|
  {
    if step.SignBy? {
      SignStores(w.ms, step.caller, id);
    } else if step.ProposeStatusBy? {
      ProposalStores(w.ms, step.caller, SetBatchStatus(step.batchId, step.statuses));
    } else {
      ProposalStores(w.ms, step.caller, TransferBatch(step.batchId, step.transfers));
    }
  }

  lemma {:induction false} SignatureStep(w: World, hash: Hasher, step: Step, id: nat, address: nat)
    requires WorldOk(w, hash) && Next(w, hash, step).Some? && WorldOk(Next(w, hash, step).value, hash)
    requires Signature(w.ms, id, address) && IsPending(w.ms, id) && IsPending(Next(w, hash, step).value.ms, id)
    ensures Signature(Next(w, hash, step).value.ms, id, address)
  {
    SignaturesStay(w, hash, step, id);
    UsersOnlyGrow(w, hash, step);
    SameId(w.ms.users, Next(w, hash, step).value.ms.users, address);
  }

  lemma {:induction false} SignedEarlier(
    w: World, hash: Hasher, steps: seq<Step>, n: nat, j: nat, id: nat, address: nat)
    requires j < n <= |steps| && SignedAt(w, hash, steps, j, id, address)
    ensures SignedAt(w, hash, steps[..n], j, id, address)
  {
    assert steps[..n][..j] == steps[..j];
  }

  /** The converse of SignersEndorsed: whoever signed an action, or proposed it with enough stake, is among its
      signers as long as it is pending. */
  lemma {:induction false} SignaturesAreKept(w: World, hash: Hasher, steps: seq<Step>, j: nat, id: nat, address: nat)
    requires Initial(w) && SignedAt(w, hash, steps, j, id, address)
    ensures id <= |Run(w, hash, steps).ms.actions|
    ensures IsPending(Run(w, hash, steps).ms, id) ==> Signature(Run(w, hash, steps).ms, id, address)
  {
    var n := |steps| - 1;
    var u := Run(w, hash, steps[..n]);
    InitialOk(w, hash);
    RunOk(w, hash, steps[..n]);
    RunOk(w, hash, steps);
    if j == n {
      SignedNow(u, hash, steps[n], id, address);
    } else {
      SignedEarlier(w, hash, steps, n, j, id, address);
      SignaturesAreKept(w, hash, steps[..n], j, id, address);
      if Next(u, hash, steps[n]).Some? {
        ActionsOnlyGrow(u, hash, steps[n]);
        if IsPending(Run(w, hash, steps).ms, id) {
          PendingBefore(u, hash, steps[n], id);
          SignatureStep(u, hash, steps[n], id, address);
        }
      }
    }
  }

  /** As many different signers with seat and stake as the quorum asks for are a quorum. */
  lemma {:induction false} EnoughSigners(m: Multisig, id: nat, accounts: set<nat>)
    requires BoardOk(m) && |accounts| >= m.quorum
    requires forall a :: a in accounts ==> Signature(m, id, a) && HasSeat(m, a) && Staked(m, a)
    ensures QuorumReached(m, id)
  {
    forall a | a in accounts ensures a in Endorsers(m, id) {
      SeatIs(m, a);
      var s := UserId(m.users, a);
      assert s in ValidSigners(m, id) && UserAddress(m, s) == a;
    }
    SubsetSize(accounts, Endorsers(m, id));
    ImageSize(m, ValidSigners(m, id));
  }

  /** Over any run: once at least quorum different accounts have signed a pending action, or proposed it with enough
      stake, and still have seat and stake, the quorum is reached. */
  lemma {:induction false} SignaturesMakeQuorum(
    w: World, hash: Hasher, steps: seq<Step>, id: nat, accounts: set<nat>)
    requires Initial(w) && IsPending(Run(w, hash, steps).ms, id) && |accounts| >= Run(w, hash, steps).ms.quorum
    requires forall a :: a in accounts ==>
               && (exists j :: SignedAt(w, hash, steps, j, id, a))
               && HasSeat(Run(w, hash, steps).ms, a) && Staked(Run(w, hash, steps).ms, a)
    ensures QuorumReached(Run(w, hash, steps).ms, id)
  {
    InitialOk(w, hash);
    RunOk(w, hash, steps);
    forall a | a in accounts ensures Signature(Run(w, hash, steps).ms, id, a) {
      var j: nat :| SignedAt(w, hash, steps, j, id, a);
      SignaturesAreKept(w, hash, steps, j, id, a);
    }
    EnoughSigners(Run(w, hash, steps).ms, id, accounts);
  }
}
