/** Who stands behind a performed action, over whole runs. */
module QuorumRuns {
  import opened MultisigTable
  import opened Bridge
  import opened ActionTable
  import opened BridgeInvariant
  import opened BridgeRuns

  /** This call is `address` signing or proposing action `id`. */
  predicate EndorsesNow(w: World, step: Step, id: nat, address: nat) {
    || (step.SignBy? && step.caller == address && step.id == id)
    || ((step.ProposeStatusBy? || step.ProposeTransferBy?) && step.caller == address && |w.ms.actions| + 1 == id)
  }

  ghost predicate EndorsedAt(w: World, hash: Hasher, steps: seq<Step>, j: nat, id: nat, address: nat) {
    && j < |steps|
    && Next(Run(w, hash, steps[..j]), hash, steps[j]).Some?
    && EndorsesNow(Run(w, hash, steps[..j]), steps[j], id, address)
  }

  /** At some point of the run `address` itself signed or proposed action `id`. */
  ghost predicate Endorsed(w: World, hash: Hasher, steps: seq<Step>, id: nat, address: nat) {
    exists j :: EndorsedAt(w, hash, steps, j, id, address)
  }

  lemma {:induction false} EndorsedLater(w: World, hash: Hasher, steps: seq<Step>, n: nat, id: nat, address: nat)
    requires n <= |steps| && Endorsed(w, hash, steps[..n], id, address)
    ensures Endorsed(w, hash, steps, id, address)
  {
    var j: nat :| EndorsedAt(w, hash, steps[..n], j, id, address);
    assert steps[..n][..j] == steps[..j];
    assert EndorsedAt(w, hash, steps, j, id, address);
  }

  /** A signature on an action is an old one or the caller's own. */
  ghost predicate OldOrOwn(w: World, r: World, step: Step, id: nat, s: nat) {
    || (s in Signers(w.ms, id) && UserAddress(r.ms, s) == UserAddress(w.ms, s))
    || EndorsesNow(w, step, id, UserAddress(r.ms, s))
  }

  lemma {:induction false} ClearSigners(m: Multisig, n: Multisig, ids: set<nat>, id: nat)
    requires n.signers == ClearActions(m, ids).signers
    ensures Signers(n, id) <= Signers(m, id)
    ensures id !in ids ==> Signers(n, id) == Signers(m, id)
  {
  }

  lemma {:induction false} PerformSigners(w: World, step: Step, id: nat)
    requires step.PerformBy? && PerformAction(w, step.caller, step.id, step.facts).Some?
    ensures var m := PerformAction(w, step.caller, step.id, step.facts).value.ms;
            Signers(m, id) <= Signers(w.ms, id) && m.users == w.ms.users
  {
    var m, a := PerformAction(w, step.caller, step.id, step.facts).value.ms, ActionAt(w.ms, step.id);
    if a.TransferBatch? {
      ClearSigners(w.ms, m, IdsToClear(step.id, TransferIds(w.ms, a.batchId)), id);
    } else {
      ClearSigners(w.ms, m, IdsToClear(step.id, StatusIds(w.ms, a.batchId)), id);
    }
  }

  lemma {:induction false} ProposeSignersOwn(m: Multisig, n: Multisig, caller: nat, action: Action, id: nat, s: nat)
    requires SignersOk(m) && BoardOk(m) && ProposeAction(m, caller, action).Some?
    requires n.signers == ProposeAction(m, caller, action).value.signers && n.users == m.users
    requires s in Signers(n, id)
    ensures s in Signers(m, id) || (id == |m.actions| + 1 && UserAddress(n, s) == caller)
  {
    assert ActionAt(m, |m.actions| + 1) == Nothing && Signers(m, |m.actions| + 1) == {};
  }

  lemma {:induction false} ActionSigners(w: World, hash: Hasher, step: Step, id: nat, s: nat)
    requires WorldOk(w, hash) && IsActionStep(step) && ActionNext(w, hash, step).Some?
    requires s in Signers(ActionNext(w, hash, step).value.ms, id)
    ensures OldOrOwn(w, ActionNext(w, hash, step).value, step, id, s)
  {
    var m := ActionNext(w, hash, step).value.ms;
    if step.ProposeStatusBy? {
      ProposeSignersOwn(w.ms, m, step.caller, SetBatchStatus(step.batchId, step.statuses), id, s);
    } else if step.ProposeTransferBy? {
      ProposeSignersOwn(w.ms, m, step.caller, TransferBatch(step.batchId, step.transfers), id, s);
    } else if step.PerformBy? {
      PerformSigners(w, step, id);
    }
  }

  lemma {:induction false} BoardSigners(w: World, hash: Hasher, step: Step, id: nat, s: nat)
    requires WorldOk(w, hash) && IsBoardStep(step) && BoardNext(w, step).Some?
    requires s in Signers(BoardNext(w, step).value.ms, id)
    ensures OldOrOwn(w, BoardNext(w, step).value, step, id, s)
  {
    BoardFrame(w, hash, step);
    if step.BoardAdd? {
      AddMemberKeepsBoard(w.ms, step.address);
      assert Signers(w.ms, id) != {};
    } else if step.BoardRemove? {
      RemoveUserKeepsBoard(w.ms, step.address);
    }
  }

  lemma {:induction false} SignersStep(w: World, hash: Hasher, step: Step, id: nat, s: nat)
    requires WorldOk(w, hash) && Next(w, hash, step).Some?
    requires s in Signers(Next(w, hash, step).value.ms, id)
    ensures OldOrOwn(w, Next(w, hash, step).value, step, id, s)
  {
    if IsActionStep(step) {
      ActionSigners(w, hash, step, id, s);
    } else if IsBoardStep(step) {
      BoardSigners(w, hash, step, id, s);
    } else if IsSafeStep(step) {
      SafeFrame(w, step);
    } else {
      TokenFrame(w, step);
    }
  }

  /** Nobody's signature is ever made up. */
  lemma {:induction false} SignersEndorsed(w: World, hash: Hasher, steps: seq<Step>, id: nat, s: nat)
    requires Initial(w)
    requires s in Signers(Run(w, hash, steps).ms, id)
    ensures Endorsed(w, hash, steps, id, UserAddress(Run(w, hash, steps).ms, s))
  {
    if steps != [] {
      var n := |steps| - 1;
      var u, step, r := Run(w, hash, steps[..n]), steps[n], Run(w, hash, steps);
      InitialOk(w, hash);
      RunOk(w, hash, steps[..n]);
      if Next(u, hash, step).Some? {
        SignersStep(u, hash, step, id, s);
      }
      if s in Signers(u.ms, id) && UserAddress(r.ms, s) == UserAddress(u.ms, s) {
        SignersEndorsed(w, hash, steps[..n], id, s);
        EndorsedLater(w, hash, steps, n, id, UserAddress(r.ms, s));
      } else {
        assert EndorsedAt(w, hash, steps, n, id, UserAddress(r.ms, s));
      }
    }
  }

  /** Every performed action had at least quorum different accounts behind it, each a sufficiently staked board
      member at that moment, and each of them had signed or proposed that very action before. */
  lemma {:induction false} PerformedActionsHaveQuorum(w: World, hash: Hasher, steps: seq<Step>, k: nat)
    requires Initial(w) && k < |steps| && steps[k].PerformBy?
    requires Next(Run(w, hash, steps[..k]), hash, steps[k]).Some?
    ensures var m, id := Run(w, hash, steps[..k]).ms, steps[k].id;
            && |Endorsers(m, id)| >= m.quorum
            && forall a :: a in Endorsers(m, id) ==>
                 IsBoardMember(m, a) && HasEnoughStake(m, a) && Endorsed(w, hash, steps[..k], id, a)
  {
    var m, id := Run(w, hash, steps[..k]).ms, steps[k].id;
    InitialOk(w, hash);
    RunOk(w, hash, steps[..k]);
    QuorumIsDistinct(m, id);
    forall a | a in Endorsers(m, id) ensures Endorsed(w, hash, steps[..k], id, a) {
      var s :| s in ValidSigners(m, id) && a == UserAddress(m, s);
      SignersEndorsed(w, hash, steps[..k], id, s);
    }
  }

  // ----- Stability -----

  /** A call that does not remove members or change the quorum: everything relayers and users can do. */
  predicate KeepsElectorate(step: Step) {
    !step.BoardRemove? && !step.BoardSlash? && !step.QuorumChange?
  }

  /** Cleared, or still with a quorum. */
  ghost predicate ClearedOrReached(m: Multisig, id: nat) {
    1 <= id <= |m.actions| && (ActionAt(m, id) == Nothing || QuorumReached(m, id))
  }

  lemma {:induction false} StakeQuorum(w: World, hash: Hasher, step: Step, id: nat)
    requires WorldOk(w, hash) && IsBoardStep(step) && KeepsElectorate(step) && BoardNext(w, step).Some?
    requires QuorumReached(w.ms, id)
    ensures QuorumReached(BoardNext(w, step).value.ms, id)
  {
    var m := BoardNext(w, step).value.ms;
    BoardFrame(w, hash, step);
    if step.BoardAdd? {
      AddMemberKeepsBoard(w.ms, step.address);
    } else if step.UnstakeBy? {
      // a member who unstakes keeps the minimum, anyone else was not counted
      forall s | s in ValidSigners(w.ms, id) ensures HasEnoughStake(m, UserAddress(w.ms, s)) {
        UserIdUnique(w.ms.users, s);
      }
    }
    QuorumMonotone(w.ms, m, id);
  }

  lemma {:induction false} PerformQuorum(w: World, hash: Hasher, step: Step, id: nat)
    requires WorldOk(w, hash) && step.PerformBy? && PerformAction(w, step.caller, step.id, step.facts).Some?
    requires 1 <= id <= |w.ms.actions| && (ActionAt(w.ms, id) == Nothing || QuorumReached(w.ms, id))
    ensures ClearedOrReached(PerformAction(w, step.caller, step.id, step.facts).value.ms, id)
  {
    var m := PerformAction(w, step.caller, step.id, step.facts).value.ms;
    var a, first := ActionAt(w.ms, step.id), w.safe.queue.first;
    if a.TransferBatch? {
      CloseTransferWipes(w.ms, hash, first, step.id, id);
      TransferSiblingsCleared(w.ms, hash, first, step.id, id);
      ClearSigners(w.ms, m, IdsToClear(step.id, TransferIds(w.ms, a.batchId)), id);
    } else {
      CloseStatusWipes(w.ms, hash, first, step.id, id);
      StatusSiblingsCleared(w.ms, hash, first, step.id, id);
      ClearSigners(w.ms, m, IdsToClear(step.id, StatusIds(w.ms, a.batchId)), id);
    }
    if ActionAt(m, id) != Nothing {
      QuorumMonotone(w.ms, m, id);
    }
  }

  lemma {:induction false} ProposeQuorum(w: World, hash: Hasher, step: Step, id: nat)
    requires WorldOk(w, hash) && IsActionStep(step) && !step.PerformBy? && ActionNext(w, hash, step).Some?
    requires ClearedOrReached(w.ms, id)
    ensures ClearedOrReached(ActionNext(w, hash, step).value.ms, id)
  {
    var m := ActionNext(w, hash, step).value.ms;
    assert ActionAt(m, id) == ActionAt(w.ms, id);
    if QuorumReached(w.ms, id) {
      QuorumMonotone(w.ms, m, id);
    }
  }

  lemma {:induction false} QuorumStep(w: World, hash: Hasher, step: Step, id: nat)
    requires WorldOk(w, hash) && KeepsElectorate(step) && ClearedOrReached(w.ms, id)
    ensures ClearedOrReached(Apply(w, hash, step).ms, id)
  {
    if Next(w, hash, step).Some? {
      if step.PerformBy? {
        PerformQuorum(w, hash, step, id);
      } else if IsActionStep(step) {
        ProposeQuorum(w, hash, step, id);
      } else if IsBoardStep(step) {
        BoardFrame(w, hash, step);
        if QuorumReached(w.ms, id) {
          StakeQuorum(w, hash, step, id);
        }
      } else if IsSafeStep(step) {
        SafeFrame(w, step);
      } else {
        TokenFrame(w, step);
      }
    }
  }

  /** Once reached, a quorum lasts until the action is cleared, whatever relayers and users do. */
  lemma {:induction false} QuorumLasts(w: World, hash: Hasher, steps: seq<Step>, id: nat)
    requires WorldOk(w, hash) && 1 <= id <= |w.ms.actions| && QuorumReached(w.ms, id)
    requires forall i :: 0 <= i < |steps| ==> KeepsElectorate(steps[i])
    ensures ClearedOrReached(Run(w, hash, steps).ms, id)
  {
    if steps != [] {
      var n := |steps| - 1;
      QuorumLasts(w, hash, steps[..n], id);
      RunOk(w, hash, steps[..n]);
      QuorumStep(Run(w, hash, steps[..n]), hash, steps[n], id);
    }
  }
}
