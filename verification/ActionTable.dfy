/** Proposing and performing keep the action table, its indexes and the counters in step. */
module ActionTable {
  import opened Collections
  import opened Transactions
  import opened MultisigTable
  import opened Bridge

  lemma {:induction false} SameTable(m: Multisig, n: Multisig, hash: Hasher, first: nat)
    requires TableOk(m, hash, first)
    requires n.actions == m.actions && n.transferIndex == m.transferIndex && n.statusIndex == m.statusIndex
    requires n.lastEthBatch == m.lastEthBatch && n.lastEthTx == m.lastEthTx
    ensures TableOk(n, hash, first)
  {
    forall id ensures ActionOk(n, hash, first, id) {
      assert ActionOk(m, hash, first, id);
    }
    forall batchId, h ensures TransferEntryOk(n, hash, batchId, h) {
      assert TransferEntryOk(m, hash, batchId, h);
    }
    forall batchId, statuses ensures StatusEntryOk(n, first, batchId, statuses) {
      assert StatusEntryOk(m, first, batchId, statuses);
    }
  }

  lemma {:induction false} ProposeTransferKeepsTable(
    m: Multisig, hash: Hasher, first: nat, caller: nat, batchId: nat, transfers: seq<EthTransaction>)
    requires TableOk(m, hash, first) && ProposeTransfer(m, hash, caller, batchId, transfers).Some?
    ensures TableOk(ProposeTransfer(m, hash, caller, batchId, transfers).value, hash, first)
  {
    var n := ProposeTransfer(m, hash, caller, batchId, transfers).value;
    var newId := |m.actions| + 1;
    assert forall id :: id != newId ==> ActionAt(n, id) == ActionAt(m, id);
    forall id ensures ActionOk(n, hash, first, id) {
      assert ActionOk(m, hash, first, id);
    }
    forall b, h ensures TransferEntryOk(n, hash, b, h) {
      assert TransferEntryOk(m, hash, b, h);
    }
    forall b, statuses ensures StatusEntryOk(n, first, b, statuses) {
      assert StatusEntryOk(m, first, b, statuses);
    }
  }

  lemma {:induction false} ProposeStatusKeepsTable(
    m: Multisig, hash: Hasher, first: nat, caller: nat, batchId: nat, statuses: seq<TransactionStatus>, size: nat)
    requires TableOk(m, hash, first)
    requires ProposeStatus(m, caller, batchId, statuses, Some((first, size))).Some?
    ensures TableOk(ProposeStatus(m, caller, batchId, statuses, Some((first, size))).value, hash, first)
  {
    var n := ProposeStatus(m, caller, batchId, statuses, Some((first, size))).value;
    var newId := |m.actions| + 1;
    assert forall id :: id != newId ==> ActionAt(n, id) == ActionAt(m, id);
    forall id ensures ActionOk(n, hash, first, id) {
      assert ActionOk(m, hash, first, id);
    }
    forall b, h ensures TransferEntryOk(n, hash, b, h) {
      assert TransferEntryOk(m, hash, b, h);
    }
    forall b, s ensures StatusEntryOk(n, first, b, s) {
      assert StatusEntryOk(m, first, b, s);
    }
  }

  lemma {:induction false} TwoKeys<K, V>(m: map<K, V>, a: K, b: K)
    requires a in m && b in m && a != b
    ensures |m| > 1
  {
    SubsetSize({a, b}, m.Keys);
  }

  /** Although siblings are cleared only if the index holds several, no transfer proposal survives. */
  lemma {:induction false} TransferSiblingsCleared(m: Multisig, hash: Hasher, first: nat, id: nat, other: nat)
    requires TableOk(m, hash, first)
    requires ActionAt(m, id).TransferBatch?
    ensures other in IdsToClear(id, TransferIds(m, ActionAt(m, id).batchId)) <==> ActionAt(m, other).TransferBatch?
  {
    assert ActionOk(m, hash, first, id) && ActionOk(m, hash, first, other);
    var index := TransferIds(m, ActionAt(m, id).batchId);
    if ActionAt(m, other).TransferBatch? && other != id {
      TwoKeys(index, hash(ActionAt(m, id).transfers), hash(ActionAt(m, other).transfers));
    }
    if other in index.Values {
      var h :| h in index && index[h] == other;
      assert TransferEntryOk(m, hash, ActionAt(m, id).batchId, h);
    }
  }

  lemma {:induction false} StatusSiblingsCleared(m: Multisig, hash: Hasher, first: nat, id: nat, other: nat)
    requires TableOk(m, hash, first)
    requires ActionAt(m, id).SetBatchStatus?
    ensures other in IdsToClear(id, StatusIds(m, ActionAt(m, id).batchId)) <==> ActionAt(m, other).SetBatchStatus?
  {
    assert ActionOk(m, hash, first, id) && ActionOk(m, hash, first, other);
    var index := StatusIds(m, ActionAt(m, id).batchId);
    if ActionAt(m, other).SetBatchStatus? && other != id {
      TwoKeys(index, ActionAt(m, id).statuses, ActionAt(m, other).statuses);
    }
    if other in index.Values {
      var s :| s in index && index[s] == other;
      assert StatusEntryOk(m, first, ActionAt(m, id).batchId, s);
    }
  }

  lemma {:induction false} ClearedAt(m: Multisig, ids: set<nat>, i: nat)
    ensures ActionAt(ClearActions(m, ids), i) == if i in ids then Nothing else ActionAt(m, i)
  {
  }

  /** Performing one transfer proposal wipes exactly the transfer proposals. */
  lemma {:induction false} CloseTransferWipes(m: Multisig, hash: Hasher, first: nat, id: nat, i: nat)
    requires TableOk(m, hash, first)
    requires ActionAt(m, id).TransferBatch? && ActionAt(m, id).transfers != []
    ensures var n := CloseTransfer(m, id, ActionAt(m, id).batchId, ActionAt(m, id).transfers).value;
            ActionAt(n, i) == if ActionAt(m, i).TransferBatch? then Nothing else ActionAt(m, i)
  {
    TransferSiblingsCleared(m, hash, first, id, i);
    var ids := IdsToClear(id, TransferIds(m, ActionAt(m, id).batchId));
    ClearedAt(m, ids, i);
    var n := CloseTransfer(m, id, ActionAt(m, id).batchId, ActionAt(m, id).transfers).value;
    assert n.actions == ClearActions(m, ids).actions;
  }

  lemma {:induction false} CloseStatusWipes(m: Multisig, hash: Hasher, first: nat, id: nat, i: nat)
    requires TableOk(m, hash, first)
    requires ActionAt(m, id).SetBatchStatus?
    ensures var n := CloseStatus(m, id, ActionAt(m, id).batchId);
            ActionAt(n, i) == if ActionAt(m, i).SetBatchStatus? then Nothing else ActionAt(m, i)
  {
    StatusSiblingsCleared(m, hash, first, id, i);
    var ids := IdsToClear(id, StatusIds(m, ActionAt(m, id).batchId));
    ClearedAt(m, ids, i);
    assert CloseStatus(m, id, ActionAt(m, id).batchId).actions == ClearActions(m, ids).actions;
  }

  /** The table once the transfer proposals are gone and the counters have moved on. */
  lemma {:induction false} TableWithoutTransfers(m: Multisig, n: Multisig, hash: Hasher, first: nat)
    requires TableOk(m, hash, first)
    requires forall i :: ActionAt(n, i) == if ActionAt(m, i).TransferBatch? then Nothing else ActionAt(m, i)
    requires n.transferIndex == m.transferIndex - {m.lastEthBatch + 1} && n.statusIndex == m.statusIndex
    ensures TableOk(n, hash, first)
  {
    forall i ensures ActionOk(n, hash, first, i) {
      assert ActionOk(m, hash, first, i);
    }
    forall b, h ensures TransferEntryOk(n, hash, b, h) {
      assert TransferEntryOk(m, hash, b, h);
    }
    forall b, s ensures StatusEntryOk(n, first, b, s) {
      assert StatusEntryOk(m, first, b, s);
    }
  }

  /** The table once the status proposals are gone and the next batch has become first. */
  lemma {:induction false} TableWithoutStatuses(m: Multisig, n: Multisig, hash: Hasher, first: nat, next: nat)
    requires TableOk(m, hash, first)
    requires forall i :: ActionAt(n, i) == if ActionAt(m, i).SetBatchStatus? then Nothing else ActionAt(m, i)
    requires n.statusIndex == m.statusIndex - {first} && n.transferIndex == m.transferIndex
    requires n.lastEthBatch == m.lastEthBatch && n.lastEthTx == m.lastEthTx
    ensures TableOk(n, hash, next)
  {
    forall i ensures ActionOk(n, hash, next, i) {
      assert ActionOk(m, hash, first, i);
    }
    forall b, h ensures TransferEntryOk(n, hash, b, h) {
      assert TransferEntryOk(m, hash, b, h);
    }
    forall b, s ensures StatusEntryOk(n, next, b, s) {
      assert StatusEntryOk(m, first, b, s);
    }
  }

  lemma {:induction false} CloseTransferKeepsTable(m: Multisig, hash: Hasher, first: nat, id: nat)
    requires TableOk(m, hash, first)
    requires ActionAt(m, id).TransferBatch? && ActionAt(m, id).transfers != []
    ensures var a := ActionAt(m, id);
            var n := CloseTransfer(m, id, a.batchId, a.transfers).value;
            TableOk(n, hash, first) && n.lastEthTx == m.lastEthTx + |a.transfers|
  {
    var a := ActionAt(m, id);
    assert ActionOk(m, hash, first, id);
    forall i {
      CloseTransferWipes(m, hash, first, id, i);
    }
    TableWithoutTransfers(m, CloseTransfer(m, id, a.batchId, a.transfers).value, hash, first);
  }

  lemma {:induction false} CloseStatusKeepsTable(m: Multisig, hash: Hasher, first: nat, id: nat, next: nat)
    requires TableOk(m, hash, first)
    requires ActionAt(m, id).SetBatchStatus?
    ensures TableOk(CloseStatus(m, id, ActionAt(m, id).batchId), hash, next)
  {
    assert ActionOk(m, hash, first, id);
    forall i {
      CloseStatusWipes(m, hash, first, id, i);
    }
    TableWithoutStatuses(m, CloseStatus(m, id, ActionAt(m, id).batchId), hash, first, next);
  }

  /** Clearing removes the signatures together with the action. */
  lemma {:induction false} ClearKeepsSigners(m: Multisig, ids: set<nat>)
    requires SignersOk(m)
    ensures SignersOk(ClearActions(m, ids))
  {
    var n := ClearActions(m, ids);
    forall id | Signers(n, id) != {}
      ensures ActionAt(n, id) != Nothing && forall s :: s in Signers(n, id) ==> 1 <= s <= |n.users|
    {
      assert Signers(n, id) == Signers(m, id) && id !in ids;
    }
  }
}
