/** What the transaction batch module (rs/common/tx-batch-module) computes, as functions on values. */
module BatchQueue {
  import opened Transactions

  datatype Queue = Queue(
    first: nat, last: nat, batches: map<nat, seq<Transaction>>, lastNonce: nat,
    maxSize: nat, maxDuration: nat)

  function Batch(q: Queue, id: nat): seq<Transaction> {
    if id in q.batches then q.batches[id] else []
  }

  /** A batch is full by size, or, if it is the first one, by the age of its oldest transaction. */
  predicate BatchFull(batch: seq<Transaction>, isFirst: bool, maxSize: nat, maxDuration: nat, now: nat) {
    && |batch| > 0
    && (|| |batch| == maxSize
        || (isFirst && batch[0].blockNonce <= now && now - batch[0].blockNonce >= maxDuration))
  }

  predicate IsFull(q: Queue, id: nat, now: nat) {
    BatchFull(Batch(q, id), id <= q.first, q.maxSize, q.maxDuration, now)
  }

  predicate BatchFinal(batch: seq<Transaction>, now: nat) {
    && |batch| > 0
    && batch[|batch| - 1].blockNonce <= now
    && now - batch[|batch| - 1].blockNonce > MIN_BLOCKS_FOR_FINALITY
  }

  /** The first batch may be processed: it accepts no more transactions and cannot be reorganised away. */
  predicate Offered(q: Queue, now: nat) {
    IsFull(q, q.first, now) && BatchFinal(Batch(q, q.first), now)
  }

  /** The batch the next transaction goes to. */
  function Target(q: Queue, now: nat): nat {
    if IsFull(q, q.last, now) then q.last + 1 else q.last
  }

  function Add(q: Queue, now: nat, tx: Transaction): Queue {
    var id := Target(q, now);
    q.(last := id, batches := q.batches[id := Batch(q, id) + [tx]])
  }

  function AddAll(q: Queue, now: nat, txs: seq<Transaction>): Queue {
    if txs == [] then q
    else Add(AddAll(q, now, txs[..|txs| - 1]), now, txs[|txs| - 1])
  }

  /** The batch id each transaction of AddAll ends up in. */
  function AddAllIds(q: Queue, now: nat, txs: seq<Transaction>): (ids: seq<nat>)
    ensures |ids| == |txs|
  {
    if txs == [] then []
    else
      AddAllIds(q, now, txs[..|txs| - 1]) + [Target(AddAll(q, now, txs[..|txs| - 1]), now)]
  }

  function ClearFirst(q: Queue): Queue {
    q.(first := q.first + 1,
       last := if q.last == q.first then q.first + 1 else q.last,
       batches := q.batches - {q.first})
  }

  /** The contents of batches lo .. hi - 1, in order. */
  ghost function Concat(q: Queue, lo: nat, hi: nat): seq<Transaction>
    decreases hi
  {
    if hi <= lo then [] else Concat(q, lo, hi - 1) + Batch(q, hi - 1)
  }

  /** Every transaction waiting in the module, oldest first. */
  ghost function Waiting(q: Queue): seq<Transaction> {
    Concat(q, q.first, q.last + 1)
  }

  ghost predicate QueueOk(q: Queue) {
    && 1 <= q.first <= q.last
    && 0 < q.maxSize
    && 0 < q.maxDuration
    && (forall id :: id in q.batches && q.batches[id] != [] ==> q.first <= id <= q.last)
    // only a sole batch may be empty
    && (forall id :: q.first <= id <= q.last && Batch(q, id) == [] ==> q.first == q.last)
  }

  predicate EmptyQueue(q: Queue) {
    q.first == 1 && q.last == 1 && q.batches == map[] && q.lastNonce == 0 && 0 < q.maxSize && 0 < q.maxDuration
  }

  lemma {:induction false} ConcatSame(q: Queue, p: Queue, lo: nat, hi: nat)
    requires forall id :: lo <= id < hi ==> Batch(q, id) == Batch(p, id)
    ensures Concat(q, lo, hi) == Concat(p, lo, hi)
    decreases hi
  {
    if lo < hi {
      ConcatSame(q, p, lo, hi - 1);
    }
  }

  lemma {:induction false} ConcatSplit(q: Queue, lo: nat, hi: nat)
    requires lo < hi
    ensures Concat(q, lo, hi) == Batch(q, lo) + Concat(q, lo + 1, hi)
    decreases hi
  {
    if lo + 1 < hi {
      ConcatSplit(q, lo, hi - 1);
    }
  }

  /** Adding is first-in-first-out: the transaction goes to the very end, everything else stays. */
  lemma {:induction false} AddAppends(q: Queue, now: nat, tx: Transaction)
    requires QueueOk(q)
    ensures QueueOk(Add(q, now, tx))
    ensures Waiting(Add(q, now, tx)) == Waiting(q) + [tx]
    ensures Add(q, now, tx).first == q.first && q.last <= Add(q, now, tx).last
  {
    var p := Add(q, now, tx);
    var id := Target(q, now);
    ConcatSame(q, p, q.first, id);
    if id == q.last {
      assert Waiting(p) == Concat(q, q.first, id) + (Batch(q, id) + [tx]);
    } else {
      assert Batch(q, id) == [];
      assert Waiting(p) == Waiting(q) + [tx];
    }
  }

  lemma {:induction false} AddAllAppends(q: Queue, now: nat, txs: seq<Transaction>)
    requires QueueOk(q)
    ensures QueueOk(AddAll(q, now, txs))
    ensures Waiting(AddAll(q, now, txs)) == Waiting(q) + txs
    ensures AddAll(q, now, txs).first == q.first
    ensures AddAll(q, now, txs).lastNonce == q.lastNonce
    ensures AddAll(q, now, txs).maxSize == q.maxSize && AddAll(q, now, txs).maxDuration == q.maxDuration
  {
    if txs != [] {
      var n := |txs| - 1;
      AddAllAppends(q, now, txs[..n]);
      AddAppends(AddAll(q, now, txs[..n]), now, txs[n]);
      assert txs == txs[..n] + [txs[n]];
    }
  }

  /** Batches only grow until they are cleared. */
  lemma {:induction false} AddAllGrowsFirst(q: Queue, now: nat, txs: seq<Transaction>)
    ensures Batch(q, q.first) <= Batch(AddAll(q, now, txs), q.first)
    ensures AddAll(q, now, txs).first == q.first
  {
    if txs != [] {
      AddAllGrowsFirst(q, now, txs[..|txs| - 1]);
    }
  }

  lemma {:induction false} AddPuts(q: Queue, now: nat, tx: Transaction, id: nat, x: Transaction)
    ensures tx in Batch(Add(q, now, tx), Target(q, now))
    ensures x in Batch(q, id) ==> x in Batch(Add(q, now, tx), id)
  {
    assert (Batch(q, Target(q, now)) + [tx])[|Batch(q, Target(q, now))|] == tx;
  }

  lemma {:induction false} AddAllSnoc(q: Queue, now: nat, init: seq<Transaction>, tx: Transaction)
    ensures AddAll(q, now, init + [tx]) == Add(AddAll(q, now, init), now, tx)
    ensures AddAllIds(q, now, init + [tx]) == AddAllIds(q, now, init) + [Target(AddAll(q, now, init), now)]
  {
    assert (init + [tx])[..|init|] == init;
  }

  /** Transaction `i` is in the batch that the returned ids name for it. */
  ghost predicate Landed(q: Queue, now: nat, txs: seq<Transaction>, i: nat) {
    i < |txs| && txs[i] in Batch(AddAll(q, now, txs), AddAllIds(q, now, txs)[i])
  }

  lemma {:induction false} LandedStep(q: Queue, now: nat, init: seq<Transaction>, tx: Transaction, i: nat)
    requires i <= |init| && (i < |init| ==> Landed(q, now, init, i))
    ensures Landed(q, now, init + [tx], i)
  {
    AddAllSnoc(q, now, init, tx);
    if i < |init| {
      AddPuts(AddAll(q, now, init), now, tx, AddAllIds(q, now, init)[i], init[i]);
    } else {
      AddPuts(AddAll(q, now, init), now, tx, 0, tx);
    }
  }

  lemma {:induction false} AddAllIdsAre(q: Queue, now: nat, txs: seq<Transaction>, i: nat)
    requires i < |txs|
    ensures Landed(q, now, txs, i)
  {
    var init, last := txs[..|txs| - 1], txs[|txs| - 1];
    if i < |init| {
      AddAllIdsAre(q, now, init, i);
    }
    LandedStep(q, now, init, last, i);
    assert init + [last] == txs;
  }

  /** Clearing takes exactly the first batch off the front; its id is never handed out again. */
  lemma {:induction false} ClearFirstDrops(q: Queue)
    requires QueueOk(q)
    ensures QueueOk(ClearFirst(q))
    ensures Waiting(q) == Batch(q, q.first) + Waiting(ClearFirst(q))
    ensures q.first < ClearFirst(q).first <= ClearFirst(q).last
  {
    var p := ClearFirst(q);
    ConcatSplit(q, q.first, q.last + 1);
    ConcatSame(q, p, q.first + 1, q.last + 1);
    if q.last == q.first {
      assert Concat(p, p.first, p.last) == [];
      assert Batch(p, p.first) == [];
    }
  }

  /** Where a waiting transaction of the first batch sits in the queue. */
  lemma {:induction false} FirstBatchIsPrefix(q: Queue)
    requires QueueOk(q)
    ensures Batch(q, q.first) <= Waiting(q)
  {
    ConcatSplit(q, q.first, q.last + 1);
  }

  // ----- Freezing -----

  /** The first batch has something in it and takes nothing more. */
  predicate Closed(q: Queue, now: nat) {
    Batch(q, q.first) != [] && (q.first < q.last || IsFull(q, q.first, now))
  }

  /** Exactly a closed batch is safe from the next transaction. */
  lemma {:induction false} ClosedIffUntouched(q: Queue, now: nat)
    requires QueueOk(q) && Batch(q, q.first) != []
    ensures Closed(q, now) <==> forall tx :: Batch(Add(q, now, tx), q.first) == Batch(q, q.first)
  {
    if !Closed(q, now) {
      var tx := Batch(q, q.first)[0];
      assert |Batch(Add(q, now, tx), q.first)| == |Batch(q, q.first)| + 1;
    }
  }

  lemma {:induction false} OfferedIsClosed(q: Queue, now: nat)
    requires Offered(q, now)
    ensures Closed(q, now)
  {
  }

  /** A closed batch stays closed, with the same content, whatever is added later; an offered one stays offered. */
  lemma {:induction false} AddAllKeepsClosed(q: Queue, now: nat, txs: seq<Transaction>)
    requires q.first <= q.last && Closed(q, now)
    ensures var p := AddAll(q, now, txs);
            && p.first == q.first && p.first <= p.last && Closed(p, now)
            && p.maxSize == q.maxSize && p.maxDuration == q.maxDuration
            && Batch(p, q.first) == Batch(q, q.first)
    ensures Offered(q, now) ==> Offered(AddAll(q, now, txs), now)
  {
    if txs != [] {
      var n := |txs| - 1;
      AddAllKeepsClosed(q, now, txs[..n]);
      assert Target(AddAll(q, now, txs[..n]), now) != q.first;
    }
  }

  /** The passing of time neither reopens a batch nor withdraws an offer. */
  lemma {:induction false} TimeKeepsOffer(q: Queue, now: nat, later: nat)
    requires now <= later
    ensures Offered(q, now) ==> Offered(q, later)
    ensures Closed(q, now) ==> Closed(q, later)
  {
  }

  /** New limits keep the first batch closed if and only if it is not the last one, or they make it full. */
  lemma {:induction false} LimitsKeepClosed(q: Queue, maxSize: nat, maxDuration: nat, now: nat)
    requires Batch(q, q.first) != []
    ensures Closed(q.(maxSize := maxSize, maxDuration := maxDuration), now) <==>
            q.first < q.last || BatchFull(Batch(q, q.first), true, maxSize, maxDuration, now)
  {
  }

  /** New limits keep an offer if and only if they make its batch full. */
  lemma {:induction false} LimitsKeepOffer(q: Queue, maxSize: nat, maxDuration: nat, now: nat)
    requires Offered(q, now)
    ensures Offered(q.(maxSize := maxSize, maxDuration := maxDuration), now) <==>
            BatchFull(Batch(q, q.first), true, maxSize, maxDuration, now)
  {
  }

  /** Block nonces never decrease along the queue and none lies in the future. */
  ghost predicate AgesOk(txs: seq<Transaction>, now: nat) {
    && (forall i, j :: 0 <= i <= j < |txs| ==> txs[i].blockNonce <= txs[j].blockNonce)
    && (forall i :: 0 <= i < |txs| ==> txs[i].blockNonce <= now)
  }

  lemma {:induction false} AgesAppend(txs: seq<Transaction>, more: seq<Transaction>, now: nat)
    requires AgesOk(txs, now)
    requires forall i :: 0 <= i < |more| ==> more[i].blockNonce == now
    ensures AgesOk(txs + more, now)
  {
  }

  /** Checking only the last transaction for finality is enough. */
  lemma {:induction false} OfferedIsAllFinal(q: Queue, now: nat)
    requires QueueOk(q) && AgesOk(Waiting(q), now) && Offered(q, now)
    ensures forall i :: 0 <= i < |Batch(q, q.first)| ==>
              Batch(q, q.first)[i].blockNonce + MIN_BLOCKS_FOR_FINALITY < now
  {
    FirstBatchIsPrefix(q);
    var b := Batch(q, q.first);
    forall i | 0 <= i < |b| ensures b[i].blockNonce + MIN_BLOCKS_FOR_FINALITY < now {
      assert Waiting(q)[i] == b[i] && Waiting(q)[|b| - 1] == b[|b| - 1];
    }
  }

  /** What is offered, said on the waiting transactions: the first batch when it has as many transactions as the
      limit, or when its oldest is as old as the duration, and in either case when its newest is more than ten
      blocks old. */
  lemma {:induction false} OfferedIff(q: Queue, now: nat)
    requires QueueOk(q) && AgesOk(Waiting(q), now)
    ensures var b := Batch(q, q.first);
            && b <= Waiting(q)
            && (Offered(q, now) <==>
                  && b != []
                  && (|b| == q.maxSize || Waiting(q)[0].blockNonce + q.maxDuration <= now)
                  && Waiting(q)[|b| - 1].blockNonce + 10 < now)
  {
    FirstBatchIsPrefix(q);
    var b := Batch(q, q.first);
    assert forall i :: 0 <= i < |b| ==> b[i] == Waiting(q)[i];
  }

  /** The nonces are the contiguous range that ends at the last nonce handed out. */
  ghost predicate NoncesOk(txs: seq<Transaction>, lastNonce: nat) {
    && |txs| <= lastNonce
    && forall i :: 0 <= i < |txs| ==> txs[i].nonce == lastNonce - |txs| + 1 + i
  }

  lemma {:induction false} NoncesAppend(txs: seq<Transaction>, more: seq<Transaction>, lastNonce: nat)
    requires NoncesOk(txs, lastNonce)
    requires forall i :: 0 <= i < |more| ==> more[i].nonce == lastNonce + 1 + i
    ensures NoncesOk(txs + more, lastNonce + |more|)
  {
  }

  lemma {:induction false} SuffixKeepsLaws(batch: seq<Transaction>, rest: seq<Transaction>, lastNonce: nat, now: nat)
    requires NoncesOk(batch + rest, lastNonce) && AgesOk(batch + rest, now)
    ensures NoncesOk(rest, lastNonce) && AgesOk(rest, now)
  {
    var all := batch + rest;
    assert forall i :: 0 <= i < |rest| ==> rest[i] == all[|batch| + i];
  }

  /** No batch is larger than the size limit. */
  ghost predicate SizesOk(q: Queue) {
    SizesWithin(q, q.maxSize)
  }

  ghost predicate SizesWithin(q: Queue, maxSize: nat) {
    forall id :: id in q.batches ==> |q.batches[id]| <= maxSize
  }

  lemma {:induction false} AddKeepsSizes(q: Queue, now: nat, tx: Transaction)
    requires QueueOk(q) && SizesOk(q)
    ensures SizesOk(Add(q, now, tx))
  {
    assert Target(q, now) != q.last ==> Batch(q, Target(q, now)) == [];
  }

  lemma {:induction false} AddAllKeepsSizes(q: Queue, now: nat, txs: seq<Transaction>)
    requires QueueOk(q) && SizesOk(q)
    ensures SizesOk(AddAll(q, now, txs))
  {
    if txs != [] {
      var n := |txs| - 1;
      AddAllKeepsSizes(q, now, txs[..n]);
      AddAllAppends(q, now, txs[..n]);
      AddKeepsSizes(AddAll(q, now, txs[..n]), now, txs[n]);
    }
  }
}
