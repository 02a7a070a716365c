/** The batch storage of a contract and the caching mapper over one batch (rs/common/tx-batch-module). */
module TxBatchModule {
  import opened Collections
  import opened Transactions
  import opened BatchQueue

  class TxBatchStorage {
    var firstBatchId: nat
    var lastBatchId: nat
    var pendingBatches: map<nat, seq<Transaction>>
    var lastTxNonce: nat
    var maxTxBatchSize: nat
    var maxTxBatchBlockDuration: nat

    constructor (maxSize: nat, maxDuration: nat)
      ensures State() == Queue(1, 1, map[], 0, maxSize, maxDuration)
    {
      firstBatchId, lastBatchId := 1, 1;
      pendingBatches := map[];
      lastTxNonce := 0;
      maxTxBatchSize, maxTxBatchBlockDuration := maxSize, maxDuration;
    }

    function State(): Queue
      reads this
    {
      Queue(firstBatchId, lastBatchId, pendingBatches, lastTxNonce, maxTxBatchSize, maxTxBatchBlockDuration)
    }

    /** A failed call leaves no trace: the virtual machine puts the old storage back. */
    method Revert(q: Queue)
      modifies this
      ensures State() == q
    {
      firstBatchId, lastBatchId := q.first, q.last;
      pendingBatches := q.batches;
      lastTxNonce := q.lastNonce;
      maxTxBatchSize, maxTxBatchBlockDuration := q.maxSize, q.maxDuration;
    }

    method SetMaxTxBatchSize(newSize: nat) returns (ok: bool)
      modifies this`maxTxBatchSize
      ensures ok <==> newSize > 0
      ensures State() == if ok then old(State()).(maxSize := newSize) else old(State())
    {
      ok := newSize > 0;
      if ok {
        maxTxBatchSize := newSize;
      }
    }

    method SetMaxTxBatchBlockDuration(newDuration: nat) returns (ok: bool)
      modifies this`maxTxBatchBlockDuration
      ensures ok <==> newDuration > 0
      ensures State() == if ok then old(State()).(maxDuration := newDuration) else old(State())
    {
      ok := newDuration > 0;
      if ok {
        maxTxBatchBlockDuration := newDuration;
      }
    }

    method GetAndSaveNextTxId() returns (id: nat)
      modifies this`lastTxNonce
      ensures id == old(lastTxNonce) + 1
      ensures State() == old(State()).(lastNonce := id)
    {
      lastTxNonce := lastTxNonce + 1;
      id := lastTxNonce;
    }

    method AddToBatch(now: nat, tx: Transaction) returns (batchId: nat)
      modifies this
      ensures State() == Add(old(State()), now, tx)
      ensures batchId == Target(old(State()), now)
    {
      var lastBatch := new TxBatchMapper(this, lastBatchId);
      var full := lastBatch.IsFull(firstBatchId, now);
      if full {
        var newBatch;
        batchId, newBatch := CreateNewBatch(tx);
      } else {
        lastBatch.Push(tx);
        batchId := lastBatchId;
      }
    }

    /** Reads the last batch once and keeps its mapper, instead of reading it again for every transaction. */
    method AddMultipleTxToBatch(now: nat, txs: seq<Transaction>) returns (batchIds: seq<nat>)
      modifies this
      ensures State() == AddAll(old(State()), now, txs)
      ensures batchIds == AddAllIds(old(State()), now, txs)
    {
      batchIds := [];
      if txs == [] {
        return;
      }
      ghost var before := State();
      var first := firstBatchId;
      var lastBatch := new TxBatchMapper(this, lastBatchId);
      for i := 0 to |txs|
        invariant fresh(lastBatch) && lastBatch.IsLastOf(this)
        invariant State() == AddAll(before, now, txs[..i])
        invariant first == firstBatchId
        invariant batchIds == AddAllIds(before, now, txs[..i])
      {
        assert txs[..i + 1][..i] == txs[..i];
        lastBatch := AddThrough(lastBatch, first, now, txs[i]);
        batchIds := batchIds + [lastBatch.batchId];
      }
      assert txs[..|txs|] == txs;
    }

    /** One round of the loop: push through the kept mapper, or open a new batch and keep its mapper. */
    method AddThrough(lastBatch: TxBatchMapper, first: nat, now: nat, tx: Transaction)
      returns (newLast: TxBatchMapper)
      requires lastBatch.IsLastOf(this) && first == firstBatchId
      modifies this, lastBatch
      ensures State() == Add(old(State()), now, tx)
      ensures newLast == lastBatch || fresh(newLast)
      ensures newLast.IsLastOf(this) && newLast.batchId == Target(old(State()), now)
    {
      newLast := lastBatch;
      var full := lastBatch.IsFull(first, now);
      if full {
        var id;
        id, newLast := CreateNewBatch(tx);
      } else {
        lastBatch.Push(tx);
      }
    }

    method CreateNewBatch(tx: Transaction) returns (newBatchId: nat, newBatch: TxBatchMapper)
      modifies this
      ensures newBatchId == old(lastBatchId) + 1
      ensures State() == old(State()).(
                last := newBatchId,
                batches := old(State()).batches[newBatchId := Batch(old(State()), newBatchId) + [tx]])
      ensures fresh(newBatch) && newBatch.storage == this && newBatch.batchId == newBatchId
      ensures newBatch.Coherent()
    {
      newBatchId := lastBatchId + 1;
      newBatch := new TxBatchMapper(this, newBatchId);
      newBatch.Push(tx);
      lastBatchId := newBatchId;
    }

    /** The batch waiting to be processed, split into fields, if there is one. */
    method GetCurrentTxBatch(now: nat) returns (result: Option<(nat, seq<TxFields>)>)
      ensures result == if Offered(State(), now)
                        then Some((firstBatchId, SplitAll(Batch(State(), firstBatchId))))
                        else None
    {
      var firstBatch := new TxBatchMapper(this, firstBatchId);
      var full := firstBatch.IsFull(firstBatchId, now);
      var final := firstBatch.IsFinal(now);
      result := None;
      if full && final {
        var txs := firstBatch.Collect();
        result := Some((firstBatchId, SplitAll(txs)));
      }
    }

    method GetFirstBatchAnyStatus() returns (result: Option<(nat, seq<TxFields>)>)
      ensures result == if Batch(State(), firstBatchId) == [] then None
                        else Some((firstBatchId, SplitAll(Batch(State(), firstBatchId))))
    {
      var batch := new TxBatchMapper(this, firstBatchId);
      result := None;
      if batch.vecLen != 0 {
        var txs := batch.Collect();
        result := Some((firstBatchId, SplitAll(txs)));
      }
    }

    method ClearFirstBatch(batch: TxBatchMapper)
      requires batch.storage == this && batch.batchId == firstBatchId
      modifies this
      ensures State() == ClearFirst(old(State()))
    {
      var newFirst := firstBatchId + 1;
      if lastBatchId == firstBatchId {
        lastBatchId := newFirst;
      }
      firstBatchId := newFirst;
      batch.Clear();
    }
  }

  /** A handle on one stored batch with its length, first and last transaction cached. */
  class TxBatchMapper {
    const storage: TxBatchStorage
    const batchId: nat
    var vecLen: nat
    var firstTx: Option<Transaction>
    var lastTx: Option<Transaction>

    /** What the mapper stands for. */
    ghost function Stored(): seq<Transaction>
      reads storage
    {
      Batch(storage.State(), batchId)
    }

    /** The cache agrees with the stored vector. */
    ghost predicate Coherent()
      reads this, storage
    {
      && vecLen == |Stored()|
      && (vecLen == 0 ==> firstTx == None && lastTx == None)
      && (vecLen > 0 ==> firstTx == Some(Stored()[0]) && lastTx == Some(Stored()[vecLen - 1]))
    }

    /** A coherent handle on the batch that currently takes new transactions. */
    ghost predicate IsLastOf(s: TxBatchStorage)
      reads this, storage, s
    {
      storage == s && batchId == s.lastBatchId && Coherent()
    }

    constructor (storage: TxBatchStorage, batchId: nat)
      ensures this.storage == storage && this.batchId == batchId
      ensures Coherent()
    {
      this.storage, this.batchId := storage, batchId;
      var stored := Batch(storage.State(), batchId);
      vecLen := |stored|;
      if |stored| > 0 {
        firstTx, lastTx := Some(stored[0]), Some(stored[|stored| - 1]);
      } else {
        firstTx, lastTx := None, None;
      }
    }

    method Push(tx: Transaction)
      requires Coherent()
      modifies this, storage`pendingBatches
      ensures Coherent()
      ensures storage.State() == old(storage.State()).(
                batches := old(storage.State()).batches[batchId := old(Stored()) + [tx]])
    {
      if vecLen == 0 {
        firstTx := Some(tx);
      }
      var stored := Batch(storage.State(), batchId);
      storage.pendingBatches := storage.pendingBatches[batchId := stored + [tx]];
      vecLen := vecLen + 1;
      lastTx := Some(tx);
    }

    /** Empties the stored vector; the cache keeps its old values, so the handle must not be used again. */
    method Clear()
      modifies storage`pendingBatches
      ensures storage.State() == old(storage.State()).(batches := old(storage.State()).batches - {batchId})
      ensures old(Coherent()) ==> (Coherent() <==> old(Stored()) == [])
    {
      storage.pendingBatches := storage.pendingBatches - {batchId};
    }

    method IsFull(first: nat, now: nat) returns (full: bool)
      requires Coherent()
      ensures full == BatchFull(Stored(), batchId <= first, storage.maxTxBatchSize,
                                storage.maxTxBatchBlockDuration, now)
    {
      if vecLen == 0 {
        return false;
      }
      if vecLen == storage.maxTxBatchSize {
        return true;
      }
      // only the first batch is closed by age
      if batchId > first {
        return false;
      }
      // reorg protection
      if now < firstTx.value.blockNonce {
        return false;
      }
      full := now - firstTx.value.blockNonce >= storage.maxTxBatchBlockDuration;
    }

    method IsFinal(now: nat) returns (final: bool)
      requires Coherent()
      ensures final == BatchFinal(Stored(), now)
    {
      if vecLen == 0 {
        return false;
      }
      if now < lastTx.value.blockNonce {
        return false;
      }
      final := now - lastTx.value.blockNonce > MIN_BLOCKS_FOR_FINALITY;
    }

    /** Walks the iterator to its end: it yields the stored vector, in order, once. */
    method Collect() returns (txs: seq<Transaction>)
      requires Coherent()
      ensures txs == Stored()
    {
      txs := [];
      var iter := new TxBatchIter(this);
      var next := iter.Next();
      while next.Some?
        invariant fresh(iter) && iter.mapper == this && Coherent()
        invariant next.Some? ==> 2 <= iter.index <= vecLen + 1 && next.value == Stored()[iter.index - 2]
        invariant txs == if next.Some? then Stored()[..iter.index - 2] else Stored()
        decreases next.Some?, vecLen + 1 - iter.index
      {
        txs := txs + [next.value];
        next := iter.Next();
      }
    }
  }

  /** The forward iterator: serves the first and last element from the cache, the rest from storage. */
  class TxBatchIter {
    const mapper: TxBatchMapper
    var index: nat

    constructor (mapper: TxBatchMapper)
      ensures this.mapper == mapper && index == 1
    {
      this.mapper, index := mapper, 1;
    }

    method Next() returns (result: Option<Transaction>)
      requires mapper.Coherent() && 1 <= index
      modifies this`index
      ensures result.Some? <==> old(index) <= mapper.vecLen
      ensures result.Some? ==> result.value == mapper.Stored()[old(index) - 1] && index == old(index) + 1
      ensures result.None? ==> index == old(index)
    {
      var current := index;
      if current > mapper.vecLen {
        return None;
      }
      index := index + 1;
      if current == 1 {
        return mapper.firstTx;
      }
      if current == mapper.vecLen {
        return mapper.lastTx;
      }
      var stored := Batch(mapper.storage.State(), mapper.batchId);
      result := Some(stored[current - 1]);
    }
  }
}
