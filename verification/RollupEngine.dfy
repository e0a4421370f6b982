/** `WorkspaceRollupEngine` of core/rollup.py. Each method is one critical section; `_flush_batch` runs
    later and may find that the journal has grown in the meantime. */
module RollupEngine {
  import opened Common
  import opened Merkle
  import opened Sorting
  import opened Rollup
  import opened RollupPeers

  function Whole(batch: seq<Transaction>): seq<Transaction> {
    batch
  }

  /** The transactions of some batches, in order. */
  function Flat(batches: seq<seq<Transaction>>): seq<Transaction> {
    FlatMap(Whole, batches)
  }

  /** Where batch k starts. */
  function Offset(batches: seq<seq<Transaction>>, k: nat): nat
    requires k <= |batches|
  {
    |Flat(batches[..k])|
  }

  /** Batches and pending list cut the journal into consecutive pieces. */
  ghost predicate Partition(journal: seq<Transaction>, batches: seq<seq<Transaction>>, pending: seq<Transaction>) {
    && Sequenced(journal) && journal == Flat(batches) + pending
    && forall k :: 0 <= k < |batches| ==> batches[k] != []
  }

  lemma MiddlePiece<T>(s: seq<T>, a: seq<T>, b: seq<T>, c: seq<T>, d: seq<T>)
    requires s == ((a + b) + c) + d
    ensures |a| + |b| <= |s| && b == s[|a|..|a| + |b|]
  {
  }

  /** Batch k is the interval of sequence numbers that starts right after batch k - 1 ends. */
  lemma BatchIsInterval(journal: seq<Transaction>, batches: seq<seq<Transaction>>, pending: seq<Transaction>, k: nat)
    requires Partition(journal, batches, pending) && k < |batches|
    ensures Offset(batches, k + 1) == Offset(batches, k) + |batches[k]| <= |journal|
    ensures batches[k] == journal[Offset(batches, k)..Offset(batches, k + 1)]
    ensures forall i :: 0 <= i < |batches[k]| ==> batches[k][i].seqNo == Offset(batches, k) + i + 1
  {
    var y := batches[k + 1..];
    FlatMapStep(Whole, batches, k);
    assert batches == batches[..k + 1] + y;
    FlatMapConcat(Whole, batches[..k + 1], y);
    MiddlePiece(journal, Flat(batches[..k]), batches[k], Flat(y), pending);
    forall i | 0 <= i < |batches[k]| ensures batches[k][i] == journal[Offset(batches, k) + i] {
    }
  }

  /** Detaching a prefix of the pending list keeps the partition. */
  lemma Detach(journal: seq<Transaction>, batches: seq<seq<Transaction>>, pending: seq<Transaction>, n: nat)
    requires Partition(journal, batches, pending) && 0 < n <= |pending|
    ensures Partition(journal, batches + [pending[..n]], pending[n..])
  {
    var more := batches + [pending[..n]];
    assert more[..|batches|] == batches;
    assert Flat(more) == Flat(batches) + pending[..n];
    assert pending == pending[..n] + pending[n..];
  }

  lemma SliceAccepted(bit: string -> nat, journal: seq<Transaction>, batch: seq<Transaction>, lo: nat, hi: nat, prev: Hash)
    requires Sequenced(journal) && lo < hi <= |journal| && batch == journal[lo..hi] && !prev.Malformed?
    ensures Verify(bit, Build(bit, batch, lo + 1, hi, prev), journal, prev).Accepted? <==> AllLegible(batch)
  {
    OwnBatchAcceptedIff(bit, journal, lo, hi, prev);
  }

  lemma DetachedBatchAccepted(bit: string -> nat, journal: seq<Transaction>, batches: seq<seq<Transaction>>,
                              pending: seq<Transaction>, k: nat, prev: Hash)
    requires Partition(journal, batches, pending) && k < |batches| && !prev.Malformed?
    ensures Verify(bit, Build(bit, batches[k], Offset(batches, k) + 1, Offset(batches, k + 1), prev), journal, prev).Accepted?
      <==> AllLegible(batches[k])
  {
    var lo, hi := Offset(batches, k), Offset(batches, k + 1);
    BatchIsInterval(journal, batches, pending, k);
    assert batches[k] != [];
    SliceAccepted(bit, journal, batches[k], lo, hi, prev);
  }

  class WorkspaceRollupEngine {
    const bit: string -> nat
    var batchSize: int
    var nextSeq: int
    var pending: seq<Transaction>
    var waiters: seq<nat>
    var journal: seq<Transaction>
    ghost var detached: seq<seq<Transaction>>

    ghost predicate Valid()
      reads this
    {
      batchSize > 0 && nextSeq == |journal| + 1 && Partition(journal, detached, pending)
    }

    constructor (bit: string -> nat, batchSize: int)
      requires batchSize > 0
      ensures Valid() && journal == [] && this.bit == bit && this.batchSize == batchSize
    {
      this.bit, this.batchSize := bit, batchSize;
      nextSeq, pending, waiters, journal, detached := 1, [], [], [], [];
    }

    method SetBatchSize(size: int) returns (ok: bool)
      requires Valid()
      modifies this`batchSize
      ensures Valid() && ok == (size > 0) && batchSize == if ok then size else old(batchSize)
    {
      ok := size > 0;
      if ok {
        batchSize := size;
      }
    }

    /** `ingest_transaction`: the next sequence number, appended to the pending list and the journal. */
    method IngestTransaction(m: Material) returns (t: Transaction)
      requires Valid()
      modifies this`nextSeq, this`pending, this`journal
      ensures Valid() && t == Transaction(old(nextSeq), m)
      ensures journal == old(journal) + [t] && pending == old(pending) + [t] && nextSeq == old(nextSeq) + 1
    {
      t := Transaction(nextSeq, m);
      nextSeq := nextSeq + 1;
      pending := pending + [t];
      journal := journal + [t];
    }

    /** The second half of `submit_transaction`: register a waiter and detach a full batch. */
    method RegisterWaiter(waiter: nat) returns (batch: Option<seq<Transaction>>)
      requires Valid()
      modifies this`pending, this`waiters, this`detached
      ensures Valid()
      ensures batch.Some? <==> |old(pending)| >= batchSize && |old(waiters)| + 1 >= batchSize
      ensures batch.Some? ==> |batch.value| == batchSize && batch.value + pending == old(pending)
      ensures batch.Some? ==> |waiters| == |old(waiters)| + 1 - batchSize && detached == old(detached) + [batch.value]
      ensures batch.None? ==> pending == old(pending) && waiters == old(waiters) + [waiter] && detached == old(detached)
    {
      waiters := waiters + [waiter];
      batch := None;
      if |pending| >= batchSize && |waiters| >= batchSize {
        var first := pending[..batchSize];
        Detach(journal, detached, pending, batchSize);
        assert pending == first + pending[batchSize..];
        pending, waiters := pending[batchSize..], waiters[batchSize..];
        detached := detached + [first];
        batch := Some(first);
      }
    }

    /** `flush`: detach everything that is pending. */
    method Flush() returns (batch: Option<seq<Transaction>>)
      requires Valid()
      modifies this`pending, this`waiters, this`detached
      ensures Valid()
      ensures batch.None? <==> old(pending) == []
      ensures batch.Some? ==> batch.value == old(pending) && pending == [] && waiters == []
      ensures batch.Some? ==> detached == old(detached) + [batch.value]
      ensures batch.None? ==> pending == old(pending) && waiters == old(waiters) && detached == old(detached)
    {
      if pending == [] {
        return None;
      }
      Detach(journal, detached, pending, |pending|);
      assert pending[..|pending|] == pending && pending[|pending|..] == [];
      batch := Some(pending);
      detached := detached + [pending];
      pending, waiters := [], [];
    }

    /** `_flush_batch` for a batch detached earlier: the payload passes the engine's own verification
        exactly when no transaction of the batch lacks a correlation id or an event. */
    method FlushBatch(batch: seq<Transaction>, ghost k: nat, prev: Hash) returns (p: Payload)
      requires Valid() && k < |detached| && detached[k] == batch && !prev.Malformed?
      ensures p.first == Offset(detached, k) + 1 && p.last == Offset(detached, k + 1) && p.count == |batch|
      ensures p == Build(bit, batch, p.first, p.last, prev) && CommitsTo(bit, p, batch, prev)
      ensures Verify(bit, p, journal, prev).Accepted? <==> AllLegible(batch)
    {
      var lo, hi := SeqBounds(batch);
      IntervalBounds(journal, detached, pending, k, lo, hi);
      DetachedBatchAccepted(bit, journal, detached, pending, k, prev);
      BuildHeader(bit, batch, lo, hi, prev);
      BatchIsInterval(journal, detached, pending, k);
      BuiltCommits(bit, batch, lo, hi, prev);
      p := Build(bit, batch, lo, hi, prev);
    }
  }

  /** `lo` and `hi` are the least and the greatest sequence number of the batch. */
  ghost predicate Bounds(batch: seq<Transaction>, lo: int, hi: int) {
    && (forall i :: 0 <= i < |batch| ==> lo <= batch[i].seqNo <= hi)
    && (exists i :: 0 <= i < |batch| && batch[i].seqNo == lo)
    && (exists i :: 0 <= i < |batch| && batch[i].seqNo == hi)
  }

  /** `min` and `max` over the sequence numbers of a batch. */
  method SeqBounds(batch: seq<Transaction>) returns (lo: int, hi: int)
    requires batch != []
    ensures Bounds(batch, lo, hi)
  {
    ghost var a, b := 0, 0;
    lo, hi := batch[0].seqNo, batch[0].seqNo;
    for k := 1 to |batch|
      invariant forall i :: 0 <= i < k ==> lo <= batch[i].seqNo <= hi
      invariant 0 <= a < |batch| && 0 <= b < |batch| && batch[a].seqNo == lo && batch[b].seqNo == hi
    {
      if batch[k].seqNo < lo {
        lo, a := batch[k].seqNo, k;
      }
      if batch[k].seqNo > hi {
        hi, b := batch[k].seqNo, k;
      }
    }
  }

  lemma IntervalBounds(journal: seq<Transaction>, batches: seq<seq<Transaction>>, pending: seq<Transaction>, k: nat, lo: int, hi: int)
    requires Partition(journal, batches, pending) && k < |batches|
    requires Bounds(batches[k], lo, hi)
    ensures lo == Offset(batches, k) + 1 && hi == Offset(batches, k + 1)
  {
    BatchIsInterval(journal, batches, pending, k);
    var b := batches[k];
    assert lo <= b[0].seqNo && b[|b| - 1].seqNo <= hi;
  }

  lemma BuildHeader(bit: string -> nat, batch: seq<Transaction>, first: int, last: int, prev: Hash)
    ensures var p := Build(bit, batch, first, last, prev); p.first == first && p.last == last && p.count == |batch|
  {
    SortPermutes(CoarseLeq, batch);
  }
}
