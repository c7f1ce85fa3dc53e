/** The orchestrator: split the uploaded links into batches and collect the batches in order. */
module Orchestrator {
  import opened Json
  import opened Collector
  import opened Seqs
  import opened Batch

  /** The number of batches the links are split into. */
  const NumBatches: nat := 4

  /** `count` consecutive slices of `size` elements each, from the front of `xs`. */
  function Slices<T>(xs: seq<T>, size: nat, count: nat): (r: seq<seq<T>>)
    requires count * size <= |xs|
    ensures |r| == count
    ensures forall i :: 0 <= i < count ==> r[i] == xs[i * size..(i + 1) * size]
    decreases count
  {
    if count == 0 then []
    else
      var init := Slices(xs, size, count - 1);
      var r := init + [xs[(count - 1) * size..count * size]];
      assert r[..count - 1] == init;
      r
  }

  /** The slices together are the first `count * size` elements of `xs`, in order. */
  lemma {:induction false} SlicesCover<T>(xs: seq<T>, size: nat, count: nat)
    requires count * size <= |xs|
    ensures Flatten(Slices(xs, size, count)) == xs[..count * size]
    decreases count
  {
    if count > 0 {
      var lo, hi := (count - 1) * size, count * size;
      assert lo + size == hi;
      SlicesCover(xs, size, count - 1);
      var init := Slices(xs, size, count - 1);
      assert Slices(xs, size, count) == init + [xs[lo..hi]];
      FlattenSnoc(init, xs[lo..hi]);
      assert xs[..lo] + xs[lo..hi] == xs[..hi];
    }
  }

  /**
   * The batches: NumBatches contiguous slices of `|xs| / NumBatches` elements
   * each, in order; integer division leaves the last `|xs| % NumBatches`
   * elements out of every batch.
   */
  function Partition<T>(xs: seq<T>): (batches: seq<seq<T>>)
    ensures |batches| == NumBatches
    ensures forall i :: 0 <= i < NumBatches ==> |batches[i]| == |xs| / NumBatches
    ensures Flatten(batches) == xs[..NumBatches * (|xs| / NumBatches)]
  {
    SlicesCover(xs, |xs| / NumBatches, NumBatches);
    Slices(xs, |xs| / NumBatches, NumBatches)
  }

  /** No two positions of `xs` hold the same element. */
  predicate Distinct<T(==)>(xs: seq<T>)
  {
    forall i, j :: 0 <= i < j < |xs| ==> xs[i] != xs[j]
  }

  /** Batch `a` ends no later than batch `b` begins. */
  lemma BatchBoundsOrdered(a: nat, b: nat, size: nat)
    requires a < b
    ensures (a + 1) * size <= b * size
  {
  }

  /** Element k of batch a is the link at position a * size + k, inside the prefix the batches cover. */
  lemma BatchAt<T>(xs: seq<T>, a: nat, k: nat)
    requires a < NumBatches && k < |xs| / NumBatches
    ensures a * (|xs| / NumBatches) + k < (a + 1) * (|xs| / NumBatches) <= NumBatches * (|xs| / NumBatches)
    ensures Partition(xs)[a][k] == xs[a * (|xs| / NumBatches) + k]
  {
    var size := |xs| / NumBatches;
    BatchBoundsOrdered(a, NumBatches, size);
    assert (a + 1) * size == a * size + size;
    assert Partition(xs)[a] == xs[a * size..(a + 1) * size];
  }

  /** With no duplicate links, no link is in two batches. */
  lemma BatchesDisjoint<T>(xs: seq<T>)
    requires Distinct(xs)
    ensures forall a, b, x :: 0 <= a < b < NumBatches && x in Partition(xs)[a] ==> x !in Partition(xs)[b]
  {
    var size := |xs| / NumBatches;
    forall a, b, x | 0 <= a < b < NumBatches && x in Partition(xs)[a]
      ensures x !in Partition(xs)[b]
    {
      var k :| 0 <= k < size && Partition(xs)[a][k] == x;
      BatchAt(xs, a, k);
      BatchBoundsOrdered(a, b, size);
      forall m | 0 <= m < size
        ensures Partition(xs)[b][m] != x
      {
        BatchAt(xs, b, m);
      }
    }
  }

  /** With no duplicate links, no link of the dropped remainder is in any batch. */
  lemma RemainderInNoBatch<T>(xs: seq<T>)
    requires Distinct(xs)
    ensures forall a, x :: 0 <= a < NumBatches && x in xs[NumBatches * (|xs| / NumBatches)..] ==> x !in Partition(xs)[a]
  {
    var size := |xs| / NumBatches;
    var rest := xs[NumBatches * size..];
    forall a, x | 0 <= a < NumBatches && x in rest
      ensures x !in Partition(xs)[a]
    {
      var k :| 0 <= k < |rest| && rest[k] == x;
      assert x == xs[NumBatches * size + k];
      forall m | 0 <= m < size
        ensures Partition(xs)[a][m] != x
      {
        BatchAt(xs, a, m);
      }
    }
  }

  /** Fewer links than batches: every batch is empty, so nothing is collected. */
  lemma ShortListCollectsNothing(links: seq<string>, visits: seq<Visit>)
    requires |links| == |visits| < NumBatches && AllBounded(visits)
    ensures forall a :: 0 <= a < NumBatches ==> Partition(links)[a] == []
    ensures AllBounded(visits[..NumBatches * (|links| / NumBatches)])
    ensures BatchResult(links[..NumBatches * (|links| / NumBatches)], visits[..NumBatches * (|links| / NumBatches)]) == []
  {
    assert links[..NumBatches * (|links| / NumBatches)] == [];
    BatchResultEmpty([], []);
  }

  /** Every visit in a slice of the visits stops by its horizon. */
  lemma SliceBounded(visits: seq<Visit>, lo: nat, hi: nat)
    requires AllBounded(visits) && lo <= hi <= |visits|
    ensures AllBounded(visits[lo..hi]) && AllBounded(visits[..hi])
  {
  }

  /** Every batch of visits stops by its horizons. */
  lemma PartitionBounded(visits: seq<Visit>)
    requires AllBounded(visits)
    ensures forall b :: 0 <= b < NumBatches ==> AllBounded(Partition(visits)[b])
  {
    var size := |visits| / NumBatches;
    forall b | 0 <= b < NumBatches
      ensures AllBounded(Partition(visits)[b])
    {
      BatchBoundsOrdered(b, NumBatches, size);
      SliceBounded(visits, b * size, (b + 1) * size);
    }
  }

  /** The links of batches 0 .. k yield the records of batches 0 .. k-1 followed by those of batch k. */
  lemma PrefixExtend(links: seq<string>, visits: seq<Visit>, k: nat)
    requires |links| == |visits| && AllBounded(visits) && k < NumBatches
    ensures (k + 1) * (|links| / NumBatches) <= |links|
    ensures AllBounded(visits[..k * (|links| / NumBatches)])
    ensures AllBounded(visits[..(k + 1) * (|links| / NumBatches)])
    ensures AllBounded(Partition(visits)[k])
    ensures BatchResult(links[..(k + 1) * (|links| / NumBatches)], visits[..(k + 1) * (|links| / NumBatches)])
         == BatchResult(links[..k * (|links| / NumBatches)], visits[..k * (|links| / NumBatches)])
          + BatchResult(Partition(links)[k], Partition(visits)[k])
  {
    var size := |links| / NumBatches;
    PartitionBounded(visits);
    BatchBoundsOrdered(k, NumBatches, size);
    var lo, hi := k * size, (k + 1) * size;
    assert hi == lo + size;
    assert links[..hi] == links[..lo] + Partition(links)[k];
    assert visits[..hi] == visits[..lo] + Partition(visits)[k];
    SliceBounded(visits, 0, hi);
    SliceBounded(visits, 0, lo);
    BatchResultAppend(links[..lo], visits[..lo], Partition(links)[k], Partition(visits)[k]);
  }

  /**
   * The state of the all-batches loop after batches 0 .. k-1: one result per
   * batch so far, and the combined result is both their concatenation and
   * what the links those batches cover yield as one list.
   */
  predicate Collecting(links: seq<string>, visits: seq<Visit>, k: nat,
                       allResults: seq<Record>, batchResults: seq<seq<Record>>)
    requires |links| == |visits| && AllBounded(visits)
  {
    && k <= NumBatches
    && |batchResults| == k
    && (forall b :: 0 <= b < k ==>
          AllBounded(Partition(visits)[b]) && batchResults[b] == BatchResult(Partition(links)[b], Partition(visits)[b]))
    && allResults == Flatten(batchResults)
    && var covered := k * (|links| / NumBatches);
    && covered <= |links|
    && AllBounded(visits[..covered])
    && allResults == BatchResult(links[..covered], visits[..covered])
  }

  /** Processing batch k and appending its result moves the loop state from k to k+1. */
  lemma CollectingStep(links: seq<string>, visits: seq<Visit>, k: nat,
                       allResults: seq<Record>, batchResults: seq<seq<Record>>, batchData: seq<Record>)
    requires |links| == |visits| && AllBounded(visits) && k < NumBatches
    requires Collecting(links, visits, k, allResults, batchResults)
    requires AllBounded(Partition(visits)[k])
    requires batchData == BatchResult(Partition(links)[k], Partition(visits)[k])
    ensures Collecting(links, visits, k + 1, allResults + batchData, batchResults + [batchData])
  {
    var next := batchResults + [batchData];
    assert next[..k] == batchResults;
    PrefixExtend(links, visits, k);
  }

  /**
   * The run after "Collect Products from All Batches": process the batches in
   * order, keep each batch's records for its own table and export, and extend
   * the combined result. `visits[i]` is what the network and the clock do for
   * `links[i]`.
   */
  method CollectFromAllBatches(links: seq<string>, visits: seq<Visit>)
    returns (allResults: seq<Record>, batchResults: seq<seq<Record>>)
    requires |links| == |visits| && AllBounded(visits)
    ensures forall b :: 0 <= b < NumBatches ==> AllBounded(Partition(visits)[b])
    ensures |batchResults| == NumBatches
    ensures forall b :: 0 <= b < NumBatches ==> batchResults[b] == BatchResult(Partition(links)[b], Partition(visits)[b])
    ensures allResults == Flatten(batchResults)
    ensures AllBounded(visits[..NumBatches * (|links| / NumBatches)])
    ensures allResults == BatchResult(links[..NumBatches * (|links| / NumBatches)], visits[..NumBatches * (|links| / NumBatches)])
  {
    var batches := Partition(links);
    var visitBatches := Partition(visits);
    PartitionBounded(visits);
    allResults := [];
    batchResults := [];
    for k := 0 to NumBatches
      invariant Collecting(links, visits, k, allResults, batchResults)
    {
      var batchData, progress := ProcessBatch(batches[k], visitBatches[k]);
      CollectingStep(links, visits, k, allResults, batchResults, batchData);
      allResults := allResults + batchData;
      batchResults := batchResults + [batchData];
    }
  }
}
