/** The batch processor: run the collector over one batch of base URLs, in list order. */
module Batch {
  import opened Json
  import opened Fetch
  import opened Collector
  import opened Seqs

  /** Every visit stops by its horizon. */
  predicate AllBounded(visits: seq<Visit>)
  {
    forall i :: 0 <= i < |visits| ==> Bounded(visits[i])
  }

  /** The record's `source_url` is one of the given URLs. */
  predicate FromOneOf(rec: Record, urls: seq<string>)
  {
    SourceUrlKey in rec && rec[SourceUrlKey].Str? && rec[SourceUrlKey].s in urls
  }

  /** Every record carries `url` as its `source_url`. */
  predicate StampedWith(records: seq<Record>, url: string)
  {
    forall j :: 0 <= j < |records| ==> SourceUrlKey in records[j] && records[j][SourceUrlKey] == Str(url)
  }

  /**
   * The collector's result for each URL of the batch; `visits[i]` is what the
   * network and the clock do for `batch[i]`. Every record of URL i carries
   * `batch[i]` as its `source_url`.
   */
  function PerUrl(batch: seq<string>, visits: seq<Visit>): (r: seq<seq<Record>>)
    requires |batch| == |visits| && AllBounded(visits)
    ensures |r| == |batch|
    ensures forall i :: 0 <= i < |r| ==> StampedWith(r[i], batch[i])
  {
    seq(|batch|, i requires 0 <= i < |batch| => Collected(visits[i], batch[i]))
  }

  /**
   * What a batch yields: the per-URL results concatenated in list order. Every
   * record carries as `source_url` one of the batch's URLs.
   */
  function BatchResult(batch: seq<string>, visits: seq<Visit>): (r: seq<Record>)
    requires |batch| == |visits| && AllBounded(visits)
    ensures forall j :: 0 <= j < |r| ==> FromOneOf(r[j], batch)
  {
    var parts := PerUrl(batch, visits);
    FlattenMember(parts);
    Flatten(parts)
  }

  /** A batch split in two yields the first part's records followed by the second's. */
  lemma BatchResultAppend(a: seq<string>, va: seq<Visit>, b: seq<string>, vb: seq<Visit>)
    requires |a| == |va| && AllBounded(va)
    requires |b| == |vb| && AllBounded(vb)
    ensures AllBounded(va + vb)
    ensures BatchResult(a + b, va + vb) == BatchResult(a, va) + BatchResult(b, vb)
  {
    var whole, front, back := PerUrl(a + b, va + vb), PerUrl(a, va), PerUrl(b, vb);
    forall i | 0 <= i < |whole|
      ensures whole[i] == (front + back)[i]
    {
      if i < |a| {
        assert (a + b)[i] == a[i] && (va + vb)[i] == va[i];
      } else {
        assert (a + b)[i] == b[i - |a|] && (va + vb)[i] == vb[i - |a|];
      }
    }
    assert whole == front + back;
    FlattenAppend(front, back);
  }

  /** A one-URL batch yields exactly that URL's collector result. */
  lemma BatchResultSingle(url: string, v: Visit)
    requires Bounded(v)
    ensures AllBounded([v])
    ensures BatchResult([url], [v]) == Collected(v, url)
  {
    var alone := PerUrl([url], [v]);
    assert alone[..0] == [];
    assert Flatten(alone) == Flatten(alone[..0]) + alone[0];
  }

  /** A batch yields what the URLs before `url` yield, then `url`'s records, then what the URLs after it yield. */
  lemma BatchResultAround(front: seq<string>, frontVisits: seq<Visit>, url: string, v: Visit,
                          back: seq<string>, backVisits: seq<Visit>)
    requires |front| == |frontVisits| && AllBounded(frontVisits)
    requires |back| == |backVisits| && AllBounded(backVisits)
    requires Bounded(v)
    ensures AllBounded(frontVisits + [v] + backVisits)
    ensures BatchResult(front + [url] + back, frontVisits + [v] + backVisits)
         == BatchResult(front, frontVisits) + Collected(v, url) + BatchResult(back, backVisits)
  {
    BatchResultSingle(url, v);
    BatchResultAppend(front, frontVisits, [url], [v]);
    BatchResultAppend(front + [url], frontVisits + [v], back, backVisits);
  }

  /** A URL whose collector result is empty contributes nothing: the batch without it yields the same. */
  lemma EmptyUrlContributesNothing(front: seq<string>, frontVisits: seq<Visit>, url: string, v: Visit,
                                   back: seq<string>, backVisits: seq<Visit>)
    requires |front| == |frontVisits| && AllBounded(frontVisits)
    requires |back| == |backVisits| && AllBounded(backVisits)
    requires Bounded(v) && Collected(v, url) == []
    ensures AllBounded(frontVisits + [v] + backVisits) && AllBounded(frontVisits + backVisits)
    ensures BatchResult(front + [url] + back, frontVisits + [v] + backVisits)
         == BatchResult(front + back, frontVisits + backVisits)
  {
    BatchResultAround(front, frontVisits, url, v, back, backVisits);
    BatchResultAppend(front, frontVisits, back, backVisits);
  }

  /** The batch's first i+1 URLs yield what its first i do, then what URL i does. */
  lemma BatchResultExtend(batch: seq<string>, visits: seq<Visit>, i: nat)
    requires |batch| == |visits| && AllBounded(visits) && i < |batch|
    ensures BatchResult(batch[..i + 1], visits[..i + 1])
         == BatchResult(batch[..i], visits[..i]) + Collected(visits[i], batch[i])
  {
    assert PerUrl(batch[..i + 1], visits[..i + 1])[..i] == PerUrl(batch[..i], visits[..i]);
  }

  /** A batch yields nothing exactly when none of its URLs collects anything. */
  lemma BatchResultEmpty(batch: seq<string>, visits: seq<Visit>)
    requires |batch| == |visits| && AllBounded(visits)
    ensures BatchResult(batch, visits) == [] <==> forall i :: 0 <= i < |batch| ==> Collected(visits[i], batch[i]) == []
  {
    var parts := PerUrl(batch, visits);
    FlattenEmpty(parts);
    assert forall i :: 0 <= i < |batch| ==> parts[i] == Collected(visits[i], batch[i]);
  }

  /** The progress bar's value after each URL of a batch of `total` URLs: URLs done over URLs in the batch. */
  function Progress(total: nat): (p: seq<real>)
    ensures |p| == total
    ensures forall i :: 0 <= i < total ==> p[i] * total as real == (i + 1) as real
  {
    seq(total, i requires 0 <= i < total => (i + 1) as real / total as real)
  }

  /** A fraction `done / total` with `0 < done <= total` lies in (0, 1]. */
  lemma FractionInUnitInterval(done: nat, total: nat)
    requires 0 < done <= total
    ensures 0.0 < done as real / total as real <= 1.0
  {
    var x := done as real / total as real;
    assert x * total as real == done as real;
  }

  /** More URLs done means a larger fraction. */
  lemma FractionIncreases(a: nat, b: nat, total: nat)
    requires a < b && 0 < total
    ensures a as real / total as real < b as real / total as real
  {
    var x, y := a as real / total as real, b as real / total as real;
    assert x * total as real == a as real && y * total as real == b as real;
    assert (y - x) * total as real == (b - a) as real;
  }

  /** Progress stays within (0, 1] and reaches 1 after the last URL. */
  lemma ProgressInUnitInterval(total: nat)
    ensures forall i :: 0 <= i < total ==> 0.0 < Progress(total)[i] <= 1.0
    ensures total > 0 ==> Progress(total)[total - 1] == 1.0
  {
    var p := Progress(total);
    forall i | 0 <= i < total
      ensures 0.0 < p[i] <= 1.0
    {
      assert p[i] == (i + 1) as real / total as real;
      FractionInUnitInterval(i + 1, total);
    }
  }

  /** Progress rises strictly after every URL. */
  lemma ProgressIncreasing(total: nat)
    ensures forall i, j :: 0 <= i < j < total ==> Progress(total)[i] < Progress(total)[j]
  {
    var p := Progress(total);
    forall i, j | 0 <= i < j < total
      ensures p[i] < p[j]
    {
      assert p[i] == (i + 1) as real / total as real && p[j] == (j + 1) as real / total as real;
      FractionIncreases(i + 1, j + 1, total);
    }
  }

  /**
   * Two storefronts: the first lists two products on page 1 and none on page 2,
   * the second lists none at all. The batch yields the two products, both
   * stamped with the first storefront's URL.
   */
  lemma TwoStorefronts(first: Record, second: Record)
    ensures
      var a := Visit(n => if n == 1 then Ok(Some([first, second])) else Ok(Some([])), _ => false, 2);
      var b := Visit(_ => Ok(Some([])), _ => false, 1);
      AllBounded([a, b]) &&
      BatchResult(["https://a.test", "https://b.test"], [a, b])
        == [first[SourceUrlKey := Str("https://a.test")], second[SourceUrlKey := Str("https://a.test")]]
  {
    var a := Visit(n => if n == 1 then Ok(Some([first, second])) else Ok(Some([])), _ => false, 2);
    var b := Visit(_ => Ok(Some([])), _ => false, 1);
    var ua, ub := "https://a.test", "https://b.test";
    assert Collected(a, ua) == Stamp([first, second], ua) by {
      assert Listing(a, 1) == [first, second] && Listing(a, 2) == [];
      assert StopPage(a, 1) == 2 by { assert !Halts(a, 1); }
      assert Gathered(a, 1, 2) == Gathered(a, 1, 1) + Listing(a, 1);
    }
    assert Collected(b, ub) == [] by { assert StopPage(b, 1) == 1; }
    assert AllBounded([a, b]) && BatchResult([ua, ub], [a, b]) == Collected(a, ua) + Collected(b, ub) by {
      BatchResultSingle(ua, a);
      BatchResultSingle(ub, b);
      BatchResultAppend([ua], [a], [ub], [b]);
      assert [ua] + [ub] == [ua, ub] && [a] + [b] == [a, b];
    }
  }

  /**
   * The batch loop: collect each URL in turn, append what it returned and
   * report the fraction of URLs done.
   */
  method ProcessBatch(batch: seq<string>, visits: seq<Visit>) returns (batchData: seq<Record>, progress: seq<real>)
    requires |batch| == |visits| && AllBounded(visits)
    ensures batchData == BatchResult(batch, visits)
    ensures progress == Progress(|batch|)
  {
    batchData := [];
    progress := [];
    var totalUrls := |batch|;
    for i := 0 to totalUrls
      invariant batchData == BatchResult(batch[..i], visits[..i])
      invariant progress == Progress(totalUrls)[..i]
    {
      var products;
      ghost var requested;
      products, requested := CollectAllProducts(batch[i], visits[i]);
      if products != [] {
        batchData := batchData + products;
      }
      progress := progress + [(i + 1) as real / totalUrls as real];
      BatchResultExtend(batch, visits, i);
    }
    assert batch[..totalUrls] == batch && visits[..totalUrls] == visits;
  }
}
