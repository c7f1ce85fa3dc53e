/** The per-URL collector: paginate one storefront until a page comes back empty or the budget runs out. */
module Collector {
  import opened Json
  import opened Fetch

  /** The field every collected record is stamped with. */
  const SourceUrlKey: string := "source_url"

  /**
   * What the network and the clock do while one base URL is processed:
   * `page(n)` is how the request for page n ends, and `overBudget(n)` is the
   * answer of the elapsed-time check made just before page n is requested.
   * `horizon` is a page at which the loop is known to stop (the listing is
   * empty there or the budget has fired); it only bounds the run.
   */
  datatype Visit = Visit(page: nat -> Outcome, overBudget: nat -> bool, horizon: nat)

  /** The records page n yields, failures read as an empty page. */
  function Listing(v: Visit, n: nat): (r: seq<Record>)
    ensures r != [] ==> v.page(n).Ok? && v.page(n).products == Some(r)
    ensures v.page(n).Timeout? || v.page(n).Failed? ==> r == []
  {
    FetchProducts(v.page(n))
  }

  /** The loop leaves at page n: either the budget check fires or the page is empty. */
  predicate Halts(v: Visit, n: nat)
  {
    v.overBudget(n) || Listing(v, n) == []
  }

  /** The run stops by the horizon page. */
  predicate Bounded(v: Visit)
  {
    1 <= v.horizon && Halts(v, v.horizon)
  }

  /** The first page at or after `first` at which the loop leaves. */
  function StopPage(v: Visit, first: nat): (k: nat)
    requires Bounded(v) && 1 <= first <= v.horizon
    ensures first <= k <= v.horizon
    ensures Halts(v, k)
    ensures forall n :: first <= n < k ==> !Halts(v, n)
    decreases v.horizon - first
  {
    if Halts(v, first) then first else StopPage(v, first + 1)
  }

  /** The records of pages lo .. hi-1, in page order. Every record comes from one of those pages. */
  function Gathered(v: Visit, lo: nat, hi: nat): (r: seq<Record>)
    requires lo <= hi
    ensures forall j :: 0 <= j < |r| ==> exists n :: lo <= n < hi && r[j] in Listing(v, n)
    decreases hi
  {
    if lo == hi then []
    else
      var before := Gathered(v, lo, hi - 1);
      var page := Listing(v, hi - 1);
      assert forall j :: |before| <= j < |before + page| ==> (before + page)[j] == page[j - |before|];
      before + page
  }

  /** Every record with `source_url` set to the base URL. */
  function Stamp(records: seq<Record>, baseUrl: string): (r: seq<Record>)
    ensures |r| == |records|
    ensures forall i :: 0 <= i < |r| ==> SourceUrlKey in r[i] && r[i][SourceUrlKey] == Str(baseUrl)
    ensures forall i :: 0 <= i < |r| ==> r[i].Keys == records[i].Keys + {SourceUrlKey}
    ensures forall i, key :: 0 <= i < |r| && key in records[i] && key != SourceUrlKey ==> r[i][key] == records[i][key]
  {
    seq(|records|, i requires 0 <= i < |records| => records[i][SourceUrlKey := Str(baseUrl)])
  }

  /**
   * What the collector returns for one base URL: nothing if the budget check
   * fired, otherwise the stamped records of every page before the first empty one.
   */
  function Collected(v: Visit, baseUrl: string): (r: seq<Record>)
    requires Bounded(v)
    ensures forall i :: 0 <= i < |r| ==> SourceUrlKey in r[i] && r[i][SourceUrlKey] == Str(baseUrl)
  {
    var k := StopPage(v, 1);
    if v.overBudget(k) then [] else Stamp(Gathered(v, 1, k), baseUrl)
  }

  /** No page before the stop page halts the loop, so any halting page is at or after it. */
  lemma StopPageIsFirst(v: Visit, k: nat)
    requires Bounded(v) && 1 <= k && Halts(v, k)
    ensures StopPage(v, 1) <= k
  {
  }

  /** When every page in lo .. hi-1 lists something, each adds at least one record. */
  lemma {:induction false} GatheredLength(v: Visit, lo: nat, hi: nat)
    requires lo <= hi
    requires forall n :: lo <= n < hi ==> Listing(v, n) != []
    ensures |Gathered(v, lo, hi)| >= hi - lo
    decreases hi
  {
    if lo < hi {
      GatheredLength(v, lo, hi - 1);
    }
  }

  /**
   * If pages 1 .. k-1 list records, page k is empty (or failed) and the budget
   * never fired through page k, the result is pages 1 .. k-1 in order, stamped.
   */
  lemma CollectedFromPages(v: Visit, baseUrl: string, k: nat)
    requires Bounded(v) && 1 <= k
    requires forall n :: 1 <= n <= k ==> !v.overBudget(n)
    requires forall n :: 1 <= n < k ==> Listing(v, n) != []
    requires Listing(v, k) == []
    ensures Collected(v, baseUrl) == Stamp(Gathered(v, 1, k), baseUrl)
    ensures |Collected(v, baseUrl)| >= k - 1
  {
    StopPageIsFirst(v, k);
    GatheredLength(v, 1, k);
  }

  /** A failed first request ends the URL with no records. */
  lemma FailedFirstPage(v: Visit, baseUrl: string)
    requires Bounded(v)
    requires v.page(1).Timeout? || v.page(1).Failed?
    ensures Collected(v, baseUrl) == []
  {
    StopPageIsFirst(v, 1);
  }

  /**
   * If the loop reaches page n (pages 1 .. n-1 listed records) and the budget
   * check fires there, everything gathered so far is dropped.
   */
  lemma BudgetDiscards(v: Visit, baseUrl: string, n: nat)
    requires Bounded(v) && 1 <= n
    requires forall m :: 1 <= m < n ==> Listing(v, m) != []
    requires v.overBudget(n)
    ensures Collected(v, baseUrl) == []
  {
    StopPageIsFirst(v, n);
  }

  /** A non-empty result means the budget never fired up to the stop page, so the loop left on an empty or failed page. */
  lemma NonEmptyMeansInBudget(v: Visit, baseUrl: string)
    requires Bounded(v) && Collected(v, baseUrl) != []
    ensures forall n :: 1 <= n <= StopPage(v, 1) ==> !v.overBudget(n)
    ensures Listing(v, StopPage(v, 1)) == []
  {
    forall n | 1 <= n <= StopPage(v, 1)
      ensures !v.overBudget(n)
    {
      if n < StopPage(v, 1) {
        assert !Halts(v, n);
      }
    }
  }

  /** Gathering reads the pages only, never the horizon. */
  lemma {:induction false} GatheredIgnoresHorizon(v: Visit, h: nat, lo: nat, hi: nat)
    requires lo <= hi
    ensures Gathered(v, lo, hi) == Gathered(v.(horizon := h), lo, hi)
    decreases hi
  {
    if lo < hi {
      GatheredIgnoresHorizon(v, h, lo, hi - 1);
    }
  }

  /** The horizon only bounds the run: any other valid horizon gives the same result. */
  lemma HorizonIrrelevant(v: Visit, baseUrl: string, h: nat)
    requires Bounded(v) && Bounded(v.(horizon := h))
    ensures Collected(v, baseUrl) == Collected(v.(horizon := h), baseUrl)
  {
    var w := v.(horizon := h);
    var k := StopPage(v, 1);
    assert Halts(w, k) by { assert Halts(v, k); }
    var j := StopPage(w, 1);
    assert Halts(v, j) by { assert Halts(w, j); }
    GatheredIgnoresHorizon(v, h, 1, k);
  }

  /**
   * The collector loop. `requested` records the page numbers it asks for, in order.
   */
  method CollectAllProducts(baseUrl: string, v: Visit) returns (products: seq<Record>, ghost requested: seq<nat>)
    requires Bounded(v)
    ensures products == Collected(v, baseUrl)
    ensures forall i :: 0 <= i < |requested| ==> requested[i] == i + 1
    ensures |requested| == if v.overBudget(StopPage(v, 1)) then StopPage(v, 1) - 1 else StopPage(v, 1)
    ensures forall i :: 0 <= i < |requested| - 1 ==> Listing(v, requested[i]) != []
  {
    products := [];
    requested := [];
    var page := 1;
    ghost var stop := StopPage(v, 1);
    while true
      invariant 1 <= page <= stop
      invariant products == Gathered(v, 1, page)
      invariant |requested| == page - 1
      invariant forall i :: 0 <= i < |requested| ==> requested[i] == i + 1
      invariant forall i :: 0 <= i < |requested| ==> Listing(v, requested[i]) != []
      decreases stop - page
    {
      if v.overBudget(page) {
        assert Halts(v, page);
        products := [];
        return;
      }
      requested := requested + [page];
      var pageProducts := FetchProducts(v.page(page));
      if pageProducts == [] {
        assert Halts(v, page);
        break;
      }
      products := products + pageProducts;
      page := page + 1;
    }
    assert page == stop;
    ghost var gathered := products;
    for i := 0 to |products|
      invariant |products| == |gathered|
      invariant forall j :: 0 <= j < i ==> products[j] == gathered[j][SourceUrlKey := Str(baseUrl)]
      invariant forall j :: i <= j < |products| ==> products[j] == gathered[j]
    {
      products := products[i := products[i][SourceUrlKey := Str(baseUrl)]];
    }
    assert products == Stamp(gathered, baseUrl);
  }
}
