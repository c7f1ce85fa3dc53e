# Product collector: a Dafny model of the collection pipeline

The Streamlit app `Product-finder-count.py` takes a list of storefront base
URLs. It asks each storefront for `products.json?page=1`, `page=2`, … until a
page comes back empty. It stamps every product with the URL it came from and
concatenates everything. The URLs are grouped into four batches for display
and download. This project models that pipeline and proves what it promises:

- `json.dfy` (`Json`): JSON values and product records (`map<string, Value>`).
- `fetch.dfy` (`Fetch`): `fetch_products`. The HTTP call is an abstract
  `Outcome`: `Ok` with or without a `products` list, `Timeout`, or `Failed`.
- `collector.dfy` (`Collector`): `collect_all_products`. The `while True`
  loop is a method with loop invariants. It is proved equal to the function
  `Collected`, which is defined from `StopPage` (the first page where the loop
  leaves), `Gathered` (pages concatenated in order) and `Stamp`. The network
  and the clock for one URL are a `Visit`:
  - `page(n)` is how the request for page n ends;
  - `overBudget(n)` is the answer of the elapsed-time check made just before
    page n is requested;
  - `horizon` is a page where the loop is known to stop. It exists only to
    bound the loop, and `HorizonIrrelevant` shows the result does not depend on it.
- `seqs.dfy` (`Seqs`): `Flatten`, the concatenation that the batch loop and the
  `all_results` loop build with `extend`.
- `batch.dfy` (`Batch`): `process_batch` as a `for` loop. It is proved equal
  to `BatchResult` (per-URL results concatenated in list order) and to
  `Progress` (the values `i / total` sent to the progress bar).
- `orchestrator.dfy` (`Orchestrator`): the partition into 4 batches of
  `len(links) // 4` links each (line 86) and the loop that builds
  `all_results` (lines 89-98).

The batch size is kept as written, truncating. The last `len(links) % 4` links
are in no batch. With fewer than 4 links, every batch is empty and the covered
prefix yields no records (`ShortListCollectsNothing`), so `all_results` is
empty (`CollectFromAllBatches`). `visits[i]` describes what happens
while `links[i]` is processed. A URL listed twice can therefore time out once
and succeed once, as it can in the app.

## Model

| member | source | states |
|---|---|---|
| `Fetch.FetchProducts` | Product-finder-count.py:8-21 | The records are non-empty only for a successful response whose `products` list is non-empty, and then they are that list. A timeout, any other request error or a missing `products` key gives the empty listing. |
| `Collector.Listing` | Product-finder-count.py:35-37 | The listing of page n is non-empty only when that request succeeded with a `products` list, and then it is that list. A timeout or request error reads as an empty page, which ends the loop. |
| `Collector.StopPage` | Product-finder-count.py:28-39 | The page where the loop leaves is the first page from 1 on where the budget check fires or the fetched page is empty. No earlier page does either. |
| `Collector.Stamp` | Product-finder-count.py:41-43 | Every record gets `source_url` = the base URL. Its keys become the old keys plus `source_url`, every other field keeps its value, and the count is unchanged. |
| `Collector.Collected` | Product-finder-count.py:23-44 | Every record the collector returns carries `source_url` equal to the base URL. |
| `Collector.CollectAllProducts` | Product-finder-count.py:23-44 | The loop returns `Collected`. It requests pages 1, 2, 3, … consecutively with no gap or repeat. It requests exactly up to the stop page, or stops one short when the budget check fires first. Every requested page except the last listed records. |
| `Collector.StopPageIsFirst` | Product-finder-count.py:30-37 | Any page where the budget fires or the listing is empty is at or after the stop page. |
| `Collector.GatheredLength` | Product-finder-count.py:35-39 | When every page in a range lists something, the gathered records number at least the pages in the range. |
| `Collector.Gathered` | Product-finder-count.py:35-39 | The pages of a range concatenated in page order. Every gathered record is a record of some fetched page in the range. Nothing is invented. |
| `Collector.CollectedFromPages` | Product-finder-count.py:35-44 | If pages 1..k-1 list records, page k is empty or failed, and the budget never fired through page k, the result is pages 1..k-1 concatenated in order and stamped. It has at least k-1 records. |
| `Collector.FailedFirstPage` | Product-finder-count.py:16-21 | A timeout or request error on page 1 yields no records for that URL. |
| `Collector.BudgetDiscards` | Product-finder-count.py:30-32 | If the loop reaches page n and the budget check fires there, the result is empty, whatever pages 1..n-1 held. |
| `Collector.NonEmptyMeansInBudget` | Product-finder-count.py:30-37 | A non-empty result means the budget check never fired through the stop page, and the stop page was empty or failed. |
| `Collector.HorizonIrrelevant` | Product-finder-count.py:28-39 | The result does not depend on which stopping page bounds the run. |
| `Batch.PerUrl` | Product-finder-count.py:49-56 | One collector result per URL of the batch, in list order. Every record of URL i carries URL i as its `source_url`. |
| `Batch.BatchResult` | Product-finder-count.py:47-67 | What a batch yields: the per-URL results concatenated in list order. Every record carries one of the batch's URLs as its `source_url`. |
| `Batch.BatchResultEmpty` | Product-finder-count.py:56-58 | A batch yields no records exactly when no URL of it yields any. |
| `Batch.BatchResultSingle` | Product-finder-count.py:49-58 | A one-URL batch yields exactly that URL's collector result. |
| `Batch.BatchResultAppend` | Product-finder-count.py:49-58 | Processing `a` then `b` yields `a`'s records followed by `b`'s. |
| `Batch.BatchResultExtend` | Product-finder-count.py:56-58 | One more URL appends exactly that URL's collector result. |
| `Batch.BatchResultAround` | Product-finder-count.py:49-58 | A batch yields the records of the URLs before a given URL, then that URL's records, then the records of the URLs after it. |
| `Batch.EmptyUrlContributesNothing` | Product-finder-count.py:56-58 | A URL whose collector result is empty contributes nothing. The batch without it yields the same records. |
| `Batch.Progress` | Product-finder-count.py:48-64 | One progress value per URL. Value i times the batch size is i+1, the number of URLs done. |
| `Batch.ProgressInUnitInterval` | Product-finder-count.py:64 | Every progress value `i / total` lies in (0, 1]. The value after the last URL is 1. |
| `Batch.ProgressIncreasing` | Product-finder-count.py:64 | Progress rises strictly from one URL to the next. |
| `Batch.TwoStorefronts` | Product-finder-count.py:23-67 | Storefront a lists two products on page 1 and none on page 2; storefront b lists none. The batch yields exactly a's two products, in order, both stamped with a's URL. |
| `Batch.ProcessBatch` | Product-finder-count.py:46-67 | The batch loop returns `BatchResult`, the per-URL results concatenated in list order. It reports `Progress(total)`, one value per URL. |
| `Orchestrator.Slices` | Product-finder-count.py:86 | There are `count` slices, and slice i is `xs[i*size .. (i+1)*size]`. |
| `Orchestrator.SlicesCover` | Product-finder-count.py:86 | The slices concatenate to the prefix `xs[..count*size]`. |
| `Orchestrator.Partition` | Product-finder-count.py:83-86 | There are exactly 4 batches of `len // 4` links each. Together, in order, they are the prefix of `4 * (len // 4)` links. |
| `Orchestrator.BatchAt` | Product-finder-count.py:86 | Element k of batch a is the link at position `a*size + k`, inside the covered prefix. |
| `Orchestrator.BatchesDisjoint` | Product-finder-count.py:84-86 | With no duplicate links, no link is in two batches. |
| `Orchestrator.RemainderInNoBatch` | Product-finder-count.py:85-86 | With no duplicate links, no link of the truncated remainder is in any batch. |
| `Orchestrator.ShortListCollectsNothing` | Product-finder-count.py:85-98 | With fewer than 4 links, every batch is empty and the covered prefix of the links yields no records, so `all_results` stays empty. |
| `Orchestrator.PrefixExtend` | Product-finder-count.py:90-98 | Batches 0..k together yield batches 0..k-1's records followed by batch k's. |
| `Orchestrator.CollectingStep` | Product-finder-count.py:90-98 | Processing batch k and extending both results moves the loop state from k batches done to k+1: one result per batch so far, `all_results` their concatenation and the yield of the links they cover. |
| `Orchestrator.CollectFromAllBatches` | Product-finder-count.py:88-98 | There are 4 batch results, each `BatchResult` of its batch. `all_results` is their concatenation in batch order. It equals processing the covered prefix of the links as one list. |

## Left out

- The HTTP transport and JSON decoding (`requests.get`, `raise_for_status`, `response.json`, lines 11-14) are foreign library calls. They become the `Outcome` value.
- A response body that is not a JSON object, or whose `products` is `null` or not a list of objects, is not modelled. The app would crash or behave by Python truthiness there. `Ok` carries either no `products` key or a list of records.
- The per-request timeout of 10 and the per-URL budget of 35 seconds, `time.time()` and the elapsed-time arithmetic and text (lines 26, 30, 51, 61, 65) are wall-clock floating point. The budget check is the boolean oracle `overBudget`, and elapsed seconds are not modelled.
- Collector.CollectAllProducts: termination rests on the `horizon` of a `Visit`, a page by which the listing ends or the budget fires. The app itself relies on the clock.
- Every Streamlit call is a UI side effect and is not modelled: the warning and error messages in lines 17, 20 and 31, `st.write`, the progress widgets, the spinner, `st.success`, `st.dataframe` and the download buttons.
- Reading the CSV with pandas and rejecting a file without a `link` column (lines 77-81) are not modelled. The links arrive as a `seq<string>`.
- `DataFrame` construction and `to_csv` (lines 103-107, 117-118) are not modelled. Neither is the rule that a batch's table and the final download appear only when they have records.
- Batch.Progress: the progress value is the exact rational `i / total`, not its floating-point rounding.
- Product dictionaries are values. The in-place update of each dict in lines 42-43 is modelled as replacing element i of the list. Nothing else holds a reference to those dicts, so no aliasing is lost.
