/** The page fetcher: one request for page `n` of a storefront's product listing. */
module Fetch {
  import opened Json

  /**
   * How one GET of `{base_url}/products.json?page={n}` ended, once the HTTP
   * library, status check and JSON decoder have run.
   */
  datatype Outcome =
    | Ok(products: Option<seq<Record>>)  // 2xx with a JSON object body; None when it has no `products` key
    | Timeout                            // the per-request timeout expired
    | Failed(reason: string)             // connection error, non-2xx status or a body that is not JSON

  /**
   * The records the fetcher hands back for one outcome. Every failure is
   * turned into the empty listing, the same answer as a storefront that
   * has run out of pages.
   */
  function FetchProducts(outcome: Outcome): (records: seq<Record>)
    ensures records != [] <==> outcome.Ok? && outcome.products.Some? && outcome.products.value != []
    ensures records != [] ==> outcome.products == Some(records)
  {
    match outcome
    case Ok(products) =>
      (match products
       case Some(listed) => listed
       case None => [])
    case Timeout => []
    case Failed(_) => []
  }
}
