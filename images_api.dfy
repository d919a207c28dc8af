/** The `GET /api/images` handlers: `handleGetImages` in api/images.ts and the default
    `handler` in api/images.js, which first turns away every method but GET. */
module ImagesApi {
  import opened Schema
  import opened Storage

  /** What listing the store gave: the records, or a thrown error. */
  datatype Listing = Listed(records: seq<Image>) | ListingThrew

  const FetchFailed := ErrorResponse(500, "Failed to fetch images")
  const MethodNotAllowed := ErrorResponse(405, "Method not allowed")

  /** The try/catch around the listing: the list with status 200, or 500 when it threw. */
  function RespondWithListing(listing: Listing): (r: Response)
    ensures r.status == 200 <==> listing.Listed?
    ensures listing.Listed? ==> r.body == ListBody(listing.records)
    ensures listing.ListingThrew? ==> r == FetchFailed
  {
    match listing
    case Listed(records) => Response(200, ListBody(records))
    case ListingThrew => FetchFailed
  }

  /** `handleGetImages` over the in-memory store: every record, newest first. */
  function HandleGetImages(store: MemStorage): (r: Response)
    reads store
    requires store.Valid()
    ensures r.status == 200 && r.body.ListBody?
    ensures |r.body.records| == store.currentId - 1
    ensures StrictlyNewestFirst(r.body.records)
    ensures forall k :: k in store.images ==> store.images[k] in r.body.records
    ensures forall i :: 0 <= i < |r.body.records| ==>
      r.body.records[i].id in store.images && store.images[r.body.records[i].id] == r.body.records[i]
  {
    RespondWithListing(Listed(store.GetAllImages()))
  }

  /** The api/images.js handler: 405 for any method but GET, without looking at the store;
      otherwise the same listing. */
  function ImagesHandler(httpMethod: string, store: MemStorage): (r: Response)
    reads store
    requires store.Valid()
    ensures httpMethod != "GET" ==> r == MethodNotAllowed
    ensures httpMethod == "GET" ==> r == HandleGetImages(store)
  {
    if httpMethod != "GET" then MethodNotAllowed
    else HandleGetImages(store)
  }

  /** The listing handlers read a store of their own (api/images.ts creates it, as does each
      process-image file), and nothing writes to it: the answer is the empty list. */
  method ListingOfOwnStore() returns (r: Response)
    ensures r == Response(200, ListBody([]))
  {
    var store := new MemStorage();
    r := HandleGetImages(store);
  }
}
