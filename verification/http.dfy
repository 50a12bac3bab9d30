/**
 * The values the library reads from the service: JSON documents, listings
 * of stored items and the responses a client call completes with. Parsing,
 * serialisation and the clock are not modelled; a `Time` is an opaque
 * reading taken from a response.
 */
module Http {
  import opened Wrappers

  /** A point in time, in milliseconds; treated as an opaque value. */
  datatype Time = Time(millis: int)

  /** A JSON value; numbers are kept as integers. */
  datatype Json =
    | JNull
    | JBool(b: bool)
    | JNumber(n: int)
    | JString(s: string)
    | JArray(items: seq<Json>)
    | JObject(fields: map<string, Json>)

  /** A parsed JSON object, as the bodies of responses and stored values are. */
  type Document = map<string, Json>

  /** `body[name]` on a parsed body: `nil` (None) when the field is absent. */
  function Field(body: Document, name: string): Option<Json>
  {
    if name in body then Some(body[name]) else None
  }

  /** The `path` part of one entry of a listing. */
  datatype ListingPath = ListingPath(collection: string, key: string, ref: string)

  /** One entry of a listing: where the item lives, its ref time and value. */
  datatype Listing = Listing(path: ListingPath, reftime: Time, value: Document)

  /**
   * A completed response. `ref` is the ref the response layer extracted
   * (from `ETag` or the trailing segment of `Location`), `requestTime` its
   * request time, `date` what `Time.parse` makes of the `Date` header when
   * that header is present (None when it does not parse), and `results` the entries of
   * a listing response (empty for other responses).
   */
  datatype Response = Response(
    status: int,
    headers: map<string, string>,
    body: Document,
    ref: Option<string>,
    requestTime: Time,
    date: Option<Time>,
    results: seq<Listing>)
}
