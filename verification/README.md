# Orchestrate client core, modelled in Dafny

A model of the decision logic at the heart of the Ruby client for the
Orchestrate document and graph service:

- the **error classifier**, which turns a response's status and body `code`
  into one of nine typed errors, the generic `RequestError`, or no error;
- the **KeyValue** item with its optimistic-concurrency protocol: a ref
  (version token) carried from response to response, strict `save!` and
  `destroy!`, and their lenient counterparts `save` and `destroy`;
- the **graph** relation stems and traversals, built by indexing without
  any request and iterated with one request for the whole path.

The network is replaced by values. Each client call is a `Request` value
and completes with an `Outcome`: the `Response`, or the exception it
raised. Each item operation is a pure function from the item and that
outcome to a `Step`. A `Step` holds the item afterwards, the request issued,
and how the Ruby method completed (`Returns(v)` or `Raises(e)`).

Files:

- `wrappers.dfy`: `Option`, which stands for Ruby's `nil`.
- `http.dfy`: opaque times, JSON values, listings and responses.
- `ruby_text.dfy`: `to_s` on strings and symbols, and `String#split('/')` with `.last`.
- `error.dfy`: the error classes, the lookup table and `handle_response`.
- `client.dfy`: requests, outcomes and completions.
- `key_value.dfy`: the item operations.
- `key_value_properties.dfy`: lemmas that relate several item operations, or an item operation and the classifier.
- `graph.dfy`: graph manager, relation stems, traversals.
- `graph_properties.dfy`: lemmas about traversal construction.

Behaviour of the code that the model keeps:

- The lenient `save` rescues every `RequestError` and `ServiceError`
  (lib/orchestrate/key_value.rb:63). So bad requests and service errors
  also give `false`
  (test/orchestrate/key_value_persistence_test.rb:47-53).
- `load_from_response` sets `ref` and the request time but never `reftime`
  (lib/orchestrate/key_value.rb:95-99).
- A successful `destroy!` clears `ref` and keeps the local value
  (lib/orchestrate/key_value.rb:87-92).

## Model

| member | source | states |
|---|---|---|
| `Errors.SignatureOf` | lib/orchestrate/error.rb:36-97 | exactly the nine table classes have a class-level status and code, and every such status is a 4xx status |
| `Errors.FindFirst` | lib/orchestrate/error.rb:5-7 | the result is None exactly when no row matches the status and code; otherwise it is the first matching row |
| `Errors.Classify` | lib/orchestrate/error.rb:4-13 | no error exactly when status < 400; the generic `RequestError` exactly when status >= 400 and no row matches; otherwise a matching table kind; never `ServiceError` |
| `Errors.HandleResponse` | lib/orchestrate/error.rb:4-13 | raises exactly for status >= 400; the raised error's kind is the classification of the status and body code (a matching row's class, else `RequestError`), it carries the response, and its message argument is the body's `message` field |
| `Errors.BodyCode` | lib/orchestrate/error.rb:6 | the code used for matching is the body's `code` field when it is a string, and absent otherwise |
| `Errors.TableSignaturesDistinct` | lib/orchestrate/error.rb:99-102 | no two table rows share a (status, code) pair, so the first-match lookup is unambiguous |
| `Errors.TableRowClassifiesAsItself` | lib/orchestrate/error.rb:5-9 | a response with exactly a row's status and code classifies as that row's kind |
| `Errors.KnownCodes` | lib/orchestrate/error.rb:36-97 | the nine (status, code) pairs, spelled out, classify as BadRequest … AlreadyPresent |
| `Errors.PreconditionFailuresSplitByCode` | lib/orchestrate/error.rb:88-97 | VersionMismatch and AlreadyPresent share status 412; the code alone selects between them; any other code at 412 is generic |
| `Errors.ServerStatusIsGeneric` | lib/orchestrate/error.rb:10-11 | every status >= 500 yields the generic `RequestError`, whatever the code |
| `Errors.ServiceCodesAreGeneric` | lib/orchestrate/error.rb:104-119 | the codes of the 500-status list are not in the table and classify generically |
| `Errors.ClassificationIgnoresHeaders` | lib/orchestrate/error.rb:4-13 | two responses with the same status and body code classify alike, whatever their headers, refs or times |
| `Client.Respond` | lib/orchestrate/error.rb:4-13 | a call succeeds exactly when the status is below 400; otherwise it raises the classified error carrying the response and message |
| `KeyValues.LoadFromResponse` | lib/orchestrate/key_value.rb:95-99 | ref and request time come from the response; the value is replaced only when asked; identity and `reftime` are unchanged |
| `KeyValues.New` | lib/orchestrate/key_value.rb:26-42 | from a key name: key is `name.to_s`, with no ref, no value and not loaded; from a listing: key, ref, reftime and value come from the listing, and the item is loaded exactly when a time is passed; with a response: that response's ref, body and time; always `id == collection + "/" + key` |
| `KeyValues.Reload` | lib/orchestrate/key_value.rb:48-50 | issues GET of the item; on success replaces ref, value and request time and the item is loaded; on error raises it with the item unchanged |
| `KeyValues.Load` | lib/orchestrate/key_value.rb:4-8 | a fresh item for the key in `collection`, reloaded: returns a loaded item in that collection with key `key.to_s` and the response's ref and body, or raises the call's error |
| `KeyValues.GetAttr` | lib/orchestrate/key_value.rb:52-54 | reads the attribute `name.to_s`: present exactly when that key is in the value; raises NoMethodError when the item has no value |
| `KeyValues.SetAttr` | lib/orchestrate/key_value.rb:56-58 | stores under `name.to_s`, returns the stored value, and changes nothing but the value, whose keys gain `name.to_s`; raises NoMethodError when the item has no value |
| `KeyValues.SaveBang` | lib/orchestrate/key_value.rb:68-77 | issues PUT of the local value under the current ref. On success: returns true, ref and time from the response, value untouched. On IndexingConflict: ref from the last `/`-segment of `Location`, time from `Date`, returns true. With no `Location` it raises NoMethodError and leaves the item unchanged. With no `Date` it raises TypeError, and with an unparseable `Date` ArgumentError; in both cases the ref is already set. Any other error propagates with the item unchanged |
| `KeyValues.Save` | lib/orchestrate/key_value.rb:60-66 | same item and request as `save!`; never raises an error of the library; turns every library error that `save!` raises into `false`; keeps `save!`'s success; re-raises every other exception `save!` raises |
| `KeyValues.DestroyBang` | lib/orchestrate/key_value.rb:87-92 | issues DELETE under the current ref; on success returns true, clears ref, keeps the value and sets the request time; on error raises it with the item unchanged |
| `KeyValues.Destroy` | lib/orchestrate/key_value.rb:79-85 | returns false exactly when the call failed with VersionMismatch; otherwise behaves as `destroy!` |
| `KeyValues.Loaded` | lib/orchestrate/key_value.rb:44-46 | `loaded?`: whether the item has a last request time |
| `KeyValueProperties.SetThenGet` | lib/orchestrate/key_value.rb:52-58 | reading an attribute just written gives the written value |
| `KeyValueProperties.SetLeavesOthers` | lib/orchestrate/key_value.rb:52-58 | writing one attribute leaves every attribute with a different `to_s` unchanged |
| `KeyValueProperties.SymbolAndStringAgree` | lib/orchestrate/key_value.rb:52-58 | `kv[:a]` and `kv["a"]` read and write the same attribute |
| `KeyValueProperties.LocalEditsSurviveSave` | lib/orchestrate/key_value.rb:68-77 | whatever a save's outcome, a local edit made before it is still there after it |
| `KeyValueProperties.OperationsPreserveValid` | lib/orchestrate/key_value.rb:26-99 | every operation keeps `id == collection_name + "/" + key` |
| `KeyValueProperties.DestroyThenSaveSendsNoRef` | lib/orchestrate/key_value.rb:87-92 | after a successful delete, the next save is sent without a ref |
| `KeyValueProperties.SaveThenReload` | lib/orchestrate/key_value.rb:48-77 | a save PUTs the local value under the current ref; reloading from a service that stored that value gives back the saved value and the ref the save returned |
| `KeyValueProperties.IndexingConflictIsSoftSuccess` | lib/orchestrate/key_value.rb:72-75 | a 409 `indexing_conflict` response whose `Location` ends in `/<ref>` makes both saves return true with that ref |
| `KeyValueProperties.VersionMismatchHandling` | test/orchestrate/key_value_persistence_test.rb:24-30 | a 412 `item_version_mismatch` response: `save!` and `destroy!` raise VersionMismatch; `save` and `destroy` return false, item unchanged |
| `KeyValueProperties.SaveSwallowsApiErrors` | test/orchestrate/key_value_persistence_test.rb:47-53 | `save` returns false with the item unchanged for every library error except an indexing conflict, bad requests and service errors included |
| `KeyValueProperties.SavePropagatesForeignErrors` | lib/orchestrate/key_value.rb:60-66 | an exception outside the library's hierarchy raised by the call escapes `save` with the item unchanged |
| `KeyValueProperties.IndexingConflictWithoutDate` | lib/orchestrate/key_value.rb:72-75 | an indexing conflict with `Location` but no parseable `Date` makes both saves raise the `Time.parse` error, with the ref already taken from `Location` and the request time unchanged |
| `KeyValueProperties.IndexingConflictWithoutLocation` | lib/orchestrate/key_value.rb:72-73 | an indexing conflict without `Location` makes both saves raise NoMethodError with the item unchanged |
| `KeyValueProperties.LoadedTracksRequests` | lib/orchestrate/key_value.rb:44-46 | `loaded?` is false for an item built from a key name, true after any successful call, and never reverts |
| `KeyValueProperties.DestroyPropagatesOtherErrors` | lib/orchestrate/key_value.rb:79-85 | `destroy` raises every error other than VersionMismatch, with the item unchanged |
| `KeyValueProperties.ReloadOfMissingItem` | lib/orchestrate/key_value.rb:48-50 | a 404 `items_not_found` response makes `reload` raise NotFound, item unchanged |
| `RubyText.ToS` | lib/orchestrate/key_value.rb:38 | `to_s` of a string or a symbol is its text |
| `RubyText.Fields` | lib/orchestrate/key_value.rb:73 | splitting on `/` gives at least one field and no field contains `/` |
| `RubyText.DropTrailingEmpty` | lib/orchestrate/key_value.rb:73 | the result is a prefix of the input whose last field is non-empty; only empty fields were dropped |
| `RubyText.Split` | lib/orchestrate/key_value.rb:73 | `split('/')` is the `/`-separated fields of the string with the trailing empty ones removed: a prefix of `Fields`, with only empty fields after it, no field containing `/`, and no empty last field |
| `RubyText.NoSegmentOnlySlashes` | lib/orchestrate/key_value.rb:73 | `split('/').last` is nil exactly when the string is empty or holds only slashes, so such a `Location` clears the ref |
| `RubyText.SlashFreeIsOneField` | lib/orchestrate/key_value.rb:73 | a string without `/` splits into exactly one field, itself |
| `RubyText.LastSegment` | lib/orchestrate/key_value.rb:73 | `split('/').last` is None or a non-empty segment without `/`; a non-empty string without `/` is its own last segment (a `Location` of just a ref yields that ref) |
| `RubyText.JoinFields` | lib/orchestrate/key_value.rb:73 | joining the fields of a split with `/` gives back the string |
| `RubyText.RefFromLocation` | lib/orchestrate/key_value.rb:73 | a `Location` of the form `<prefix>/<ref>` yields `<ref>` |
| `RubyText.TrailingSlashIgnored` | lib/orchestrate/key_value.rb:73 | a trailing `/` does not change the last segment |
| `Graphs.NewGraph` | lib/orchestrate/graph.rb:8-11 | the manager is on the given item and its stem table starts empty |
| `Graphs.NewStem` | lib/orchestrate/graph.rb:33-37 | a stem is on the given item with type `type_name.to_s` |
| `Graphs.GraphIndex` | lib/orchestrate/graph.rb:15-17 | with no cached stem for `t.to_s`, the result is a stem on the manager's item with type `t.to_s` |
| `Graphs.Flatten` | lib/orchestrate/graph.rb:105 | a name flattens to itself; an array flattens to names each found in one of its elements, and every such name is in the result |
| `Graphs.FlattenAll` | lib/orchestrate/graph.rb:105 | a name is in the result exactly when some element of the array flattens to a sequence holding it |
| `Graphs.StemIndex` | lib/orchestrate/graph.rb:70-72 | a traversal on the same item with path `[type, t.to_s]` |
| `Graphs.TraversalIndex` | lib/orchestrate/graph.rb:104-106 | same root; the old path is a prefix of the new one; the new tail is the flattened argument |
| `Graphs.CollectionAndKey` | lib/orchestrate/graph.rb:84-92 | an item gives its own collection name and key; anything else is returned unchanged with the given key |
| `Graphs.EdgeFrom` | lib/orchestrate/graph.rb:47-51 | the source of an edge call is always the stem's item, the relation is the stem's type, and the target is resolved by `get_collection_and_key` |
| `Graphs.Push` | lib/orchestrate/graph.rb:47-51 | `<<` issues `put_relation` with the resolved edge and returns the call's response or raises its error |
| `Graphs.DeleteEdge` | lib/orchestrate/graph.rb:61-65 | `delete` issues `delete_relation` with the resolved edge and returns the call's response or raises its error |
| `Graphs.FromListingEntry` | lib/orchestrate/graph.rb:114-115 | a listing entry gives a loaded item in the entry's own collection, with its key, ref and value |
| `Graphs.Materialise` | lib/orchestrate/graph.rb:113-116 | one item per listing entry, in order, each bound to that entry's collection, key, ref, value and the response's request time |
| `Graphs.EachRequest` | lib/orchestrate/graph.rb:110 | one `get_relations` call with the root's collection name, the root's key and the whole path in order |
| `Graphs.Each` | lib/orchestrate/graph.rb:109-117 | issues that one request; on success yields one item per entry, in order, in the entry's collection; on error raises it |
| `Graphs.StemEach` | lib/orchestrate/graph.rb:75-77 | a stem iterates as the one-hop traversal `[type]`: one request for that path, then one item per entry with the entry's collection, key, ref, value and the request time |
| `GraphProperties.StemEachIsOneHopTraversal` | lib/orchestrate/graph.rb:75-77 | `stem.each` equals `each` of the traversal whose path is the stem's type alone |
| `GraphProperties.FlattenAllAppend` | lib/orchestrate/graph.rb:104-106 | flattening a concatenation of arguments concatenates their flattenings |
| `GraphProperties.FlattenNames` | lib/orchestrate/graph.rb:104-106 | an array of plain names flattens to exactly those names, in order |
| `GraphProperties.IndexingComposes` | lib/orchestrate/graph.rb:104-106 | indexing by `x` then `y` gives the same traversal as indexing once by `[x, y]` |
| `GraphProperties.IndexingByArraysComposes` | lib/orchestrate/graph.rb:104-106 | indexing by two arrays in turn equals indexing by their concatenation |
| `GraphProperties.IndexingByNames` | lib/orchestrate/graph.rb:104-106 | indexing by an array of names appends exactly those names to the path |
| `GraphProperties.ChainedIndexing` | lib/orchestrate/graph.rb:70-72 | `stem[a][b][c]` is on the stem's item with path `[type, a.to_s, b, c]` |
| `GraphProperties.FreshGraphBuildsFreshStem` | lib/orchestrate/graph.rb:8-17 | a new manager never writes its stem table, so every lookup builds a fresh stem; symbol and string types agree |
| `GraphProperties.TwoHopIteration` | lib/orchestrate/graph.rb:109-116 | `Graph.new(kv)[:likes][:friends]` iterates with exactly one request, for the path `likes/friends` on the root item, and each yielded item is in its listing entry's collection |
| `GraphProperties.ItemTargetIgnoresKey` | lib/orchestrate/graph.rb:84-92 | relating to an item ignores an explicit key and uses the item's collection and key |
| `GraphProperties.PushAndDeleteAgree` | lib/orchestrate/graph.rb:47-65 | creating and deleting an edge send the same five arguments |

## Left out

- HTTP transport, URL building, basic authentication and `send_request`
  (lib/orchestrate/client.rb). A call is a `Request` value plus an abstract
  `Outcome`.
- The choice between `If-Match` and `If-None-Match` headers. It lives in the
  request layer, which is not part of this model. The model records only
  the ref passed to the call.
- Time handling. `Time.parse` of the `Date` header, the `reftime / 1000.0`
  conversion and the response's request time are opaque `Time` values. When
  the `Date` header is present, `date` is what `Time.parse` makes of it, and
  None when it does not parse.
- How the response layer extracts a ref from `ETag` or `Location`.
  `Response.ref` is taken as given.
- Header names are matched exactly. The real header map is case-insensitive.
- JSON parsing and serialisation. Bodies and values are `map<string, Json>`,
  and numbers are integers, so floats are not modelled. An empty body is the
  empty map, so it has no `code` field, just as `''['code']` is `nil`.
- `KeyValues.New`: a listing is a typed record. The `KeyError` that `fetch`
  raises on a listing with a missing field is not modelled.
- `Errors.HandleResponse`: `Base#initialize` stores the response under a
  misspelt instance variable, so its `response` reader returns `nil`. The
  model keeps the response on the error. The item operations rescue
  same-named classes from the response layer, and those classes do expose
  the response.
- `ServiceError` is raised by the response layer, which is not part of this
  model. The classifier never produces it. It appears only as an outcome of
  a call.
- `Graphs.Each`: `KeyValue.from_listing` is not defined in
  lib/orchestrate/key_value.rb. It is modelled as the constructor's listing
  branch, given the response's request time.
- Enumerable, `lazy` and `enum_for` mechanics, the commented-out parallel
  check, and the parallel test adapter. Iteration returns the whole sequence
  of items, and each call of `Each` stands for one fresh request.
- `to_s` is modelled for strings and symbols only.
- `to_s`/`inspect` formatting of items.
- `KeyValues.GetAttr`: Ruby's `nil` stands both for a missing attribute and
  for a stored JSON `null`, and `kv[:a]` returns `nil` for both. The model
  keeps them apart: `None` for a missing key, `Some(JNull)` for a stored
  null. The message argument of `Errors.HandleResponse` makes the same
  distinction.
- `KeyValues.SetAttr`: values are immutable maps. In Ruby, `[]=` changes the
  Hash in place, and that Hash is shared with the response body after
  `load_from_response` and with the listing's `value` after construction
  from a listing. The model does not track that sharing.
