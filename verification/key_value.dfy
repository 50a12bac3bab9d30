/**
 * One stored document and its optimistic-concurrency protocol. Every
 * operation is a function from the item and the outcome of the client call
 * it makes to the item afterwards, the request it issued and how the Ruby
 * method completed.
 */
module KeyValues {
  import opened Wrappers
  import opened Http
  import opened RubyText
  import opened Errors
  import opened Client

  /**
   * The item's state. `value` is None until something assigns it (a fresh
   * item built from a key name has no value), `ref` is None before the first
   * load and after a delete.
   */
  datatype KeyValue = KeyValue(
    collectionName: string,
    key: string,
    id: string,
    ref: Option<string>,
    reftime: Option<Time>,
    value: Option<Document>,
    lastRequestTime: Option<Time>)

  /** The derived display id is the collection name, a slash, and the key. */
  predicate Valid(kv: KeyValue)
  {
    kv.id == kv.collectionName + "/" + kv.key
  }

  /** `loaded?`: whether a request has ever populated the item. */
  predicate Loaded(kv: KeyValue)
  {
    kv.lastRequestTime.Some?
  }

  /** Operations never move an item to another collection or key. */
  predicate SameIdentity(a: KeyValue, b: KeyValue)
  {
    a.collectionName == b.collectionName && a.key == b.key && a.id == b.id
  }

  /** What the item is built from: a key name, or an entry of a listing. */
  datatype Source = KeyName(name: Name) | FromListing(listing: Listing)

  /** The optional third argument of the constructor. */
  datatype Extra = NoExtra | AtTime(time: Time) | WithResponse(response: Response)

  /** The result of one operation: the item after it, the call it made, how it completed. */
  datatype Step<+T> = Step(kv: KeyValue, request: Request, result: Completion<T>)

  /** The exception Ruby raises when a method is called on `nil`. */
  const NoMethod := RubyError("NoMethodError")

  /** The exception `Time.parse(nil)` raises when there is no `Date` header. */
  const NoDate := RubyError("TypeError")

  /** The exception `Time.parse` raises on a `Date` header it cannot parse. */
  const BadDate := RubyError("ArgumentError")

  /** `load_from_response`: take ref and request time (and body when asked) from a response. */
  function LoadFromResponse(kv: KeyValue, resp: Response, setBody: bool): (r: KeyValue)
    ensures SameIdentity(kv, r) && r.reftime == kv.reftime
    ensures r.ref == resp.ref && r.lastRequestTime == Some(resp.requestTime)
    ensures setBody ==> r.value == Some(resp.body)
    ensures !setBody ==> r.value == kv.value
  {
    kv.(ref := resp.ref,
        value := if setBody then Some(resp.body) else kv.value,
        lastRequestTime := Some(resp.requestTime))
  }

  /** `KeyValue.new(collection, key_name_or_listing, response)`. */
  function New(collectionName: string, source: Source, extra: Extra): (kv: KeyValue)
    ensures Valid(kv) && kv.collectionName == collectionName
    ensures source.KeyName? ==> kv.key == ToS(source.name)
    ensures source.FromListing? ==> kv.key == source.listing.path.key
    ensures source.KeyName? && !extra.WithResponse? ==>
              kv.ref.None? && kv.reftime.None? && kv.value.None? && !Loaded(kv)
    ensures source.FromListing? && !extra.WithResponse? ==>
              && kv.ref == Some(source.listing.path.ref)
              && kv.reftime == Some(source.listing.reftime)
              && kv.value == Some(source.listing.value)
              && (Loaded(kv) <==> extra.AtTime?)
              && (extra.AtTime? ==> kv.lastRequestTime == Some(extra.time))
    ensures extra.WithResponse? ==>
              && kv.ref == extra.response.ref
              && kv.value == Some(extra.response.body)
              && kv.lastRequestTime == Some(extra.response.requestTime)
  {
    var base :=
      match source
      case KeyName(n) =>
        KeyValue(collectionName, ToS(n), collectionName + "/" + ToS(n), None, None, None, None)
      case FromListing(l) =>
        KeyValue(collectionName, l.path.key, collectionName + "/" + l.path.key,
                 Some(l.path.ref), Some(l.reftime), Some(l.value),
                 if extra.AtTime? then Some(extra.time) else None);
    if extra.WithResponse? then LoadFromResponse(base, extra.response, true) else base
  }

  /** `reload`: an unconditional GET whose response replaces ref, value and request time. */
  function Reload(kv: KeyValue, outcome: Outcome): (r: Step<Time>)
    ensures r.request == Get(kv.collectionName, kv.key)
    ensures SameIdentity(kv, r.kv) && r.kv.reftime == kv.reftime
    ensures outcome.Ok? ==>
              && r.kv.ref == outcome.response.ref
              && r.kv.value == Some(outcome.response.body)
              && r.kv.lastRequestTime == Some(outcome.response.requestTime)
              && Loaded(r.kv)
              && r.result.Returns?
    ensures outcome.Err? ==> r.kv == kv && r.result == Raises(outcome.exc)
  {
    var request := Get(kv.collectionName, kv.key);
    match outcome
    case Ok(resp) => Step(LoadFromResponse(kv, resp, true), request, Returns(resp.requestTime))
    case Err(e) => Step(kv, request, Raises(e))
  }

  /** `KeyValue.load(collection, key)`: build from the key, then reload. */
  function Load(collectionName: string, name: Name, outcome: Outcome): (r: (Request, Completion<KeyValue>))
    ensures r.0 == Get(collectionName, ToS(name))
    ensures outcome.Ok? ==> r.1.Returns? && Valid(r.1.value) && Loaded(r.1.value)
                            && r.1.value.collectionName == collectionName
                            && r.1.value.key == ToS(name)
                            && r.1.value.ref == outcome.response.ref
                            && r.1.value.value == Some(outcome.response.body)
    ensures outcome.Err? ==> r.1 == Raises(outcome.exc)
  {
    var s := Reload(New(collectionName, KeyName(name), NoExtra), outcome);
    match s.result
    case Returns(_) => (s.request, Returns(s.kv))
    case Raises(e) => (s.request, Raises(e))
  }

  /** `kv[attr_name]`: the attribute under `attr_name.to_s`, nil when absent. */
  function GetAttr(kv: KeyValue, name: Name): (r: Completion<Option<Json>>)
    ensures kv.value.None? ==> r == Raises(NoMethod)
    ensures kv.value.Some? ==> r.Returns? && (r.value.Some? <==> ToS(name) in kv.value.value)
    ensures kv.value.Some? && r.value.Some? ==> r.value.value == kv.value.value[ToS(name)]
  {
    match kv.value
    case None => Raises(NoMethod)
    case Some(doc) => Returns(Field(doc, ToS(name)))
  }

  /** `kv[attr_name] = attr_value`: store under `attr_name.to_s`, returning the value. */
  function SetAttr(kv: KeyValue, name: Name, v: Json): (r: (KeyValue, Completion<Json>))
    ensures kv.value.None? ==> r == (kv, Raises(NoMethod))
    ensures kv.value.Some? ==>
              && r.1 == Returns(v)
              && r.0 == kv.(value := r.0.value)
              && r.0.value.Some? && r.0.value.value.Keys == kv.value.value.Keys + {ToS(name)}
  {
    match kv.value
    case None => (kv, Raises(NoMethod))
    case Some(doc) => (kv.(value := Some(doc[ToS(name) := v])), Returns(v))
  }

  /**
   * `save!`: a PUT of the local value under the current ref. A success takes
   * ref and request time from the response and keeps the local value; an
   * indexing conflict is a success whose ref is the last segment of the
   * `Location` header; every other error propagates with the item unchanged.
   */
  function SaveBang(kv: KeyValue, outcome: Outcome): (r: Step<bool>)
    ensures r.request == Put(kv.collectionName, kv.key, kv.value, kv.ref)
    ensures SameIdentity(kv, r.kv) && r.kv.value == kv.value && r.kv.reftime == kv.reftime
    ensures r.result.Returns? ==> r.result.value && Loaded(r.kv)
    ensures outcome.Ok? ==>
              && r.result == Returns(true)
              && r.kv.ref == outcome.response.ref
              && r.kv.lastRequestTime == Some(outcome.response.requestTime)
    ensures outcome.Err? && !(outcome.exc.ApiError? && outcome.exc.kind == IndexingConflict) ==>
              r.kv == kv && r.result == Raises(outcome.exc)
    ensures outcome.Err? && outcome.exc.ApiError? && outcome.exc.kind == IndexingConflict ==>
              var resp := outcome.exc.response;
              && ("Location" !in resp.headers ==> r.kv == kv && r.result == Raises(NoMethod))
              && ("Location" in resp.headers ==> r.kv.ref == LastSegment(resp.headers["Location"]))
              && ("Location" in resp.headers && "Date" !in resp.headers ==>
                    r.result == Raises(NoDate) && r.kv.lastRequestTime == kv.lastRequestTime)
              && ("Location" in resp.headers && "Date" in resp.headers && resp.date.Some? ==>
                    r.result == Returns(true) && r.kv.lastRequestTime == resp.date)
              && ("Location" in resp.headers && "Date" in resp.headers && resp.date.None? ==>
                    r.result == Raises(BadDate) && r.kv.lastRequestTime == kv.lastRequestTime)
  {
    var request := Put(kv.collectionName, kv.key, kv.value, kv.ref);
    match outcome
    case Ok(resp) => Step(LoadFromResponse(kv, resp, false), request, Returns(true))
    case Err(e) =>
      if e.ApiError? && e.kind == IndexingConflict then
        var resp := e.response;
        if "Location" !in resp.headers then Step(kv, request, Raises(NoMethod))
        else
          var withRef := kv.(ref := LastSegment(resp.headers["Location"]));
          if "Date" !in resp.headers then Step(withRef, request, Raises(NoDate))
          else match resp.date
          case None => Step(withRef, request, Raises(BadDate))
          case Some(t) => Step(withRef.(lastRequestTime := Some(t)), request, Returns(true))
      else Step(kv, request, Raises(e))
  }

  /** The exceptions `save` rescues: `RequestError`, `ServiceError` and their subclasses. */
  predicate RescuedBySave(e: Exception)
  {
    e.ApiError? && (IsRequestError(e.kind) || e.kind == ServiceError)
  }

  /** `save`: `save!`, with every request and service error turned into `false`. */
  function Save(kv: KeyValue, outcome: Outcome): (r: Step<bool>)
    ensures r.kv == SaveBang(kv, outcome).kv && r.request == SaveBang(kv, outcome).request
    ensures r.result.Raises? ==> r.result.exc.RubyError?
    ensures SaveBang(kv, outcome).result.Returns? ==> r.result == SaveBang(kv, outcome).result
    ensures SaveBang(kv, outcome).result.Raises? && SaveBang(kv, outcome).result.exc.ApiError? ==>
              r.result == Returns(false)
    ensures SaveBang(kv, outcome).result.Raises? && SaveBang(kv, outcome).result.exc.RubyError? ==>
              r.result == SaveBang(kv, outcome).result
  {
    var s := SaveBang(kv, outcome);
    if s.result.Raises? && RescuedBySave(s.result.exc) then s.(result := Returns(false)) else s
  }

  /** `destroy!`: a DELETE under the current ref; success clears the ref. */
  function DestroyBang(kv: KeyValue, outcome: Outcome): (r: Step<bool>)
    ensures r.request == Delete(kv.collectionName, kv.key, kv.ref)
    ensures SameIdentity(kv, r.kv) && r.kv.value == kv.value && r.kv.reftime == kv.reftime
    ensures outcome.Ok? ==>
              && r.result == Returns(true)
              && r.kv.ref.None?
              && r.kv.lastRequestTime == Some(outcome.response.requestTime)
    ensures outcome.Err? ==> r.kv == kv && r.result == Raises(outcome.exc)
  {
    var request := Delete(kv.collectionName, kv.key, kv.ref);
    match outcome
    case Ok(resp) => Step(kv.(ref := None, lastRequestTime := Some(resp.requestTime)), request, Returns(true))
    case Err(e) => Step(kv, request, Raises(e))
  }

  /** `destroy`: `destroy!`, with only a version mismatch turned into `false`. */
  function Destroy(kv: KeyValue, outcome: Outcome): (r: Step<bool>)
    ensures r.kv == DestroyBang(kv, outcome).kv && r.request == DestroyBang(kv, outcome).request
    ensures r.result == Returns(false) <==>
              outcome.Err? && outcome.exc.ApiError? && outcome.exc.kind == VersionMismatch
    ensures !(outcome.Err? && outcome.exc.ApiError? && outcome.exc.kind == VersionMismatch) ==>
              r.result == DestroyBang(kv, outcome).result
  {
    var s := DestroyBang(kv, outcome);
    if s.result.Raises? && s.result.exc.ApiError? && s.result.exc.kind == VersionMismatch
    then s.(result := Returns(false))
    else s
  }
}
