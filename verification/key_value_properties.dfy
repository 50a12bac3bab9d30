/**
 * Properties of the item protocol that relate several operations, or an
 * operation and the classifier that produces its outcome.
 */
module KeyValueProperties {
  import opened Wrappers
  import opened Http
  import opened RubyText
  import opened Errors
  import opened Client
  import opened KeyValues

  /** Reading an attribute just written gives the written value. */
  lemma SetThenGet(kv: KeyValue, name: Name, v: Json)
    requires kv.value.Some?
    ensures GetAttr(SetAttr(kv, name, v).0, name) == Returns(Some(v))
  {
  }

  /** Writing one attribute leaves every other attribute as it was. */
  lemma SetLeavesOthers(kv: KeyValue, name: Name, other: Name, v: Json)
    requires ToS(name) != ToS(other)
    ensures GetAttr(SetAttr(kv, name, v).0, other) == GetAttr(kv, other)
  {
  }

  /** A symbol and a string with the same text name the same attribute. */
  lemma SymbolAndStringAgree(kv: KeyValue, text: string, v: Json)
    ensures GetAttr(kv, Sym(text)) == GetAttr(kv, Str(text))
    ensures SetAttr(kv, Sym(text), v) == SetAttr(kv, Str(text), v)
  {
  }

  /** A write, whatever its outcome, never replaces local edits. */
  lemma LocalEditsSurviveSave(kv: KeyValue, name: Name, v: Json, outcome: Outcome)
    requires kv.value.Some?
    ensures var edited := SetAttr(kv, name, v).0;
            GetAttr(SaveBang(edited, outcome).kv, name) == Returns(Some(v))
            && GetAttr(Save(edited, outcome).kv, name) == Returns(Some(v))
  {
  }

  /**
   * `loaded?` is false for an item built from a key name, becomes true with
   * the first successful call, and never reverts.
   */
  lemma LoadedTracksRequests(kv: KeyValue, outcome: Outcome, collectionName: string, name: Name)
    ensures !Loaded(New(collectionName, KeyName(name), NoExtra))
    ensures outcome.Ok? ==>
              Loaded(Reload(kv, outcome).kv) && Loaded(SaveBang(kv, outcome).kv) && Loaded(DestroyBang(kv, outcome).kv)
    ensures Loaded(kv) ==>
              && Loaded(Reload(kv, outcome).kv)
              && Loaded(SaveBang(kv, outcome).kv) && Loaded(Save(kv, outcome).kv)
              && Loaded(DestroyBang(kv, outcome).kv) && Loaded(Destroy(kv, outcome).kv)
  {
  }

  /** Every operation keeps the id equal to collection name, slash, key. */
  lemma OperationsPreserveValid(kv: KeyValue, outcome: Outcome, name: Name, v: Json)
    requires Valid(kv)
    ensures Valid(Reload(kv, outcome).kv)
    ensures Valid(SaveBang(kv, outcome).kv) && Valid(Save(kv, outcome).kv)
    ensures Valid(DestroyBang(kv, outcome).kv) && Valid(Destroy(kv, outcome).kv)
    ensures Valid(SetAttr(kv, name, v).0)
  {
  }

  /** After a successful delete the next save carries no ref. */
  lemma DestroyThenSaveSendsNoRef(kv: KeyValue, deleted: Response, outcome: Outcome)
    ensures var gone := DestroyBang(kv, Ok(deleted)).kv;
            SaveBang(gone, outcome).request == Put(kv.collectionName, kv.key, kv.value, None)
  {
  }

  /**
   * Saving a value and reloading it from a service that stored it gives back
   * the value and the ref the save returned.
   */
  lemma SaveThenReload(kv: KeyValue, doc: Document, put: Response, get: Response)
    requires kv.value == Some(doc)
    requires get.body == doc && get.ref == put.ref
    ensures var saved := SaveBang(kv, Ok(put));
            var reloaded := Reload(saved.kv, Ok(get));
            && saved.request == Put(kv.collectionName, kv.key, Some(doc), kv.ref)
            && saved.result == Returns(true)
            && saved.kv.ref == put.ref
            && reloaded.kv.value == Some(doc)
            && reloaded.kv.ref == put.ref
  {
  }

  /**
   * A 409 `indexing_conflict` response whose `Location` ends in a ref is a
   * success for both saves, and that ref becomes the item's ref.
   */
  lemma IndexingConflictIsSoftSuccess(kv: KeyValue, resp: Response, prefix: string, ref: string)
    requires resp.status == 409 && BodyCode(resp.body) == Some("indexing_conflict")
    requires "Location" in resp.headers && resp.headers["Location"] == prefix + "/" + ref
    requires ref != "" && '/' !in ref
    requires "Date" in resp.headers && resp.date.Some?
    ensures SaveBang(kv, Respond(resp)).result == Returns(true)
    ensures SaveBang(kv, Respond(resp)).kv.ref == Some(ref)
    ensures Save(kv, Respond(resp)).result == Returns(true)
    ensures Save(kv, Respond(resp)).kv.ref == Some(ref)
  {
    KnownCodes();
    RefFromLocation(prefix, ref);
  }

  /**
   * A 412 `item_version_mismatch` response: the strict operations raise
   * `VersionMismatch`, the lenient ones return false, and the item keeps its
   * ref and everything else.
   */
  lemma VersionMismatchHandling(kv: KeyValue, resp: Response)
    requires resp.status == 412 && BodyCode(resp.body) == Some("item_version_mismatch")
    ensures SaveBang(kv, Respond(resp)).result.Raises?
    ensures SaveBang(kv, Respond(resp)).result.exc.ApiError?
    ensures SaveBang(kv, Respond(resp)).result.exc.kind == VersionMismatch
    ensures Save(kv, Respond(resp)) == Step(kv, Put(kv.collectionName, kv.key, kv.value, kv.ref), Returns(false))
    ensures DestroyBang(kv, Respond(resp)).result.Raises?
    ensures DestroyBang(kv, Respond(resp)).result.exc.kind == VersionMismatch
    ensures Destroy(kv, Respond(resp)) == Step(kv, Delete(kv.collectionName, kv.key, kv.ref), Returns(false))
  {
    KnownCodes();
  }

  /**
   * The lenient save returns false, leaving the item as it was, for every
   * error of the library other than an indexing conflict, bad requests and
   * service errors included.
   */
  lemma SaveSwallowsApiErrors(kv: KeyValue, e: Exception)
    requires e.ApiError? && e.kind != IndexingConflict
    ensures Save(kv, Err(e)).result == Returns(false)
    ensures Save(kv, Err(e)).kv == kv
    ensures SaveBang(kv, Err(e)).result == Raises(e)
  {
  }

  /** Exceptions outside the library's hierarchy escape the lenient save. */
  lemma SavePropagatesForeignErrors(kv: KeyValue, e: Exception)
    requires e.RubyError?
    ensures Save(kv, Err(e)) == Step(kv, Put(kv.collectionName, kv.key, kv.value, kv.ref), Raises(e))
  {
  }

  /**
   * An indexing conflict whose `Location` is there but whose `Date` is
   * missing or unparseable: both saves raise the `Time.parse` error, after
   * the ref has already been taken from `Location`.
   */
  lemma IndexingConflictWithoutDate(kv: KeyValue, e: Exception)
    requires e.ApiError? && e.kind == IndexingConflict
    requires "Location" in e.response.headers
    requires "Date" !in e.response.headers || e.response.date.None?
    ensures Save(kv, Err(e)).result.Raises? && Save(kv, Err(e)).result.exc.RubyError?
    ensures Save(kv, Err(e)).result == SaveBang(kv, Err(e)).result
    ensures Save(kv, Err(e)).kv.ref == LastSegment(e.response.headers["Location"])
    ensures Save(kv, Err(e)).kv.lastRequestTime == kv.lastRequestTime
  {
  }

  /** An indexing conflict without a `Location` raises NoMethodError from both saves, item unchanged. */
  lemma IndexingConflictWithoutLocation(kv: KeyValue, e: Exception)
    requires e.ApiError? && e.kind == IndexingConflict
    requires "Location" !in e.response.headers
    ensures Save(kv, Err(e)) == SaveBang(kv, Err(e))
    ensures Save(kv, Err(e)).kv == kv && Save(kv, Err(e)).result == Raises(NoMethod)
  {
  }

  /** The lenient destroy rescues nothing but a version mismatch. */
  lemma DestroyPropagatesOtherErrors(kv: KeyValue, e: Exception)
    requires !(e.ApiError? && e.kind == VersionMismatch)
    ensures Destroy(kv, Err(e)) == Step(kv, Delete(kv.collectionName, kv.key, kv.ref), Raises(e))
  {
  }

  /** Reloading an item the service does not have raises `NotFound`. */
  lemma ReloadOfMissingItem(kv: KeyValue, resp: Response)
    requires resp.status == 404 && BodyCode(resp.body) == Some("items_not_found")
    ensures Reload(kv, Respond(resp)).kv == kv
    ensures Reload(kv, Respond(resp)).result.Raises?
    ensures Reload(kv, Respond(resp)).result.exc.kind == NotFound
  {
    KnownCodes();
  }
}
