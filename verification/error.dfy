/**
 * The error classifier: a response is looked up in a fixed, ordered table
 * of error kinds by its status and the `code` field of its body; the first
 * kind that matches is raised, any other status of 400 or above raises the
 * generic request error, and anything else raises nothing.
 */
module Errors {
  import opened Wrappers
  import opened Http

  /**
   * The error classes. The first nine carry a class-level status and code
   * and make up the lookup table; `RequestError` is their generic parent and
   * `ServiceError` the server-side class, which the classifier never raises.
   */
  datatype ErrorKind =
    | BadRequest
    | MalformedSearch
    | MalformedRef
    | InvalidSearchParam
    | Unauthorized
    | NotFound
    | IndexingConflict
    | VersionMismatch
    | AlreadyPresent
    | RequestError
    | ServiceError

  /** Whether the class is `RequestError` or one of its subclasses. */
  predicate IsRequestError(k: ErrorKind)
  {
    k != ServiceError
  }

  datatype Signature = Signature(status: int, code: string)

  /** The class-level status and code; the two generic classes have none. */
  function SignatureOf(k: ErrorKind): (r: Option<Signature>)
    ensures r.Some? <==> k != RequestError && k != ServiceError
    ensures r.Some? ==> 400 <= r.value.status < 500
  {
    match k
    case BadRequest => Some(Signature(400, "api_bad_request"))
    case MalformedSearch => Some(Signature(400, "search_query_malformed"))
    case MalformedRef => Some(Signature(400, "item_ref_malformed"))
    case InvalidSearchParam => Some(Signature(400, "search_param_invalid"))
    case Unauthorized => Some(Signature(401, "security_unauthorized"))
    case NotFound => Some(Signature(404, "items_not_found"))
    case IndexingConflict => Some(Signature(409, "indexing_conflict"))
    case VersionMismatch => Some(Signature(412, "item_version_mismatch"))
    case AlreadyPresent => Some(Signature(412, "item_already_present"))
    case RequestError => None
    case ServiceError => None
  }

  /** The table searched in order by the classifier. */
  const ErrorTable: seq<ErrorKind> :=
    [BadRequest, MalformedSearch, MalformedRef, InvalidSearchParam,
     Unauthorized, NotFound, IndexingConflict,
     VersionMismatch, AlreadyPresent]

  /** The server-side codes listed beside the table, never consulted by it. */
  const ServiceErrorCodes: seq<string> :=
    ["security_authentication", "search_index_not_found", "internal_error"]

  /** A class matches when both its status and its code equal the response's. */
  predicate Matches(k: ErrorKind, status: int, code: Option<string>)
  {
    SignatureOf(k).Some? && code.Some? && SignatureOf(k).value == Signature(status, code.value)
  }

  /** The `code` field of a body when it is a string; None otherwise. */
  function BodyCode(body: Document): (r: Option<string>)
    ensures r.Some? <==> "code" in body && body["code"].JString?
    ensures r.Some? ==> body["code"] == JString(r.value)
  {
    if "code" in body && body["code"].JString? then Some(body["code"].s) else None
  }

  /** The first class of `rows` that matches, as `Array#find` returns it. */
  function FindFirst(rows: seq<ErrorKind>, status: int, code: Option<string>): (r: Option<ErrorKind>)
    ensures r.None? <==> forall i :: 0 <= i < |rows| ==> !Matches(rows[i], status, code)
    ensures r.Some? ==> exists i :: 0 <= i < |rows| && rows[i] == r.value && Matches(rows[i], status, code)
                                   && forall j :: 0 <= j < i ==> !Matches(rows[j], status, code)
  {
    if |rows| == 0 then None
    else if Matches(rows[0], status, code) then Some(rows[0])
    else
      assert forall i :: 1 <= i < |rows| ==> rows[i] == rows[1..][i - 1];
      FindFirst(rows[1..], status, code)
  }

  /** The kind `handle_response` raises for a status and body code, if any. */
  function Classify(status: int, code: Option<string>): (r: Option<ErrorKind>)
    ensures r.None? <==> status < 400
    ensures r == Some(RequestError) <==>
              400 <= status && forall i :: 0 <= i < |ErrorTable| ==> !Matches(ErrorTable[i], status, code)
    ensures r.Some? && r.value != RequestError ==> r.value in ErrorTable && Matches(r.value, status, code)
    ensures r.Some? ==> IsRequestError(r.value)
  {
    match FindFirst(ErrorTable, status, code)
    case Some(k) => Some(k)
    case None => if status >= 400 then Some(RequestError) else None
  }

  /**
   * A raised error: an error of the library's hierarchy, carrying the
   * argument its message was built from and the response, or any other
   * Ruby exception, named by its class.
   */
  datatype Exception =
    | ApiError(kind: ErrorKind, message: Option<Json>, response: Response)
    | RubyError(className: string)

  /** `handle_response`: the error it raises for a response, or None. */
  function HandleResponse(resp: Response): (r: Option<Exception>)
    ensures r.None? <==> resp.status < 400
    ensures r.Some? ==> r.value.ApiError? && IsRequestError(r.value.kind)
    ensures r.Some? ==> r.value.response == resp && r.value.message == Field(resp.body, "message")
    ensures r.Some? && r.value.kind != RequestError ==>
              Matches(r.value.kind, resp.status, BodyCode(resp.body))
    ensures r.Some? ==> Classify(resp.status, BodyCode(resp.body)) == Some(r.value.kind)
  {
    match Classify(resp.status, BodyCode(resp.body))
    case Some(k) => Some(ApiError(k, Field(resp.body, "message"), resp))
    case None => None
  }

  /** No two rows of the table share a status and code. */
  lemma TableSignaturesDistinct()
    ensures forall i, j :: 0 <= i < j < |ErrorTable| ==> SignatureOf(ErrorTable[i]) != SignatureOf(ErrorTable[j])
  {
  }

  /** A response with exactly a row's status and code classifies as that row. */
  lemma TableRowClassifiesAsItself(i: int)
    requires 0 <= i < |ErrorTable|
    ensures var sig := SignatureOf(ErrorTable[i]).value;
            Classify(sig.status, Some(sig.code)) == Some(ErrorTable[i])
  {
    TableSignaturesDistinct();
    var sig := SignatureOf(ErrorTable[i]).value;
    assert Matches(ErrorTable[i], sig.status, Some(sig.code));
  }

  /** The nine rows, spelled out with their statuses and codes. */
  lemma KnownCodes()
    ensures Classify(400, Some("api_bad_request")) == Some(BadRequest)
    ensures Classify(400, Some("search_query_malformed")) == Some(MalformedSearch)
    ensures Classify(400, Some("item_ref_malformed")) == Some(MalformedRef)
    ensures Classify(400, Some("search_param_invalid")) == Some(InvalidSearchParam)
    ensures Classify(401, Some("security_unauthorized")) == Some(Unauthorized)
    ensures Classify(404, Some("items_not_found")) == Some(NotFound)
    ensures Classify(409, Some("indexing_conflict")) == Some(IndexingConflict)
    ensures Classify(412, Some("item_version_mismatch")) == Some(VersionMismatch)
    ensures Classify(412, Some("item_already_present")) == Some(AlreadyPresent)
  {
    TableRowClassifiesAsItself(0);
    TableRowClassifiesAsItself(1);
    TableRowClassifiesAsItself(2);
    TableRowClassifiesAsItself(3);
    TableRowClassifiesAsItself(4);
    TableRowClassifiesAsItself(5);
    TableRowClassifiesAsItself(6);
    TableRowClassifiesAsItself(7);
    TableRowClassifiesAsItself(8);
  }

  /** Status 412 is shared by two kinds and only the code tells them apart. */
  lemma PreconditionFailuresSplitByCode(code: Option<string>)
    ensures SignatureOf(VersionMismatch).value.status == SignatureOf(AlreadyPresent).value.status == 412
    ensures Classify(412, code) == Some(VersionMismatch) <==> code == Some("item_version_mismatch")
    ensures Classify(412, code) == Some(AlreadyPresent) <==> code == Some("item_already_present")
    ensures code != Some("item_version_mismatch") && code != Some("item_already_present") ==>
              Classify(412, code) == Some(RequestError)
  {
    if code == Some("item_version_mismatch") {
      TableRowClassifiesAsItself(7);
    } else if code == Some("item_already_present") {
      TableRowClassifiesAsItself(8);
    } else {
      forall i | 0 <= i < |ErrorTable|
        ensures !Matches(ErrorTable[i], 412, code)
      {
      }
    }
  }

  /** Every 5xx status raises the generic request error, whatever the code. */
  lemma ServerStatusIsGeneric(status: int, code: Option<string>)
    requires 500 <= status
    ensures Classify(status, code) == Some(RequestError)
  {
  }

  /** The server-side codes of the 500-status list are not in the table. */
  lemma ServiceCodesAreGeneric(i: int)
    requires 0 <= i < |ServiceErrorCodes|
    ensures Classify(500, Some(ServiceErrorCodes[i])) == Some(RequestError)
    ensures Classify(400, Some(ServiceErrorCodes[i])) == Some(RequestError)
  {
    var code := ServiceErrorCodes[i];
    forall j | 0 <= j < |ErrorTable|
      ensures SignatureOf(ErrorTable[j]).value.code != code
    {
    }
  }

  /** Only the status and the body code matter: not headers, ref or time. */
  lemma ClassificationIgnoresHeaders(a: Response, b: Response)
    requires a.status == b.status && BodyCode(a.body) == BodyCode(b.body)
    ensures HandleResponse(a).None? <==> HandleResponse(b).None?
    ensures HandleResponse(a).Some? ==> HandleResponse(a).value.kind == HandleResponse(b).value.kind
  {
  }
}
