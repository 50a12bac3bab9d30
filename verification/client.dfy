/**
 * The client calls the core makes, as values: the request it issues and
 * the outcome the call completes with. The transport, URL building and the
 * request headers are not modelled; an outcome is either the response or
 * the exception the call raised.
 */
module Client {
  import opened Wrappers
  import opened Http
  import opened RubyText
  import opened Errors

  /** The five arguments of a relation call: source, relation type, target. */
  datatype EdgeArgs = EdgeArgs(fromCollection: Name, fromKey: Option<Name>, relation: string,
                               toCollection: Name, toKey: Option<Name>)

  /** One call on the client, with the arguments the core passes it. */
  datatype Request =
    | Get(collection: string, key: string)
    | Put(collection: string, key: string, value: Option<Document>, ref: Option<string>)
    | Delete(collection: string, key: string, ref: Option<string>)
    | PutRelation(edge: EdgeArgs)
    | DeleteRelation(edge: EdgeArgs)
    | GetRelations(collection: string, key: string, edges: seq<Name>)

  /** How a client call completed: with a response, or by raising. */
  datatype Outcome = Ok(response: Response) | Err(exc: Exception)

  /** How a Ruby method call completed: returning a value, or raising. */
  datatype Completion<+T> = Returns(value: T) | Raises(exc: Exception)

  /** The outcome of a call whose response is handed to `handle_response`. */
  function Respond(resp: Response): (o: Outcome)
    ensures o.Ok? <==> resp.status < 400
    ensures o.Ok? ==> o.response == resp
    ensures o.Err? ==> o.exc.ApiError? && o.exc.response == resp
                       && o.exc.message == Field(resp.body, "message")
                       && Classify(resp.status, BodyCode(resp.body)) == Some(o.exc.kind)
  {
    match HandleResponse(resp)
    case Some(e) => Err(e)
    case None => Ok(resp)
  }
}
