/**
 * The request and response shapes of the two handlers.  JSON parsing, the
 * CORS headers and `JSON.stringify` are not modelled; a request arrives with
 * its body already classified and its `id` query parameter already parsed.
 */
module Http {
  import opened Collection

  /**
   * `event.httpMethod`.  Any verb other than these five (PATCH, HEAD, ...)
   * is `Other`; which one it is plays no further part.
   */
  datatype HttpMethod = GET | POST | PUT | DELETE | OPTIONS | Other

  /**
   * A parsed JSON object body: its `id` field (None when absent or null) and
   * the entity's remaining fields.
   */
  datatype Body<P> = Body(id: Option<int>, data: P)

  /**
   * The request body after `event.body ? JSON.parse(event.body) : null`:
   * absent or parsed to a falsy value, not valid JSON (the parse throws), or
   * an object.
   */
  datatype BodyInput<P> = NoBody | Malformed | Parsed(body: Body<P>)

  /**
   * The `id` query parameter after `parseInt`: `NotANumber` is NaN, which is
   * strictly unequal to every id.  An absent or empty parameter is `None`
   * in `Request.id`.
   */
  datatype QueryId = NotANumber | Number(n: int)

  datatype Request<P> = Request(verb: HttpMethod, body: BodyInput<P>, id: Option<QueryId>)

  /** What a response carries in its JSON body (or no body at all). */
  datatype Payload<P> =
    | NoContent
    | List(records: seq<Record<P>>)
    | One(record: Record<P>)
    | Success
    | Error(message: string)

  datatype Response<P> = Response(statusCode: int, payload: Payload<P>)

  /**
   * JavaScript truthiness of a body's `id`: of the ids modelled, the falsy
   * ones are a missing or null id and 0.
   */
  function TruthyId(id: Option<int>): (r: bool)
    ensures r <==> id != None && id != Some(0)
  {
    id.Some? && id.value != 0
  }
}
