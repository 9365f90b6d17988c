/**
 * One JSON-file-backed collection endpoint (`exports.handler` of both
 * netlify functions).  The two handlers differ only in the entity name used
 * in error messages, the seed list written when the file is missing, and the
 * create hook applied to a POST body; `Store` takes all three as constants.
 */
module CrudStore {
  import opened Collection
  import opened Http

  class Store<P> {
    /** "User" or "Werkzeug": the entity name in error messages. */
    const entity: string
    /** `DEFAULT_USERS` / `DEFAULT_WERKZEUGE`. */
    const seed: seq<Record<P>>
    /** Fields the store forces on a created record (`{...body, ...}`). */
    const stamp: P -> P
    /** The backing file's parsed list; None when it is absent or unreadable. */
    var file: Option<seq<Record<P>>>

    constructor (entity: string, seed: seq<Record<P>>, stamp: P -> P, file: Option<seq<Record<P>>>)
      ensures this.entity == entity && this.seed == seed && this.stamp == stamp
      ensures this.file == file
    {
      this.entity := entity;
      this.seed := seed;
      this.stamp := stamp;
      this.file := file;
    }

    /** The list a read of the store yields: the file, or the seed in its place. */
    function Contents(): (c: seq<Record<P>>)
      reads this
    {
      if file.Some? then file.value else seed
    }

    /** The store's invariant: ids are unique. */
    predicate Valid()
      reads this
    {
      UniqueIds(Contents())
    }

    /** `readUsers` / `readWerkzeuge`: a missing or unreadable file is replaced by the seed. */
    method Read() returns (rs: seq<Record<P>>)
      modifies this
      ensures rs == old(Contents())
      ensures file == Some(rs)
    {
      if file.Some? {
        rs := file.value;
      } else {
        file := Some(seed);
        rs := seed;
      }
    }

    /** POST: append the body, with a fresh id and the create hook applied. */
    method Create(body: Option<Body<P>>) returns (resp: Response<P>)
      modifies this
      ensures body.None? ==> resp == Response(400, Error("Request body required")) && file == old(file)
      ensures body.Some? ==>
        var created := Record(NewId(old(Contents())), stamp(body.value.data));
        resp == Response(201, One(created)) && file == Some(old(Contents()) + [created])
      ensures old(Valid()) ==> Valid()
    {
      if body.None? {
        return Response(400, Error("Request body required"));
      }
      var current := Read();
      var newId := NewId(current);
      var created := Record(newId, stamp(body.value.data));
      if UniqueIds(current) {
        AppendNewKeepsUnique(current, stamp(body.value.data));
      }
      current := current + [created];
      file := Some(current);
      resp := Response(201, One(created));
    }

    /** PUT: overwrite the first record carrying the body's id by the body itself. */
    method Replace(body: Option<Body<P>>) returns (resp: Response<P>)
      modifies this
      ensures !(body.Some? && TruthyId(body.value.id)) ==>
        resp == Response(400, Error(entity + " ID required")) && file == old(file)
      ensures body.Some? && TruthyId(body.value.id) && !HasId(old(Contents()), body.value.id.value) ==>
        resp == Response(404, Error(entity + " not found")) && file == Some(old(Contents()))
      ensures body.Some? && TruthyId(body.value.id) && HasId(old(Contents()), body.value.id.value) ==>
        var replacement := Record(body.value.id.value, body.value.data);
        var i := FindIndex(old(Contents()), replacement.id);
        resp == Response(200, One(replacement)) && file == Some(old(Contents())[i := replacement])
      ensures old(Valid()) ==> Valid()
    {
      if body.None? || !TruthyId(body.value.id) {
        return Response(400, Error(entity + " ID required"));
      }
      var id := body.value.id.value;
      var current := Read();
      var index := FindIndex(current, id);
      if index == -1 {
        return Response(404, Error(entity + " not found"));
      }
      var replacement := Record(id, body.value.data);
      ReplaceKeepsIds(current, index, replacement);
      current := current[index := replacement];
      file := Some(current);
      resp := Response(200, One(replacement));
    }

    /** DELETE: drop every record carrying the query id. */
    method Delete(param: Option<QueryId>) returns (resp: Response<P>)
      modifies this
      ensures param.None? ==> resp == Response(400, Error(entity + " ID required")) && file == old(file)
      ensures param == Some(NotANumber) ==>
        resp == Response(404, Error(entity + " not found")) && file == Some(old(Contents()))
      ensures param.Some? && param.value.Number? && !HasId(old(Contents()), param.value.n) ==>
        resp == Response(404, Error(entity + " not found")) && file == Some(old(Contents()))
      ensures param.Some? && param.value.Number? && HasId(old(Contents()), param.value.n) ==>
        resp == Response(200, Success) && file == Some(Without(old(Contents()), param.value.n))
      ensures old(Valid()) ==> Valid()
    {
      if param.None? {
        return Response(400, Error(entity + " ID required"));
      }
      var current := Read();
      // NaN is unequal to every id, so the filter then keeps every record.
      var filtered := if param.value.Number? then Without(current, param.value.n) else current;
      if |filtered| == |current| {
        return Response(404, Error(entity + " not found"));
      }
      if UniqueIds(current) {
        WithoutKeepsUnique(current, param.value.n);
      }
      file := Some(filtered);
      resp := Response(200, Success);
    }

    /** `exports.handler`: preflight, body parsing, then dispatch on the verb. */
    method Handle(req: Request<P>) returns (resp: Response<P>)
      modifies this
      ensures req.verb == OPTIONS ==> resp == Response(200, NoContent) && file == old(file)
      ensures req.verb != OPTIONS && req.body.Malformed? ==>
        resp == Response(500, Error("Internal server error")) && file == old(file)
      ensures req.verb.Other? && !req.body.Malformed? ==>
        resp == Response(405, Error("Method not allowed")) && file == old(file)
      ensures req.verb == GET && !req.body.Malformed? ==>
        resp == Response(200, List(old(Contents()))) && file == Some(old(Contents()))
      ensures req.verb == POST && req.body.Parsed? ==>
        var created := Record(NewId(old(Contents())), stamp(req.body.body.data));
        resp == Response(201, One(created)) && file == Some(old(Contents()) + [created])
      ensures (req.verb == PUT && req.body.Parsed? && TruthyId(req.body.body.id)
               && HasId(old(Contents()), req.body.body.id.value)) ==>
        var replacement := Record(req.body.body.id.value, req.body.body.data);
        resp == Response(200, One(replacement)) &&
        file == Some(old(Contents())[FindIndex(old(Contents()), replacement.id) := replacement])
      ensures (req.verb == DELETE && !req.body.Malformed? && req.id.Some? && req.id.value.Number?
               && HasId(old(Contents()), req.id.value.n)) ==>
        resp == Response(200, Success) && file == Some(Without(old(Contents()), req.id.value.n))
      ensures req.verb == POST && req.body.NoBody? ==>
        resp == Response(400, Error("Request body required")) && file == old(file)
      ensures req.verb == PUT && !req.body.Malformed? && !(req.body.Parsed? && TruthyId(req.body.body.id)) ==>
        resp == Response(400, Error(entity + " ID required")) && file == old(file)
      ensures (req.verb == PUT && req.body.Parsed? && TruthyId(req.body.body.id)
               && !HasId(old(Contents()), req.body.body.id.value)) ==>
        resp == Response(404, Error(entity + " not found")) && file == Some(old(Contents()))
      ensures req.verb == DELETE && !req.body.Malformed? && req.id.None? ==>
        resp == Response(400, Error(entity + " ID required")) && file == old(file)
      ensures (req.verb == DELETE && !req.body.Malformed? && req.id.Some?
               && !(req.id.value.Number? && HasId(old(Contents()), req.id.value.n))) ==>
        resp == Response(404, Error(entity + " not found")) && file == Some(old(Contents()))
      ensures resp.statusCode >= 400 ==> Contents() == old(Contents())
      ensures resp.statusCode < 400 <==>
        || req.verb == OPTIONS
        || (req.verb == GET && !req.body.Malformed?)
        || (req.verb == POST && req.body.Parsed?)
        || (req.verb == PUT && req.body.Parsed? && TruthyId(req.body.body.id)
            && HasId(old(Contents()), req.body.body.id.value))
        || (req.verb == DELETE && !req.body.Malformed? && req.id.Some? && req.id.value.Number?
            && HasId(old(Contents()), req.id.value.n))
      ensures old(Valid()) ==> Valid()
    {
      if req.verb == OPTIONS {
        return Response(200, NoContent);
      }
      if req.body.Malformed? {
        return Response(500, Error("Internal server error"));
      }
      var body := if req.body.Parsed? then Some(req.body.body) else None;
      match req.verb {
        case GET =>
          var all := Read();
          resp := Response(200, List(all));
        case POST =>
          resp := Create(body);
        case PUT =>
          resp := Replace(body);
        case DELETE =>
          resp := Delete(req.id);
        case OPTIONS =>
          resp := Response(200, NoContent);
        case Other =>
          resp := Response(405, Error("Method not allowed"));
      }
    }
  }
}
