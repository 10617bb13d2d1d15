/**
 * lambdas/deleteMovie.ts: deletes the movie whose `id` the JSON body names.
 * Every failure is answered 500, and success is answered 201 with the
 * message "Movie added".
 */
module DeleteMovie {
  import opened Options
  import opened Js
  import opened Http
  import opened Services
  import opened Tables

  const JsonHeaders: StringMap := map["content-type" := "application/json"]

  const MissingBody := Response(500, JsonHeaders, Message("Missing request body"))
  const SchemaMismatch := Response(500, JsonHeaders, MessageWithSchema("Incorrect type. Must match the Movie schema", "Movie"))
  const Failure := Response(500, JsonHeaders, ExceptionObject)
  const Done := Response(201, JsonHeaders, Message("Movie added"))

  /** The outcome of the body checks: the response to return, or the parsed body. */
  datatype Checked = Reject(response: Response) | Accept(body: Json)

  /** Lines 14-30: the body must be present, parse, be truthy and match the `Movie` schema. */
  function CheckBody(event: RequestEvent, rt: Runtime): (c: Checked)
    ensures !Truthy(event.body) ==> c == Reject(MissingBody)
    // JSON.parse raised: the outer catch answers with the error itself
    ensures Truthy(event.body) && rt.parseJson(event.body.value).None? ==> c == Reject(Failure)
    ensures (Truthy(event.body) && rt.parseJson(event.body.value).Some? &&
             !JsonTruthy(rt.parseJson(event.body.value).value)) ==>
            c == Reject(MissingBody)
    ensures (Truthy(event.body) && rt.parseJson(event.body.value).Some? &&
             JsonTruthy(rt.parseJson(event.body.value).value) && !rt.conforms("Movie", rt.parseJson(event.body.value).value)) ==>
            c == Reject(SchemaMismatch)
    ensures c.Accept? <==>
      Truthy(event.body) && rt.parseJson(event.body.value).Some? &&
      JsonTruthy(rt.parseJson(event.body.value).value) && rt.conforms("Movie", rt.parseJson(event.body.value).value)
    ensures c.Accept? ==> c.body == rt.parseJson(event.body.value).value
  {
    if !Truthy(event.body) then Reject(MissingBody)
    else match rt.parseJson(event.body.value)
      case None => Reject(Failure)
      case Some(body) =>
        if !JsonTruthy(body) then Reject(MissingBody)
        else if !rt.conforms("Movie", body) then Reject(SchemaMismatch)
        else Accept(body)
  }

  /**
   * `schema.definitions["Movie"] || {}`: the generated schema has no Movie
   * definition, so the validator is compiled from the empty schema, which
   * every value satisfies.
   */
  ghost predicate MovieSchemaAbsent(rt: Runtime) {
    forall j :: rt.conforms("Movie", j)
  }

  /** With the empty schema, a body that parses to a truthy value is never refused for its shape. */
  lemma AbsentSchemaAcceptsTruthyBodies(event: RequestEvent, rt: Runtime)
    requires MovieSchemaAbsent(rt)
    ensures CheckBody(event, rt) != Reject(SchemaMismatch)
    ensures Truthy(event.body) && rt.parseJson(event.body.value).Some? && JsonTruthy(rt.parseJson(event.body.value).value) ==>
      CheckBody(event, rt).Accept?
  {
  }

  /**
   * A value the table can take as a key attribute: a string or a number.
   * `null`, a boolean, an array or an object is refused, and so is an
   * absent `id`, which leaves the key `{}` once undefined values are removed.
   */
  predicate KeyAttribute(id: Option<Json>) {
    id.Some? && (id.value.Str? || id.value.Num?)
  }

  /** The handler. deleteFails: the delete raises. */
  method Handler(table: MovieTable, event: RequestEvent, rt: Runtime, deleteFails: bool) returns (resp: Response)
    modifies table
    ensures resp.headers == JsonHeaders
    ensures resp.statusCode != 201 ==> table.items == old(table.items)
    ensures CheckBody(event, rt).Reject? ==> resp == CheckBody(event, rt).response
    ensures CheckBody(event, rt).Accept? ==>
      var id := Field(CheckBody(event, rt).body, "id");
      if !KeyAttribute(id) || deleteFails then resp == Failure
      // the movie of that id is gone, and nothing else changes
      else resp == Done && table.items == old(table.items) - {id.value}
    ensures resp.statusCode in {201, 500}
  {
    var c := CheckBody(event, rt);
    if c.Reject? {
      return c.response;
    }
    var id := Field(c.body, "id");
    if !KeyAttribute(id) || deleteFails {
      return Failure;
    }
    table.Delete(id.value);
    resp := Done;
  }
}
