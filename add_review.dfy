/**
 * lambdas/addMovieReview.ts: stores a new review for a movie. The caller
 * authenticates with an `Authorization: Bearer <token>` header; the review
 * gets a random id below 1000000.
 */
module AddMovieReview {
  import opened Options
  import opened Js
  import opened Types
  import opened Http
  import opened Services
  import opened Tables

  const JsonCorsHeaders: StringMap := map["content-type" := "application/json", "Access-Control-Allow-Origin" := "*"]

  const MissingToken := Response(401, JsonCorsHeaders, Message("Unauthorized request: Missing token"))
  const InvalidToken := Response(403, JsonCorsHeaders, Message("Forbidden: Invalid token"))
  const InvalidMovieId := Response(400, JsonCorsHeaders, Message("Invalid movieId. It must be a valid number."))
  const InvalidBody := Response(400, JsonCorsHeaders, MessageWithSchema("Invalid request body", "MovieReview"))
  const InternalError := Response(500, JsonCorsHeaders, MessageWithException("Internal Server Error"))

  const BearerPrefix := "Bearer "
  const ReviewIdBound := 1000000

  /** generateReviewId: `Math.floor(Math.random() * 1000000)`, given the value `Math.random()` returned. */
  function GenerateReviewId(random: real): (id: int)
    requires 0.0 <= random < 1.0
    ensures 0 <= id < ReviewIdBound
  {
    (random * ReviewIdBound as real).Floor
  }

  /** `event.headers?.Authorization || event.headers?.authorization`. */
  function AuthorizationHeader(headers: Option<StringMap>): (h: Option<string>)
    // the capitalised header wins whenever it is non-empty
    ensures Truthy(Lookup(headers, "Authorization")) ==> h == Lookup(headers, "Authorization")
    ensures !Truthy(Lookup(headers, "Authorization")) ==> h == Lookup(headers, "authorization")
  {
    if Truthy(Lookup(headers, "Authorization")) then Lookup(headers, "Authorization") else Lookup(headers, "authorization")
  }

  /** The token: the header text after `"Bearer "`, when the header starts with that prefix. */
  function BearerToken(headers: Option<StringMap>): (t: Option<string>)
    ensures t.Some? <==> AuthorizationHeader(headers).Some? && BearerPrefix <= AuthorizationHeader(headers).value
    ensures t.Some? ==> AuthorizationHeader(headers) == Some(BearerPrefix + t.value)
  {
    var header := AuthorizationHeader(headers);
    if header.Some? && BearerPrefix <= header.value then
      var token := header.value[|BearerPrefix|..];
      assert header.value == BearerPrefix + token;
      Some(token)
    else None
  }

  /** A header `Bearer <token>` yields exactly that token, and `Authorization` is read before `authorization`. */
  lemma BearerTokenOfHeader(token: string, other: string)
    ensures BearerToken(Some(map["Authorization" := BearerPrefix + token, "authorization" := other])) == Some(token)
  {
    var header := BearerPrefix + token;
    assert BearerPrefix <= header;
    assert header[|BearerPrefix|..] == token;
  }

  /** The outcome of the request checks: the response to return, or what is to be stored. */
  datatype Checked = Reject(response: Response) | Accept(movieId: nat, payload: ReviewUpdatePayload)

  /** A token was presented and its verification did not raise (a falsy result is not rejected). */
  predicate Authenticated(event: RequestEvent, env: Env, rt: Runtime) {
    Truthy(BearerToken(event.headers)) && !rt.verifyToken(BearerToken(event.headers).value, env.userPoolId, env.region).Throws?
  }

  /** `movieId` is present and `Number(movieId)` is not `NaN`. */
  predicate NumericMovieId(event: RequestEvent) {
    Truthy(Lookup(event.pathParameters, "movieId")) && NumberOf(Lookup(event.pathParameters, "movieId").value).Finite?
  }

  /**
   * The checks of lines 19-63, in the source's order: the token, its
   * verification, the movieId path parameter and then the body.
   */
  function CheckRequest(event: RequestEvent, env: Env, rt: Runtime): (c: Checked)
    requires ReviewSchemaTypesFields(rt)
    // an absent or empty token: 401, before anything else
    ensures !Truthy(BearerToken(event.headers)) ==> c == Reject(MissingToken)
    // a verifier that raises: 403, before the path and body are looked at
    ensures (Truthy(BearerToken(event.headers)) && !Authenticated(event, env, rt)) ==> c == Reject(InvalidToken)
    // a missing or non-numeric movieId: 400, before the body is looked at
    ensures (Authenticated(event, env, rt) && !NumericMovieId(event)) ==> c == Reject(InvalidMovieId)
    // a missing body, or one that is falsy or does not match the schema: 400
    ensures (Authenticated(event, env, rt) && NumericMovieId(event) &&
             (!Truthy(event.body) ||
              (rt.parseJson(event.body.value).Some? &&
               (!JsonTruthy(rt.parseJson(event.body.value).value) || !rt.conforms("MovieReview", rt.parseJson(event.body.value).value))))) ==>
            c == Reject(InvalidBody)
    // JSON.parse raises: the outer catch answers 500
    ensures (Authenticated(event, env, rt) && NumericMovieId(event) && Truthy(event.body) &&
             rt.parseJson(event.body.value).None?) ==>
            c == Reject(InternalError)
    // accepted exactly when every check passes
    ensures c.Accept? <==>
      Authenticated(event, env, rt) && NumericMovieId(event) &&
      Truthy(event.body) && rt.parseJson(event.body.value).Some? &&
      JsonTruthy(rt.parseJson(event.body.value).value) && rt.conforms("MovieReview", rt.parseJson(event.body.value).value)
    // success: the number of the movieId parameter, and the body's three fields
    ensures c.Accept? ==>
      Authenticated(event, env, rt) && NumericMovieId(event) &&
      NumberOf(Lookup(event.pathParameters, "movieId").value) == Finite(c.movieId) &&
      Truthy(event.body) && rt.parseJson(event.body.value).Some? &&
      var body := rt.parseJson(event.body.value).value;
      JsonTruthy(body) && rt.conforms("MovieReview", body) &&
      StringField(body, "reviewerId") == Some(c.payload.reviewerId) &&
      StringField(body, "reviewDate") == Some(c.payload.reviewDate) &&
      StringField(body, "content") == Some(c.payload.content)
  {
    var token := BearerToken(event.headers);
    if !Truthy(token) then Reject(MissingToken)
    else if rt.verifyToken(token.value, env.userPoolId, env.region).Throws? then Reject(InvalidToken)
    else
      var movieId := Lookup(event.pathParameters, "movieId");
      if !Truthy(movieId) || NumberOf(movieId.value).NaN? then Reject(InvalidMovieId)
      else if !Truthy(event.body) then Reject(InvalidBody)
      else
        match rt.parseJson(event.body.value)
        // JSON.parse raised: the outer catch answers 500
        case None => Reject(InternalError)
        case Some(body) =>
          if !JsonTruthy(body) || !rt.conforms("MovieReview", body) then Reject(InvalidBody)
          else
            Accept(NumberOf(movieId.value).n,
              ReviewUpdatePayload(StringField(body, "reviewerId").value, StringField(body, "reviewDate").value, StringField(body, "content").value))
  }

  /** The review record of lines 77-83. */
  function NewReview(movieId: nat, reviewId: int, payload: ReviewUpdatePayload): (r: Review)
    ensures KeyOf(r) == Key(movieId, reviewId)
    ensures r.reviewerId == payload.reviewerId && r.reviewDate == payload.reviewDate && r.content == payload.content
    ensures r.translations == None
  {
    Review(movieId, reviewId, payload.reviewerId, payload.reviewDate, payload.content, None)
  }

  /**
   * The add-review `handler`. random: the value `Math.random()` returns;
   * putFails: the table's put raises.
   */
  method Handler(table: ReviewTable, event: RequestEvent, env: Env, rt: Runtime, random: real, putFails: bool)
    returns (resp: Response)
    requires table.Valid()
    requires ReviewSchemaTypesFields(rt)
    requires 0.0 <= random < 1.0
    modifies table
    ensures table.Valid()
    ensures resp.headers == JsonCorsHeaders
    // a rejected request writes nothing
    ensures CheckRequest(event, env, rt).Reject? ==>
      resp == CheckRequest(event, env, rt).response && table.items == old(table.items)
    // no TABLE_NAME, or a put that raises: 500, nothing written
    ensures CheckRequest(event, env, rt).Accept? && (!Truthy(env.tableName) || putFails) ==>
      resp == InternalError && table.items == old(table.items)
    // success: exactly one key is set, to the new record, and its id is reported
    ensures CheckRequest(event, env, rt).Accept? && Truthy(env.tableName) && !putFails ==>
      var c := CheckRequest(event, env, rt);
      var review := NewReview(c.movieId, GenerateReviewId(random), c.payload);
      table.items == old(table.items)[KeyOf(review) := review] &&
      resp == Response(201, JsonCorsHeaders, ReviewAdded("Review added successfully", review.reviewId))
    ensures resp.statusCode == 201 <==> CheckRequest(event, env, rt).Accept? && Truthy(env.tableName) && !putFails
  {
    var c := CheckRequest(event, env, rt);
    if c.Reject? {
      return c.response;
    }
    var reviewId := GenerateReviewId(random);
    if !Truthy(env.tableName) || putFails {
      return InternalError;
    }
    var review := NewReview(c.movieId, reviewId, c.payload);
    table.Put(review);
    resp := Response(201, JsonCorsHeaders, ReviewAdded("Review added successfully", reviewId));
  }
}
