/**
 * lambdas/updateMovieReview.ts: replaces the content of a review. The
 * caller authenticates with the `token` cookie and must be the review's
 * author.
 */
module UpdateMovieReview {
  import opened Options
  import opened Js
  import opened Types
  import opened Http
  import opened Services
  import opened Tables

  const JsonCorsHeaders: StringMap := map["Content-Type" := "application/json", "Access-Control-Allow-Origin" := "*"]

  /** The file's own createResponse: every response carries the JSON and CORS headers. */
  function CreateResponse(statusCode: int, body: Body): (r: Response)
    ensures r.statusCode == statusCode && r.body == body
    ensures r.headers.Keys == {"Content-Type", "Access-Control-Allow-Origin"}
    ensures r.headers["Content-Type"] == "application/json" && r.headers["Access-Control-Allow-Origin"] == "*"
  {
    Response(statusCode, JsonCorsHeaders, body)
  }

  const NoToken := CreateResponse(401, Message("Unauthorized: No token provided"))
  const InvalidToken := CreateResponse(401, Message("Unauthorized: Invalid token"))
  const MissingIds := CreateResponse(400, Message("Bad Request: Missing review or movie ID"))
  const NotOwner := CreateResponse(403, Message("Forbidden: You cannot update this review"))
  const MissingContent := CreateResponse(400, Message("Bad Request: Missing content field"))
  const InternalError := CreateResponse(500, Message("Internal Server Error"))

  /** The low-level key the source builds, `{MovieId: {S: movieId}, ReviewId: {S: reviewId}}`. */
  function SourceKey(movieId: string, reviewId: string): map<string, AttributeValue> {
    map["MovieId" := S(movieId), "ReviewId" := S(reviewId)]
  }

  /** The key the table's schema asks for, `{movieId: {N: movieId}, reviewId: {N: reviewId}}`. */
  function SchemaKey(movieId: string, reviewId: string): map<string, AttributeValue> {
    map["movieId" := N(movieId), "reviewId" := N(reviewId)]
  }

  /** The source's key names neither key attribute, so the table refuses it whatever the ids. */
  lemma SourceKeyRefused(movieId: string, reviewId: string)
    ensures TableKey(SourceKey(movieId, reviewId)) == None
  {
  }

  /** The schema key selects the same review as the document client's `{movieId: Number(..), reviewId: Number(..)}`. */
  lemma SchemaKeyIsNumericKey(movieId: string, reviewId: string)
    ensures TableKey(SchemaKey(movieId, reviewId)) == NumericKey(movieId, reviewId)
  {
  }

  /**
   * getMovieReview: the stored review under the given low-level key; `None`
   * when the get raises (getFails, or a key the table's schema refuses) or
   * finds no item, both of which make the helper throw.
   */
  function GetMovieReview(items: map<Key, Review>, key: map<string, AttributeValue>, getFails: bool): (r: Option<Review>)
    ensures r.Some? <==> !getFails && TableKey(key).Some? && TableKey(key).value in items
    ensures r.Some? ==> r.value == items[TableKey(key).value]
  {
    var k := TableKey(key);
    if getFails || k.None? || k.value !in items then None else Some(items[k.value])
  }

  /** The outcome of the request checks: the response to return, or the key and the new content. */
  datatype Checked = Reject(response: Response) | Accept(key: Key, content: Json)

  /** The caller's claims: the token cookie is present and `verifyToken` resolved to claims. */
  function VerifiedCaller(event: RequestEvent, env: Env, rt: Runtime): (claims: Option<JwtClaims>)
    ensures claims.Some? <==>
      TokenCookie(rt.parseCookies(event)).Some? &&
      rt.verifyToken(TokenCookie(rt.parseCookies(event)).value, env.userPoolId, env.region).Verified?
    ensures claims.Some? ==>
      claims.value == rt.verifyToken(TokenCookie(rt.parseCookies(event)).value, env.userPoolId, env.region).claims
  {
    var token := TokenCookie(rt.parseCookies(event));
    if token.None? then None
    else match rt.verifyToken(token.value, env.userPoolId, env.region)
      case Verified(claims) => Some(claims)
      case _ => None
  }

  /** Both id path parameters are present and non-empty. */
  predicate HasIds(event: RequestEvent) {
    Truthy(Lookup(event.pathParameters, "reviewId")) && Truthy(Lookup(event.pathParameters, "movieId"))
  }

  /** The id path parameters, once HasIds holds. */
  function MovieIdOf(event: RequestEvent): string
    requires HasIds(event)
  {
    Lookup(event.pathParameters, "movieId").value
  }

  function ReviewIdOf(event: RequestEvent): string
    requires HasIds(event)
  {
    Lookup(event.pathParameters, "reviewId").value
  }

  /** The caller is verified, both ids are given, and the review read under keyFor's key is the caller's. */
  predicate OwnsReview(event: RequestEvent, env: Env, rt: Runtime, items: map<Key, Review>, getFails: bool,
                       keyFor: (string, string) -> map<string, AttributeValue>)
  {
    VerifiedCaller(event, env, rt).Some? && HasIds(event) &&
    var review := GetMovieReview(items, keyFor(MovieIdOf(event), ReviewIdOf(event)), getFails);
    review.Some? && review.value.reviewerId == VerifiedCaller(event, env, rt).value.sub
  }

  /** The body is present, parses, and its `content` field is present and truthy. */
  predicate HasContent(event: RequestEvent, rt: Runtime) {
    Truthy(event.body) && rt.parseJson(event.body.value).Some? &&
    Field(rt.parseJson(event.body.value).value, "content").Some? &&
    JsonTruthy(Field(rt.parseJson(event.body.value).value, "content").value)
  }

  /**
   * The checks of lines 21-57, in the source's order: cookie, verification,
   * ids, the stored review, ownership, and then the body. keyFor builds the
   * low-level key from the movieId and reviewId parameters; getFails: the
   * table's get raises.
   */
  function CheckRequest(event: RequestEvent, env: Env, rt: Runtime, items: map<Key, Review>, getFails: bool,
                        keyFor: (string, string) -> map<string, AttributeValue>): (c: Checked)
    // no token cookie: 401
    ensures TokenCookie(rt.parseCookies(event)).None? ==> c == Reject(NoToken)
    // a verifier that raises is caught by the outer handler: 500
    ensures (TokenCookie(rt.parseCookies(event)).Some? &&
             rt.verifyToken(TokenCookie(rt.parseCookies(event)).value, env.userPoolId, env.region).Throws?) ==>
            c == Reject(InternalError)
    // a falsy verification result: 401
    ensures (TokenCookie(rt.parseCookies(event)).Some? &&
             rt.verifyToken(TokenCookie(rt.parseCookies(event)).value, env.userPoolId, env.region).Falsy?) ==>
            c == Reject(InvalidToken)
    // a missing id: 400, before the table is read
    ensures VerifiedCaller(event, env, rt).Some? && !HasIds(event) ==> c == Reject(MissingIds)
    // a review that cannot be read, including one that does not exist: 500, not 404
    ensures (VerifiedCaller(event, env, rt).Some? && HasIds(event) &&
             GetMovieReview(items, keyFor(MovieIdOf(event), ReviewIdOf(event)), getFails).None?) ==>
            c == Reject(InternalError)
    // someone else's review: 403, before the body is looked at
    ensures (VerifiedCaller(event, env, rt).Some? && HasIds(event) &&
             var review := GetMovieReview(items, keyFor(MovieIdOf(event), ReviewIdOf(event)), getFails);
             review.Some? && review.value.reviewerId != VerifiedCaller(event, env, rt).value.sub) ==>
            c == Reject(NotOwner)
    // the owner without a body, or with a falsy content field: 400
    ensures (OwnsReview(event, env, rt, items, getFails, keyFor) &&
             (!Truthy(event.body) ||
              (rt.parseJson(event.body.value).Some? &&
               (Field(rt.parseJson(event.body.value).value, "content").None? ||
                !JsonTruthy(Field(rt.parseJson(event.body.value).value, "content").value))))) ==>
            c == Reject(MissingContent)
    // JSON.parse raises: the outer catch answers 500
    ensures (OwnsReview(event, env, rt, items, getFails, keyFor) && Truthy(event.body) &&
             rt.parseJson(event.body.value).None?) ==>
            c == Reject(InternalError)
    ensures c.Reject? ==> c.response.statusCode in {400, 401, 403, 500}
    // accepted exactly when the caller owns the stored review and sends a content
    ensures OwnsReview(event, env, rt, items, getFails, keyFor) && HasContent(event, rt) ==> c.Accept?
    ensures c.Accept? ==> OwnsReview(event, env, rt, items, getFails, keyFor) && HasContent(event, rt)
    // success: the caller owns the stored review and the body has a truthy content field
    ensures c.Accept? ==>
      VerifiedCaller(event, env, rt).Some? && HasIds(event) && !getFails &&
      TableKey(keyFor(MovieIdOf(event), ReviewIdOf(event))) == Some(c.key) &&
      c.key in items && items[c.key].reviewerId == VerifiedCaller(event, env, rt).value.sub &&
      Truthy(event.body) && rt.parseJson(event.body.value).Some? &&
      Field(rt.parseJson(event.body.value).value, "content") == Some(c.content) && JsonTruthy(c.content)
  {
    var token := TokenCookie(rt.parseCookies(event));
    if token.None? then Reject(NoToken)
    else match rt.verifyToken(token.value, env.userPoolId, env.region)
      case Throws => Reject(InternalError)
      case Falsy => Reject(InvalidToken)
      case Verified(claims) =>
        if !HasIds(event) then Reject(MissingIds)
        else
          var key := keyFor(MovieIdOf(event), ReviewIdOf(event));
          match GetMovieReview(items, key, getFails)
          case None => Reject(InternalError)
          case Some(review) =>
            if review.reviewerId != claims.sub then Reject(NotOwner)
            else if !Truthy(event.body) then Reject(MissingContent)
            else match rt.parseJson(event.body.value)
              // JSON.parse raised: caught by the outer handler
              case None => Reject(InternalError)
              case Some(body) =>
                var content := Field(body, "content");
                if content.None? || !JsonTruthy(content.value) then Reject(MissingContent)
                else Accept(TableKey(key).value, content.value)
  }

  /**
   * As written, every request that passes authentication and carries both
   * ids is answered 500 and reaches neither the ownership check nor the
   * update: the source's key is refused by the table.
   */
  lemma SourceKeyNeverUpdates(event: RequestEvent, env: Env, rt: Runtime, items: map<Key, Review>, getFails: bool)
    ensures CheckRequest(event, env, rt, items, getFails, SourceKey).Reject?
    ensures VerifiedCaller(event, env, rt).Some? && HasIds(event) ==>
      CheckRequest(event, env, rt, items, getFails, SourceKey) == Reject(InternalError)
  {
  }

  /** With the schema's key, the check reads exactly the review `Number(movieId)`, `Number(reviewId)`. */
  lemma SchemaKeyReadsNumericKey(event: RequestEvent, env: Env, rt: Runtime, items: map<Key, Review>, getFails: bool)
    ensures CheckRequest(event, env, rt, items, getFails, SchemaKey).Accept? ==>
      Some(CheckRequest(event, env, rt, items, getFails, SchemaKey).key) == NumericKey(MovieIdOf(event), ReviewIdOf(event))
  {
  }

  /**
   * The `updateMovieReview` handler, with the key the table's schema asks
   * for (SchemaKey) in place of the source's (SourceKey). getFails,
   * updateFails: the table's get or update raises. A content that is not a
   * string cannot be sent as the string attribute `{S: content}`, so its
   * update raises too.
   */
  method Handler(table: ReviewTable, event: RequestEvent, env: Env, rt: Runtime, getFails: bool, updateFails: bool)
    returns (resp: Response)
    requires table.Valid()
    modifies table
    ensures table.Valid()
    ensures resp.headers == JsonCorsHeaders
    ensures resp.statusCode != 200 ==> table.items == old(table.items)
    ensures CheckRequest(event, env, rt, old(table.items), getFails, SchemaKey).Reject? ==>
      resp == CheckRequest(event, env, rt, old(table.items), getFails, SchemaKey).response
    ensures CheckRequest(event, env, rt, old(table.items), getFails, SchemaKey).Accept? ==>
      var c := CheckRequest(event, env, rt, old(table.items), getFails, SchemaKey);
      if !c.content.Str? || updateFails then resp == InternalError
      else
        // only the content of that one review changes
        table.items == old(table.items)[c.key := old(table.items)[c.key].(content := c.content.s)] &&
        resp == CreateResponse(200, ReviewUpdated("Review updated successfully", map["Content" := c.content.s]))
  {
    var c := CheckRequest(event, env, rt, table.items, getFails, SchemaKey);
    if c.Reject? {
      return c.response;
    }
    if !c.content.Str? || updateFails {
      return InternalError;
    }
    var attributes := table.UpdateContent(c.key, c.content.s);
    resp := CreateResponse(200, ReviewUpdated("Review updated successfully", attributes));
  }
}
