/**
 * lambdas/getAllMovieReviews.ts: lists the reviews written by one reviewer
 * (a query on the reviewer index) or, without a reviewerId, every review (a
 * scan). It answers CORS preflight requests itself and changes nothing.
 */
module GetAllMovieReviews {
  import opened Options
  import opened Js
  import opened Types
  import opened Http
  import opened Tables

  const CorsHeaders: StringMap := map[
    "Access-Control-Allow-Origin" := "*",
    "Access-Control-Allow-Methods" := "OPTIONS,GET",
    "Access-Control-Allow-Headers" := "Content-Type,Authorization"]

  /** `{...CORS_HEADERS, "content-type": "application/json"}`. */
  const JsonCorsHeaders: StringMap := CorsHeaders["content-type" := "application/json"]

  const Preflight := Response(200, CorsHeaders, Message("Preflight request handled."))
  const NoReviews := Response(404, JsonCorsHeaders, Message("No reviews found"))
  const ReadError := Response(500, JsonCorsHeaders, ExceptionMessage)

  /** The reviews the command returns: a reviewer's, for a truthy reviewerId, else the whole table. */
  function Selected(items: map<Key, Review>, reviewerId: Option<string>): (s: set<Review>)
    ensures s <= items.Values
    ensures Truthy(reviewerId) ==> forall r :: r in s <==> r in items.Values && r.reviewerId == reviewerId.value
    ensures !Truthy(reviewerId) ==> s == items.Values
  {
    if Truthy(reviewerId) then ReviewsByReviewer(items, reviewerId.value) else items.Values
  }

  /** The handler. readFails: the query or scan raises. */
  function Handler(event: RequestEvent, items: map<Key, Review>, readFails: bool): (r: Response)
    // a preflight request is answered without reading the table
    ensures event.httpMethod == Some("OPTIONS") ==> r == Preflight
    ensures event.httpMethod != Some("OPTIONS") ==> r.headers == JsonCorsHeaders
    ensures event.httpMethod != Some("OPTIONS") && readFails ==> r == ReadError
    ensures event.httpMethod != Some("OPTIONS") && !readFails ==>
      var reviews := Selected(items, Lookup(event.queryStringParameters, "reviewerId"));
      r == if reviews == {} then NoReviews else Response(200, JsonCorsHeaders, ReviewsData(reviews))
    // a 200 carries reviews, all stored, and all by the requested reviewer when one was named
    ensures r.statusCode == 200 && r.body.ReviewsData? ==>
      r.body.items != {} && r.body.items <= items.Values &&
      (Truthy(Lookup(event.queryStringParameters, "reviewerId")) ==>
       forall review :: review in r.body.items ==> review.reviewerId == Lookup(event.queryStringParameters, "reviewerId").value)
  {
    if event.httpMethod == Some("OPTIONS") then Preflight
    else if readFails then ReadError
    else
      var reviews := Selected(items, Lookup(event.queryStringParameters, "reviewerId"));
      if reviews == {} then NoReviews else Response(200, JsonCorsHeaders, ReviewsData(reviews))
  }

  /** A reviewer's list is the part of the full list written by that reviewer. */
  lemma ReviewerListIsFilteredFullList(event: RequestEvent, items: map<Key, Review>, reviewerId: string)
    requires event.httpMethod != Some("OPTIONS")
    requires reviewerId != ""
    requires Lookup(event.queryStringParameters, "reviewerId") == Some(reviewerId)
    requires Handler(event, items, false).statusCode == 200
    ensures Handler(event, items, false).body.items ==
      set r | r in Handler(event.(queryStringParameters := None), items, false).body.items && r.reviewerId == reviewerId
  {
  }

  /** A table holding at least one review of the reviewer never answers 404 for them. */
  lemma StoredReviewerIsListed(event: RequestEvent, items: map<Key, Review>, review: Review)
    requires event.httpMethod != Some("OPTIONS")
    requires review in items.Values
    requires Lookup(event.queryStringParameters, "reviewerId") == Some(review.reviewerId) || !Truthy(Lookup(event.queryStringParameters, "reviewerId"))
    ensures Handler(event, items, false).statusCode == 200
    ensures review in Handler(event, items, false).body.items
  {
  }
}
