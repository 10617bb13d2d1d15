/**
 * lambdas/getMovieReviewById.ts: reads one review of a movie, when the
 * query string names a reviewId, or every review of the movie otherwise.
 * It reads a snapshot of the review table and changes nothing.
 */
module GetMovieReviewById {
  import opened Options
  import opened Js
  import opened Types
  import opened Http
  import opened Tables

  const JsonHeaders: StringMap := map["content-type" := "application/json"]

  const MissingMovieId := Response(404, JsonHeaders, CapitalMessage("Missing movie Id"))
  const ReviewNotFound := Response(404, JsonHeaders, CapitalMessage("Review not found"))
  const NoReviews := Response(404, JsonHeaders, CapitalMessage("No reviews found for the movie"))
  const UnexpectedError := Response(500, JsonHeaders, CapitalMessage("Unexpected error"))
  const ReadError := Response(500, JsonHeaders, ExceptionMessage)

  /**
   * `p ? parseInt(p) : undefined`. An absent or empty parameter is NaN here:
   * the handler only tests the result for truthiness, and `undefined` and
   * NaN are both falsy.
   */
  function ParsedId(p: Option<string>): (x: JsNumber)
    ensures !Truthy(p) ==> x == NaN
    ensures Truthy(p) ==> x == ParseInt(p.value)
  {
    if Truthy(p) then ParseInt(p.value) else NaN
  }

  function MovieIdOf(event: RequestEvent): JsNumber {
    ParsedId(Lookup(event.pathParameters, "movieId"))
  }

  function ReviewIdOf(event: RequestEvent): JsNumber {
    ParsedId(Lookup(event.queryStringParameters, "reviewId"))
  }

  /** What the handler sends to the table: a get of one key, or a query on the partition key. */
  datatype Read = GetReview(key: Key) | QueryMovie(movieId: nat)

  /** The output of that command: the (possibly absent) item of a get, or the items of a query. */
  datatype ReadOutput = GetOutput(item: Option<Review>) | QueryOutput(items: set<Review>)

  /** The command of lines 26-45: a truthy reviewId selects the get. */
  function ReadFor(event: RequestEvent): (r: Read)
    requires NumberTruthy(MovieIdOf(event))
    ensures NumberTruthy(ReviewIdOf(event)) <==> r.GetReview?
    ensures r.GetReview? ==> r.key == Key(MovieIdOf(event).n, ReviewIdOf(event).n)
    ensures r.QueryMovie? ==> r.movieId == MovieIdOf(event).n
  {
    if NumberTruthy(ReviewIdOf(event)) then GetReview(Key(MovieIdOf(event).n, ReviewIdOf(event).n))
    else QueryMovie(MovieIdOf(event).n)
  }

  /** Running the command on the table contents. */
  function Execute(items: map<Key, Review>, read: Read): (out: ReadOutput)
    ensures read.GetReview? ==> out == GetOutput(if read.key in items then Some(items[read.key]) else None)
    ensures read.QueryMovie? ==> out == QueryOutput(ReviewsOfMovie(items, read.movieId))
  {
    match read
    case GetReview(key) => GetOutput(if key in items then Some(items[key]) else None)
    case QueryMovie(movieId) => QueryOutput(ReviewsOfMovie(items, movieId))
  }

  /**
   * Lines 49-98 as written. The client leaves the `Item` member out of a
   * get's output when nothing matched, so `"Item" in output` holds exactly
   * when an item was found; a query's output always has `Items`. A get that
   * found nothing thus reaches the final 500, not the 404 of lines 51-59.
   */
  function AnswerAsWritten(out: ReadOutput): (r: Response)
    ensures out.GetOutput? && out.item.Some? ==> r == Response(200, JsonHeaders, ReviewData(out.item.value))
    ensures out == GetOutput(None) ==> r == UnexpectedError
    ensures out.QueryOutput? ==> r == (if out.items == {} then NoReviews else Response(200, JsonHeaders, ReviewsData(out.items)))
  {
    match out
    case GetOutput(Some(review)) => Response(200, JsonHeaders, ReviewData(review))
    case GetOutput(None) => UnexpectedError
    case QueryOutput(reviews) => if reviews == {} then NoReviews else Response(200, JsonHeaders, ReviewsData(reviews))
  }

  /** Lines 49-98 as intended: a get that found nothing is answered 404 "Review not found". */
  function Answer(out: ReadOutput): (r: Response)
    ensures out.GetOutput? ==> r == (if out.item.Some? then Response(200, JsonHeaders, ReviewData(out.item.value)) else ReviewNotFound)
    ensures out.QueryOutput? ==> r == (if out.items == {} then NoReviews else Response(200, JsonHeaders, ReviewsData(out.items)))
    // the two differ only on a get that found nothing
    ensures out != GetOutput(None) ==> r == AnswerAsWritten(out)
  {
    if out == GetOutput(None) then ReviewNotFound else AnswerAsWritten(out)
  }

  /** The handler so far as the as-written and intended versions share it, up to the answer to give. */
  datatype Outcome = Early(response: Response) | Answered(out: ReadOutput)

  /** Lines 10-47 and the outer catch: the movieId check, then the read. readFails: the command raises. */
  function Run(event: RequestEvent, items: map<Key, Review>, readFails: bool): (o: Outcome)
    ensures !NumberTruthy(MovieIdOf(event)) ==> o == Early(MissingMovieId)
    ensures NumberTruthy(MovieIdOf(event)) && readFails ==> o == Early(ReadError)
    ensures NumberTruthy(MovieIdOf(event)) && !readFails ==> o == Answered(Execute(items, ReadFor(event)))
  {
    if !NumberTruthy(MovieIdOf(event)) then Early(MissingMovieId)
    else if readFails then Early(ReadError)
    else Answered(Execute(items, ReadFor(event)))
  }

  /** The handler as written. */
  function HandlerAsWritten(event: RequestEvent, items: map<Key, Review>, readFails: bool): (r: Response)
    ensures r.headers == JsonHeaders
  {
    match Run(event, items, readFails)
    case Early(response) => response
    case Answered(out) => AnswerAsWritten(out)
  }

  /** The handler with a missing review answered 404. */
  function Handler(event: RequestEvent, items: map<Key, Review>, readFails: bool): (r: Response)
    ensures r.headers == JsonHeaders
    // a missing, non-numeric or zero movieId: 404, before the table is read
    ensures !NumberTruthy(MovieIdOf(event)) ==> r == MissingMovieId
    ensures NumberTruthy(MovieIdOf(event)) && readFails ==> r == ReadError
    // one review: found exactly when the key (movieId, reviewId) is stored
    ensures NumberTruthy(MovieIdOf(event)) && NumberTruthy(ReviewIdOf(event)) && !readFails ==>
      var key := Key(MovieIdOf(event).n, ReviewIdOf(event).n);
      r == if key in items then Response(200, JsonHeaders, ReviewData(items[key])) else ReviewNotFound
    // every review of the movie, or 404 when it has none
    ensures NumberTruthy(MovieIdOf(event)) && !NumberTruthy(ReviewIdOf(event)) && !readFails ==>
      var reviews := ReviewsOfMovie(items, MovieIdOf(event).n);
      r == if reviews == {} then NoReviews else Response(200, JsonHeaders, ReviewsData(reviews))
    // whatever is returned is stored, and belongs to the requested movie
    ensures r.statusCode == 200 && r.body.ReviewData? ==>
      r.body.item in items.Values && (Keyed(items) ==> r.body.item.movieId == MovieIdOf(event).n)
    ensures r.statusCode == 200 && r.body.ReviewsData? ==>
      forall review :: review in r.body.items ==> review.movieId == MovieIdOf(event).n && review in items.Values
  {
    match Run(event, items, readFails)
    case Early(response) => response
    case Answered(out) => Answer(out)
  }

  /** As written, a reviewId that is not stored is answered 500 "Unexpected error" where 404 was meant. */
  lemma MissingReviewIsUnexpectedError(event: RequestEvent, items: map<Key, Review>)
    requires NumberTruthy(MovieIdOf(event)) && NumberTruthy(ReviewIdOf(event))
    requires Key(MovieIdOf(event).n, ReviewIdOf(event).n) !in items
    ensures HandlerAsWritten(event, items, false) == UnexpectedError
    ensures Handler(event, items, false) == ReviewNotFound
  {
  }

  /** The as-written handler and the intended one agree on every other request. */
  lemma AsWrittenAgreesElsewhere(event: RequestEvent, items: map<Key, Review>, readFails: bool)
    requires HandlerAsWritten(event, items, readFails) != Handler(event, items, readFails)
    ensures !readFails && NumberTruthy(MovieIdOf(event)) && NumberTruthy(ReviewIdOf(event))
    ensures Key(MovieIdOf(event).n, ReviewIdOf(event).n) !in items
  {
  }

  /** A GET request for one movie, with the given path movieId and query reviewId. */
  function GetRequest(movieId: string, reviewId: Option<string>): RequestEvent {
    RequestEvent(Some("GET"), None, Some(map["movieId" := movieId]),
      if reviewId.Some? then Some(map["reviewId" := reviewId.value]) else None, None, "")
  }

  /**
   * A stored review is found by writing its ids in decimal, unless either id
   * is 0: parseInt gives 0, which is falsy.
   */
  lemma {:induction false} StoredReviewIsFound(items: map<Key, Review>, review: Review)
    requires review.movieId > 0 && review.reviewId > 0
    requires KeyOf(review) in items && items[KeyOf(review)] == review
    ensures Handler(GetRequest(Decimal(review.movieId), Some(Decimal(review.reviewId))), items, false) ==
      Response(200, JsonHeaders, ReviewData(review))
  {
    DecimalRoundTrip(review.movieId);
    DecimalRoundTrip(review.reviewId);
  }

  /**
   * The reviewId "0", which the add handler can generate, is falsy once
   * parsed: the request reads every review of the movie instead of that one.
   */
  lemma ZeroReviewIdQueriesMovie(items: map<Key, Review>, movieId: nat)
    requires movieId > 0
    ensures Handler(GetRequest(Decimal(movieId), Some("0")), items, false) ==
      Handler(GetRequest(Decimal(movieId), None), items, false)
  {
    DecimalRoundTrip(movieId);
    DecimalRoundTrip(0);
  }
}
