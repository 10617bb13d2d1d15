/**
 * lambdas/deleteMovieReview.ts: deletes the review named by the movieId and
 * reviewId path parameters. Both ids are read with `parseInt(id, 10)`.
 */
module DeleteMovieReview {
  import opened Options
  import opened Js
  import opened Types
  import opened Http
  import opened Tables

  const JsonHeaders: StringMap := map["content-type" := "application/json"]

  const MissingIds := Response(400, JsonHeaders, Message("Missing movieId or reviewId"))
  const Deleted := Response(200, JsonHeaders, Message("Review deleted successfully"))
  const DeleteError := Response(500, JsonHeaders, ExceptionMessage)

  /**
   * The key of lines 32-35; `None` when either id has no leading digits, so
   * that parseInt gives NaN, which the table rejects.
   */
  function DeleteKey(movieId: string, reviewId: string): (k: Option<Key>)
    ensures k.Some? <==> ParseInt(movieId).Finite? && ParseInt(reviewId).Finite?
    ensures k.Some? ==> k.value == Key(ParseInt(movieId).n, ParseInt(reviewId).n)
  {
    match (ParseInt(movieId), ParseInt(reviewId))
    case (Finite(m), Finite(r)) => Some(Key(m, r))
    case _ => None
  }

  /** The keys a request that does not fail removes: its key, or none when it is answered before the delete. */
  function KeysDeleted(event: RequestEvent): (ks: set<Key>)
    ensures |ks| <= 1
    // the parsed key of the two ids, when both are given and neither parses to NaN
    ensures forall k :: k in ks <==>
      Truthy(Lookup(event.pathParameters, "movieId")) && Truthy(Lookup(event.pathParameters, "reviewId")) &&
      DeleteKey(Lookup(event.pathParameters, "movieId").value, Lookup(event.pathParameters, "reviewId").value) == Some(k)
  {
    var movieId := Lookup(event.pathParameters, "movieId");
    var reviewId := Lookup(event.pathParameters, "reviewId");
    if Truthy(movieId) && Truthy(reviewId) && DeleteKey(movieId.value, reviewId.value).Some? then
      {DeleteKey(movieId.value, reviewId.value).value}
    else {}
  }

  /** The handler. deleteFails: the delete raises. */
  method Handler(table: ReviewTable, event: RequestEvent, deleteFails: bool) returns (resp: Response)
    requires table.Valid()
    modifies table
    ensures table.Valid()
    ensures resp.headers == JsonHeaders
    ensures resp.statusCode != 200 ==> table.items == old(table.items)
    ensures !deleteFails ==> table.items == old(table.items) - KeysDeleted(event)
    // a missing or empty id: 400, nothing deleted
    ensures !Truthy(Lookup(event.pathParameters, "movieId")) || !Truthy(Lookup(event.pathParameters, "reviewId")) ==>
      resp == MissingIds
    ensures Truthy(Lookup(event.pathParameters, "movieId")) && Truthy(Lookup(event.pathParameters, "reviewId")) ==>
      var k := DeleteKey(Lookup(event.pathParameters, "movieId").value, Lookup(event.pathParameters, "reviewId").value);
      if k.None? || deleteFails then resp == DeleteError
      // the key is gone and nothing else changes, whether or not a review was stored there
      else resp == Deleted && table.items == old(table.items) - {k.value}
  {
    var movieId := Lookup(event.pathParameters, "movieId");
    var reviewId := Lookup(event.pathParameters, "reviewId");
    if !Truthy(movieId) || !Truthy(reviewId) {
      return MissingIds;
    }
    var key := DeleteKey(movieId.value, reviewId.value);
    if key.None? || deleteFails {
      return DeleteError;
    }
    table.Delete(key.value);
    resp := Deleted;
  }

  /** An id with trailing text deletes the review named by its leading digits. */
  lemma TrailingTextIsIgnored(movieId: string, reviewId: string, suffix: string)
    requires movieId != [] && AllDigits(movieId) && reviewId != [] && AllDigits(reviewId)
    requires suffix != [] && !IsDigit(suffix[0])
    ensures DeleteKey(movieId + suffix, reviewId + suffix) == Some(Key(DecimalValue(movieId), DecimalValue(reviewId)))
    ensures DeleteKey(movieId + suffix, reviewId + suffix) == DeleteKey(movieId, reviewId)
  {
    ParseIntStopsAtNonDigit(movieId, suffix);
    ParseIntStopsAtNonDigit(reviewId, suffix);
    ParseIntAgreesWithNumber(movieId);
    ParseIntAgreesWithNumber(reviewId);
  }

  /**
   * Deleting is idempotent: the same request a second time succeeds again
   * and leaves the table as the first left it.
   */
  method DeleteTwice(table: ReviewTable, event: RequestEvent) returns (first: Response, second: Response)
    requires table.Valid()
    modifies table
    ensures table.Valid()
    ensures second == first
    // the table is as one request leaves it
    ensures table.items == old(table.items) - KeysDeleted(event)
  {
    first := Handler(table, event, false);
    second := Handler(table, event, false);
  }
}
