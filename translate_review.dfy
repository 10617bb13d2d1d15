/**
 * lambdas/translateMovieReview.ts: translates a review's content into a
 * requested language, caching each translation inside the review under
 * its language code. A cached entry is current when it was made from the
 * review as of its `reviewDate`.
 */
module TranslateMovieReview {
  import opened Options
  import opened Js
  import opened Types
  import opened Http
  import opened Services
  import opened Tables

  /** The outcome of the parameter checks: the response to return, or the three parameters. */
  datatype Checked = Reject(response: Response) | Accept(movieId: string, reviewId: string, language: string)

  const MissingQueryParameters := Response(400, map[], Message("Missing required parameters: reviewId or language"))
  const MissingParameters := Response(400, map[], Message("Missing required parameters: movieId, reviewId, or language"))
  const ReviewNotFound := Response(404, map[], PlainText("Review not found"))
  const TranslationFailed := Response(500, map[], ErrorText("Could not translate review"))

  /** The checks of the query string and then of the path (lines 19-38). */
  function CheckParameters(event: RequestEvent): (c: Checked)
    ensures c.Accept? <==>
      Truthy(Lookup(event.queryStringParameters, "reviewId")) &&
      Truthy(Lookup(event.queryStringParameters, "language")) &&
      Truthy(Lookup(event.pathParameters, "movieId"))
    ensures c.Accept? ==>
      Lookup(event.pathParameters, "movieId") == Some(c.movieId) &&
      Lookup(event.queryStringParameters, "reviewId") == Some(c.reviewId) &&
      Lookup(event.queryStringParameters, "language") == Some(c.language)
    // the query string is checked first
    ensures !Truthy(Lookup(event.queryStringParameters, "reviewId")) || !Truthy(Lookup(event.queryStringParameters, "language")) ==>
      c == Reject(MissingQueryParameters)
    ensures c.Reject? ==> c.response.statusCode == 400
  {
    var query := event.queryStringParameters;
    if !Truthy(Lookup(query, "reviewId")) || !Truthy(Lookup(query, "language")) then
      Reject(MissingQueryParameters)
    else if !Truthy(Lookup(event.pathParameters, "movieId")) then
      Reject(MissingParameters)
    else
      Accept(Lookup(event.pathParameters, "movieId").value, Lookup(query, "reviewId").value, Lookup(query, "language").value)
  }

  /** `review.translations || {}`. */
  function TranslationsOf(review: Review): map<string, Translation> {
    if review.translations.Some? then review.translations.value else map[]
  }

  /** The cache lookup of line 56: the stored entry for language, when it is current. */
  function CachedEntry(review: Review, language: string): (e: Option<Translation>)
    ensures e.Some? <==> language in TranslationsOf(review) && TranslationsOf(review)[language].lastUpdated == review.reviewDate
    ensures e.Some? ==> e.value == TranslationsOf(review)[language]
  {
    var translations := TranslationsOf(review);
    if language in translations && translations[language].lastUpdated == review.reviewDate then Some(translations[language]) else None
  }

  /** The review after lines 53 and 68-71 have stored a new translation into it. */
  function WithTranslation(review: Review, language: string, text: string): (updated: Review)
    // every field other than the translations is kept, so is the key
    ensures updated.(translations := review.translations) == review
    ensures KeyOf(updated) == KeyOf(review)
    // only this language's entry changes, to the new text dated by reviewDate
    ensures TranslationsOf(updated) == TranslationsOf(review)[language := Translation(text, review.reviewDate)]
  {
    review.(translations := Some(TranslationsOf(review)[language := Translation(text, review.reviewDate)]))
  }

  /** An entry just stored is current: the same request on the stored review is a hit. */
  lemma StoredTranslationIsHit(review: Review, language: string, text: string)
    ensures CachedEntry(WithTranslation(review, language, text), language) == Some(Translation(text, review.reviewDate))
  {
  }

  /** Storing one language's translation leaves every other language's cache answer as it was. */
  lemma WithTranslationKeepsOtherLanguages(review: Review, language: string, text: string, other: string)
    requires other != language
    ensures CachedEntry(WithTranslation(review, language, text), other) == CachedEntry(review, other)
  {
  }

  /**
   * A change of content that keeps `reviewDate` (what updateMovieReview
   * does) leaves every current cached translation current.
   */
  lemma ContentChangeKeepsCache(review: Review, content: string, language: string)
    ensures CachedEntry(review.(content := content), language) == CachedEntry(review, language)
  {
  }

  /** The translate `handler`. getFails, putFails: the table's get or put raises. */
  method Handler(table: ReviewTable, event: RequestEvent, rt: Runtime, getFails: bool, putFails: bool)
    returns (resp: Response)
    requires table.Valid()
    modifies table
    ensures table.Valid()
    // the table changes only when a new translation is created
    ensures resp.statusCode != 201 ==> table.items == old(table.items)
    // invalid parameters: 400 before the table is read
    ensures CheckParameters(event).Reject? ==> resp == CheckParameters(event).response
    ensures CheckParameters(event).Accept? ==>
      var c := CheckParameters(event);
      var k := NumericKey(c.movieId, c.reviewId);
      if k.None? || getFails then resp == TranslationFailed
      else if k.value !in old(table.items) then resp == ReviewNotFound
      else
        var review := old(table.items)[k.value];
        var cached := CachedEntry(review, c.language);
        if cached.Some? then
          // hit: the cached entry, nothing is translated or written
          resp == Response(200, map[], TranslationEntry(cached.value))
        else
          var text := rt.translateText(review.content, "en", c.language);
          if text.None? || putFails then resp == TranslationFailed
          else
            // miss: the entry just stored is returned, and only that review changes
            resp == Response(201, map[], TranslationEntry(Translation(text.value, review.reviewDate))) &&
            table.items == old(table.items)[k.value := WithTranslation(review, c.language, text.value)]
  {
    var c := CheckParameters(event);
    if c.Reject? {
      return c.response;
    }
    var key := NumericKey(c.movieId, c.reviewId);
    if key.None? || getFails {
      return TranslationFailed;
    }
    var found := table.Get(key.value);
    if found.None? {
      return ReviewNotFound;
    }
    var review := found.value;
    review := review.(translations := Some(TranslationsOf(review)));
    var translations := review.translations.value;
    if c.language in translations && translations[c.language].lastUpdated == review.reviewDate {
      return Response(200, map[], TranslationEntry(translations[c.language]));
    }
    var text := rt.translateText(review.content, "en", c.language);
    if text.None? {
      return TranslationFailed;
    }
    review := review.(translations := Some(translations[c.language := Translation(text.value, review.reviewDate)]));
    if putFails {
      return TranslationFailed;
    }
    table.Put(review);
    resp := Response(201, map[], TranslationEntry(review.translations.value[c.language]));
  }

  /**
   * A request that created a translation, repeated on the unchanged table,
   * is answered from the cache with the same entry and writes nothing.
   */
  method RepeatedRequestHits(table: ReviewTable, event: RequestEvent, rt: Runtime, getFails: bool)
    returns (first: Response, second: Response)
    requires table.Valid()
    modifies table
    ensures table.Valid()
    ensures first.statusCode == 201 && !getFails ==> second == first.(statusCode := 200)
    // a created translation is for a stored review ...
    ensures first.statusCode == 201 ==>
      CheckParameters(event).Accept? &&
      NumericKey(CheckParameters(event).movieId, CheckParameters(event).reviewId).Some? &&
      NumericKey(CheckParameters(event).movieId, CheckParameters(event).reviewId).value in old(table.items) &&
      rt.translateText(old(table.items)[NumericKey(CheckParameters(event).movieId, CheckParameters(event).reviewId).value].content,
                       "en", CheckParameters(event).language).Some?
    // ... and the repeated request writes nothing: the table is as the first request left it
    ensures first.statusCode == 201 && !getFails ==>
      var c := CheckParameters(event);
      var k := NumericKey(c.movieId, c.reviewId).value;
      var review := old(table.items)[k];
      table.items == old(table.items)[k := WithTranslation(review, c.language, rt.translateText(review.content, "en", c.language).value)]
  {
    first := Handler(table, event, rt, false, false);
    ghost var created := first.statusCode == 201;
    ghost var c := CheckParameters(event);
    ghost var k := if c.Accept? && NumericKey(c.movieId, c.reviewId).Some? then NumericKey(c.movieId, c.reviewId).value else Key(0, 0);
    ghost var review := if k in old(table.items) then old(table.items)[k] else Review(0, 0, "", "", "", None);
    second := Handler(table, event, rt, getFails, false);
    if created && !getFails {
      StoredTranslationIsHit(review, c.language, rt.translateText(review.content, "en", c.language).value);
    }
  }
}
