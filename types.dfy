/** The records of shared/types.d.ts, as the review table stores them. */
module Types {
  import opened Options
  import opened Js

  /** One cached translation of a review's content. */
  datatype Translation = Translation(content: string, lastUpdated: string)

  /**
   * A movie review (`MovieReview`, `TranslatedReview`); `translations`
   * maps a language code to the cached translation into that language.
   */
  datatype Review = Review(
    movieId: int,
    reviewId: int,
    reviewerId: string,
    reviewDate: string,
    content: string,
    translations: Option<map<string, Translation>>)

  /** The review table's primary key: partition key movieId, sort key reviewId. */
  datatype Key = Key(movieId: int, reviewId: int)

  function KeyOf(r: Review): Key {
    Key(r.movieId, r.reviewId)
  }

  /** `{movieId: Number(movieId), reviewId: Number(reviewId)}`; `None` when either is `NaN`, which the table rejects. */
  function NumericKey(movieId: string, reviewId: string): (k: Option<Key>)
    ensures k.Some? <==> NumberOf(movieId).Finite? && NumberOf(reviewId).Finite?
    ensures k.Some? ==> k.value == Key(NumberOf(movieId).n, NumberOf(reviewId).n)
  {
    match (NumberOf(movieId), NumberOf(reviewId))
    case (Finite(m), Finite(r)) => Some(Key(m, r))
    case _ => None
  }

  /** `ReviewUpdatePayload`: the fields a client supplies for a review. */
  datatype ReviewUpdatePayload = ReviewUpdatePayload(reviewerId: string, reviewDate: string, content: string)

  /** An untyped item: a movie, a cast row, or a marshalled entity. */
  type Item = map<string, Json>
}
