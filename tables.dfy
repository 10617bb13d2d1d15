/**
 * The DynamoDB tables, as the handlers see them: one map per table, from
 * primary key to stored item. Each call that the source makes through the
 * document client is a method here; reads that return several items are
 * functions of the table contents.
 */
module Tables {
  import opened Options
  import opened Js
  import opened Types

  /** An attribute value in the low-level client's notation: `{S: text}` or `{N: digits}`. */
  datatype AttributeValue = S(s: string) | N(n: string)

  /**
   * The review table's key-schema check on a low-level key: the key must
   * name exactly the attributes movieId and reviewId, both of type number.
   * `None` is the validation error the service raises otherwise.
   */
  function TableKey(key: map<string, AttributeValue>): (k: Option<Key>)
    ensures k.Some? <==>
      key.Keys == {"movieId", "reviewId"} && key["movieId"].N? && key["reviewId"].N? &&
      NumberOf(key["movieId"].n).Finite? && NumberOf(key["reviewId"].n).Finite?
    ensures k.Some? ==> k.value == Key(NumberOf(key["movieId"].n).n, NumberOf(key["reviewId"].n).n)
  {
    if key.Keys == {"movieId", "reviewId"} && key["movieId"].N? && key["reviewId"].N? then
      match (NumberOf(key["movieId"].n), NumberOf(key["reviewId"].n))
      case (Finite(m), Finite(r)) => Some(Key(m, r))
      case _ => None
    else None
  }

  /** Every review is stored under the key made of its own movieId and reviewId. */
  predicate Keyed(items: map<Key, Review>) {
    forall k :: k in items ==> KeyOf(items[k]) == k
  }

  /** The movie-review table: reviews keyed by (movieId, reviewId). */
  class ReviewTable {
    var items: map<Key, Review>

    /** Every review is stored under the key made of its own movieId and reviewId. */
    ghost predicate Valid()
      reads this
    {
      Keyed(items)
    }

    constructor ()
      ensures Valid() && items == map[]
    {
      items := map[];
    }

    /** `GetCommand` / `GetItemCommand` on one key. */
    method Get(key: Key) returns (r: Option<Review>)
      requires Valid()
      ensures r == (if key in items then Some(items[key]) else None)
      ensures r.Some? ==> KeyOf(r.value) == key
    {
      r := if key in items then Some(items[key]) else None;
    }

    /** `PutCommand`: stores item under its own key, replacing any review already there. */
    method Put(item: Review)
      requires Valid()
      modifies this
      ensures Valid()
      ensures items == old(items)[KeyOf(item) := item]
    {
      items := items[KeyOf(item) := item];
    }

    /** `DeleteCommand`: removes the key; deleting an absent key succeeds and changes nothing. */
    method Delete(key: Key)
      requires Valid()
      modifies this
      ensures Valid()
      ensures items == old(items) - {key}
    {
      items := items - {key};
    }

    /**
     * `UpdateItemCommand` with `set Content = :content` and `ReturnValues:
     * UPDATED_NEW`, on a stored review: replaces its content only, and
     * returns the attribute it set.
     */
    method UpdateContent(key: Key, content: string) returns (attributes: map<string, string>)
      requires Valid()
      requires key in items
      modifies this
      ensures Valid()
      ensures items == old(items)[key := old(items)[key].(content := content)]
      ensures attributes == map["Content" := content]
    {
      items := items[key := items[key].(content := content)];
      attributes := map["Content" := content];
    }
  }

  /** `QueryCommand` on the partition key: the reviews of one movie. */
  function ReviewsOfMovie(items: map<Key, Review>, movieId: int): (s: set<Review>)
    ensures forall r :: r in s <==> r in items.Values && r.movieId == movieId
  {
    set r | r in items.Values && r.movieId == movieId
  }

  /** `QueryCommand` on the reviewer index: the reviews written by one reviewer. */
  function ReviewsByReviewer(items: map<Key, Review>, reviewerId: string): (s: set<Review>)
    ensures forall r :: r in s <==> r in items.Values && r.reviewerId == reviewerId
  {
    set r | r in items.Values && r.reviewerId == reviewerId
  }

  /** The movie table that `deleteMovie` writes to: movies keyed by their `id` attribute. */
  class MovieTable {
    var items: map<Json, Item>

    constructor ()
      ensures items == map[]
    {
      items := map[];
    }

    /** `DeleteCommand` on `{id}`. */
    method Delete(id: Json)
      modifies this
      ensures items == old(items) - {id}
    {
      items := items - {id};
    }
  }
}
