/**
 * lambdas/getMovieByIdWithCast.ts: reads one movie and, when the query
 * string says `cast=true`, adds its cast rows under the attribute `cast`.
 * It reads snapshots of the movie and cast tables and changes nothing.
 */
module GetMovieByIdWithCast {
  import opened Options
  import opened Js
  import opened Types
  import opened Http

  const JsonHeaders: StringMap := map["content-type" := "application/json"]

  const MissingMovieId := Response(400, JsonHeaders, Message("Missing movieId parameter"))
  const MovieNotFound := Response(404, JsonHeaders, Message("Movie not found"))
  const ReadError := Response(500, JsonHeaders, ExceptionMessage)

  /** A cast row belongs to the movie when its `movieId` attribute is that number. */
  predicate CastOfMovie(row: Item, movieId: nat) {
    "movieId" in row && row["movieId"] == Num(movieId)
  }

  /** The query on the cast table's partition key: the rows of one movie, in table order. */
  function CastQuery(rows: seq<Item>, movieId: nat): (cast: seq<Item>)
    ensures |cast| <= |rows|
    ensures forall row :: row in cast <==> row in rows && CastOfMovie(row, movieId)
  {
    if rows == [] then []
    else
      var rest := CastQuery(rows[1..], movieId);
      if CastOfMovie(rows[0], movieId) then [rows[0]] + rest else rest
  }

  /** Querying the rows of two tables in turn is querying each. */
  lemma {:induction false} CastQueryAppend(a: seq<Item>, b: seq<Item>, movieId: nat)
    ensures CastQuery(a + b, movieId) == CastQuery(a, movieId) + CastQuery(b, movieId)
  {
    if a != [] {
      assert (a + b)[1..] == a[1..] + b;
      CastQueryAppend(a[1..], b, movieId);
    } else {
      assert a + b == b;
    }
  }

  /** The rows as JSON objects, in order. */
  function Objects(rows: seq<Item>): (js: seq<Json>)
    ensures |js| == |rows|
    ensures forall i :: 0 <= i < |rows| ==> js[i] == Obj(rows[i])
  {
    seq(|rows|, i requires 0 <= i < |rows| => Obj(rows[i]))
  }

  /** `{...movie, cast: castItems}`: the cast replaces any attribute `cast` the movie had. */
  function WithCast(movie: Item, cast: seq<Item>): (m: Item)
    ensures m.Keys == movie.Keys + {"cast"}
    ensures m["cast"] == Arr(Objects(cast))
    ensures forall a :: a in movie && a != "cast" ==> m[a] == movie[a]
  {
    movie["cast" := Arr(Objects(cast))]
  }

  /**
   * The handler. movies: the movie table, keyed by movieId; castRows: the
   * cast table; getFails, castFails: the get or the cast query raises.
   */
  function Handler(event: RequestEvent, movies: map<nat, Item>, castRows: seq<Item>, getFails: bool, castFails: bool): (r: Response)
    ensures r.headers == JsonHeaders
    // a missing or empty movieId: 400, before any read
    ensures !Truthy(Lookup(event.pathParameters, "movieId")) ==> r == MissingMovieId
    ensures Truthy(Lookup(event.pathParameters, "movieId")) ==>
      var id := ParseInt(Lookup(event.pathParameters, "movieId").value);
      // a movieId without leading digits makes the key NaN, which the table rejects
      if id.NaN? || getFails then r == ReadError
      else if id.n !in movies then r == MovieNotFound
      else if Lookup(event.queryStringParameters, "cast") != Some("true") then r == Response(200, JsonHeaders, MovieData(movies[id.n]))
      else if castFails then r == ReadError
      else r == Response(200, JsonHeaders, MovieData(WithCast(movies[id.n], CastQuery(castRows, id.n))))
    // the cast is added exactly when it is asked for with the text "true"
    ensures r.statusCode == 200 && Lookup(event.queryStringParameters, "cast") != Some("true") ==>
      r.body.fields in movies.Values
  {
    var movieId := Lookup(event.pathParameters, "movieId");
    if !Truthy(movieId) then MissingMovieId
    else
      var includeCast := Lookup(event.queryStringParameters, "cast") == Some("true");
      match ParseInt(movieId.value)
      case NaN => ReadError
      case Finite(id) =>
        if getFails then ReadError
        else if id !in movies then MovieNotFound
        else if !includeCast then Response(200, JsonHeaders, MovieData(movies[id]))
        else if castFails then ReadError
        else Response(200, JsonHeaders, MovieData(WithCast(movies[id], CastQuery(castRows, id))))
  }

  /**
   * With the cast, the answer is the plain answer with the attribute `cast`
   * set, and that attribute holds exactly the cast rows of the movie.
   */
  lemma CastExtendsPlainAnswer(event: RequestEvent, movies: map<nat, Item>, castRows: seq<Item>)
    requires Lookup(event.queryStringParameters, "cast") == Some("true")
    requires Handler(event, movies, castRows, false, false).statusCode == 200
    ensures var plain := Handler(event.(queryStringParameters := None), movies, castRows, false, false);
      var full := Handler(event, movies, castRows, false, false);
      var id := ParseInt(Lookup(event.pathParameters, "movieId").value).n;
      plain.statusCode == 200 &&
      full.body.fields == plain.body.fields["cast" := full.body.fields["cast"]] &&
      forall row :: Obj(row) in full.body.fields["cast"].elems <==> row in castRows && CastOfMovie(row, id)
  {
  }
}
