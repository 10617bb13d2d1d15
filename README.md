# Movie-review API handlers, modelled in Dafny

This project models the AWS Lambda handlers of a serverless movie-review API. They sit behind API Gateway and work on DynamoDB tables:

- a request authorizer that reads a JWT from the `token` cookie;
- handlers that add, update, read, list, translate and delete reviews;
- two movie handlers (read a movie with its cast, delete a movie);
- the shared helpers `generateBatch`, `generateItem` and `createResponse`.

Each handler checks its input in a fixed order and maps each failure to an HTTP status, then runs at most one write. The model states that order, the status and body of every answer, and the exact table contents after each write.

## How the system is modelled

- **Tables.** The review table is the class `Tables.ReviewTable`. Its field `items: map<Key, Review>` is keyed by `(movieId, reviewId)`. The movie table is `Tables.MovieTable`, keyed by the movie's `id` value.
  - Handlers that write (add, update, translate, delete review, delete movie) are methods that modify a table. Their `ensures` give the new contents in terms of the old.
  - Read-only handlers (get by id, get all, movie with cast) are functions of a snapshot of the table, so they cannot change it.
- **Collaborators.** Record `Services.Runtime` holds the functions the handlers call but which are not part of this model; every property holds whatever they do:
  - `parseCookies`;
  - `verifyToken`, whose outcome is raise, a falsy value, or claims;
  - `JSON.parse`, where `None` means it raised;
  - the compiled Ajv schema checks;
  - Amazon Translate.
- **Policies and marshalling.** `createPolicy` is the constructor `Authorizer.CreatePolicy(event, effect)`. `marshall` is a function parameter of `Util.GenerateItem`.
- **Failures and nondeterminism.** A managed-service call that raises is a boolean parameter of the handler (`getFails`, `putFails`, `deleteFails`, …). The value `Math.random()` returned is a real parameter in `[0, 1)`.
- **JavaScript semantics** used by the handlers:
  - truthiness of strings, numbers and JSON values;
  - `Number(s)`: `""` is 0, a digit string is its decimal value, anything else is `NaN`;
  - `parseInt(s)`: the value of the leading digits, or `NaN` when there are none.

  A key that holds `NaN` is refused by DynamoDB, so that call raises.
- **Response bodies.** `Http.Body` holds each object literal a handler serializes, before `JSON.stringify`.

Some behaviours of the authorizer worth knowing:

- Every Deny carries the principal `"unauthorised"`.
- It reads the token only from the `token` cookie; an `Authorization` header is ignored.
- A missing `USER_POOL_ID` or `REGION` gives a Deny for that request; nothing fails at start-up.
- Claims are not checked for an email, so a verified token without one is still allowed.

## Model

| member | source | states |
|---|---|---|
| Util.GenerateBatch | shared/util.ts:7-9 | the batch has the input's length; element i is the put request of entity i, so order is kept |
| Util.GenerateItemRoundTrip | shared/util.ts:11-17 | when `unmarshall` undoes `marshall`, the entity is read back from its put request unchanged |
| Util.GenerateBatchRoundTrip | shared/util.ts:7-17 | when `unmarshall` undoes `marshall`, reading back the batch's items gives the entities, in order |
| Util.GenerateBatchAppend | shared/util.ts:7-9 | the batch of a concatenation is the concatenation of the batches |
| Util.CreateResponse | shared/util.ts:25-38 | status unchanged; headers are exactly the caller's keys plus `Content-Type`; the caller's values win; `application/json` when the caller gives no `Content-Type` |
| Util.CreateResponseDefaultHeaders | shared/util.ts:28-36 | with the default `{}` the only header is `Content-Type: application/json` |
| Authorizer.Handler | lambdas/auth/authorizer.ts:4-55 | the policy is always for the incoming event; Allow exactly when a token cookie exists, both settings are present and verification returned claims; then principal = `sub` and context = `{sub, email}`; every Deny is principal `"unauthorised"` with no context; a missing token, missing settings, a verifier that raises and a falsy result each give Deny |
| Authorizer.NoTokenNeverVerifies | lambdas/auth/authorizer.ts:7-15 | without a token cookie the answer is the same whatever the verifier does, so the verifier is not consulted |
| Authorizer.MissingConfigNeverVerifies | lambdas/auth/authorizer.ts:17-23 | with a setting missing the answer is the same whatever the verifier does |
| Js.DigitPrefix | lambdas/deleteMovieReview.ts:33-34 | the digits parseInt reads form the longest digit prefix of the input |
| Js.ParseInt | lambdas/getMovieReviewById.ts:11-12 | `parseInt(s)` is a number exactly when s starts with a digit |
| Js.ParseIntAgreesWithNumber | lambdas/getMovieReviewById.ts:11-12 | on a non-empty digit string, `parseInt` and `Number` agree |
| Js.ParseIntStopsAtNonDigit | lambdas/deleteMovieReview.ts:33-34 | digits followed by text: `parseInt` gives the digits' value, while `Number` gives NaN |
| Js.DecimalRoundTrip | lambdas/getMovieReviewById.ts:11-12 | the decimal text of n reads back as n under both `Number` and `parseInt` |
| Tables.ReviewTable.Get | lambdas/translateMovieReview.ts:46-50 | the stored review under the key, if any, and a found review carries that key |
| Tables.ReviewTable.Put | lambdas/addMovieReview.ts:87 | the table afterwards is the old one with the item's own key set to the item |
| Tables.ReviewTable.Delete | lambdas/deleteMovieReview.ts:29-37 | the table afterwards is the old one without the key, whether or not it was present |
| Tables.ReviewTable.UpdateContent | lambdas/updateMovieReview.ts:59-73 | on a stored key, only the `content` of that review changes, and the returned attributes are `{Content}` |
| Tables.MovieTable.Delete | lambdas/deleteMovie.ts:38-45 | the movie table afterwards is the old one without that id |
| TranslateMovieReview.CheckParameters | lambdas/translateMovieReview.ts:15-38 | accepted exactly when `reviewId`, `language` and `movieId` are all non-empty; the query string is checked first; a rejection is 400 |
| TranslateMovieReview.WithTranslation | lambdas/translateMovieReview.ts:68-71 | every field but `translations` is kept, and so is the key; only this language's entry changes, to the new text dated `reviewDate` |
| TranslateMovieReview.StoredTranslationIsHit | lambdas/translateMovieReview.ts:56-71 | an entry just stored is a hit for the same language |
| TranslateMovieReview.WithTranslationKeepsOtherLanguages | lambdas/translateMovieReview.ts:68-71 | storing one language leaves the cache answer for every other language unchanged |
| TranslateMovieReview.ContentChangeKeepsCache | lambdas/translateMovieReview.ts:56 | a change of content that keeps `reviewDate` (what the update handler does) leaves every cached entry a hit, so stale translations are served |
| TranslateMovieReview.Handler | lambdas/translateMovieReview.ts:13-91 | 400 before any read; NaN key or read failure gives 500; absent gives 404; hit gives 200 with the entry and no write; a miss translates, stores under the same key with only that review changed, and gives 201 with the entry stored; a translate or write failure gives 500; otherwise the table is unchanged |
| TranslateMovieReview.RepeatedRequestHits | lambdas/translateMovieReview.ts:46-83 | a request that created a translation, repeated, is answered 200 with the same entry and writes nothing: the table is the old one with only that review's new translation |
| AddMovieReview.GenerateReviewId | lambdas/addMovieReview.ts:12 | the id is in `[0, 1000000)` |
| AddMovieReview.BearerToken | lambdas/addMovieReview.ts:19-20 | a token exists exactly when the header starts with `"Bearer "`, and the header is that prefix followed by the token |
| AddMovieReview.BearerTokenOfHeader | lambdas/addMovieReview.ts:19-20 | the header `Bearer t` yields exactly t, and is preferred over the lower-case header |
| AddMovieReview.CheckRequest | lambdas/addMovieReview.ts:18-65 | in order: no token gives 401; a verifier that raises gives 403; a missing or non-numeric movieId gives 400; a missing, falsy or non-conforming body gives 400; a parse failure gives 500; a request is accepted exactly when it passes every one of these checks, and acceptance carries `Number(movieId)` and the body's three string fields |
| AddMovieReview.Handler | lambdas/addMovieReview.ts:14-102 | a rejection writes nothing; a missing `TABLE_NAME` or put failure gives 500 and writes nothing; success sets exactly the new record's key and returns 201 with the stored reviewId; 201 exactly when accepted, configured and written |
| UpdateMovieReview.SourceKeyRefused | lambdas/updateMovieReview.ts:86-93 | the key `{MovieId: {S}, ReviewId: {S}}` is refused by the table for every pair of ids |
| UpdateMovieReview.SchemaKeyIsNumericKey | lambdas/updateMovieReview.ts:86-93 | the schema's key `{movieId: {N}, reviewId: {N}}` selects `(Number(movieId), Number(reviewId))` |
| UpdateMovieReview.CheckRequest | lambdas/updateMovieReview.ts:18-57 | in order: no token gives 401; a verifier that raises gives 500; a falsy result gives 401; missing ids give 400; an unreadable or missing review gives 500, not 404; another author's review gives 403, before the body; then a missing body or a missing or falsy `content` gives 400, and a parse failure 500; a request is accepted exactly when the caller owns the stored review and the body has a truthy `content` |
| UpdateMovieReview.SourceKeyNeverUpdates | lambdas/updateMovieReview.ts:47-51 | with the source's key, every authenticated request with both ids is answered 500, and no request is accepted |
| UpdateMovieReview.SchemaKeyReadsNumericKey | lambdas/updateMovieReview.ts:59-64 | with the schema's key, the updated key is `(Number(movieId), Number(reviewId))` |
| UpdateMovieReview.Handler | lambdas/updateMovieReview.ts:18-83 | a rejection writes nothing; a non-string content or update failure gives 500; success changes only that review's content and returns 200 with `{Content}` |
| GetMovieReviewById.HandlerAsWritten | lambdas/getMovieReviewById.ts:7-110 | every answer carries the JSON content type |
| GetMovieReviewById.Handler | lambdas/getMovieReviewById.ts:7-110 | a missing, NaN or zero movieId gives 404; a read failure gives 500; one review is 200 exactly when its key is stored, else 404; the movie's reviews give 200, or 404 when there are none; whatever is returned is stored and belongs to the movie |
| GetMovieReviewById.MissingReviewIsUnexpectedError | lambdas/getMovieReviewById.ts:49-59 | as written, an unstored reviewId gives 500 "Unexpected error"; as intended, it gives 404 |
| GetMovieReviewById.AsWrittenAgreesElsewhere | lambdas/getMovieReviewById.ts:49-98 | the two versions differ only on a successful get of an unstored key |
| GetMovieReviewById.StoredReviewIsFound | lambdas/getMovieReviewById.ts:11-33 | a stored review with non-zero ids is returned when its ids are written in decimal |
| GetMovieReviewById.ZeroReviewIdQueriesMovie | lambdas/getMovieReviewById.ts:12-26 | reviewId `"0"`, which the add handler can generate, is answered like a request without a reviewId |
| GetAllMovieReviews.Handler | lambdas/getAllMovieReviews.ts:17-71 | OPTIONS gives a 200 preflight with no read; every other answer carries the CORS and JSON headers; a read failure gives 500; an empty selection gives 404; otherwise 200 with a non-empty set of stored reviews by the requested reviewer |
| GetAllMovieReviews.ReviewerListIsFilteredFullList | lambdas/getAllMovieReviews.ts:33-48 | a reviewer's list is the full list filtered by that reviewer |
| GetAllMovieReviews.StoredReviewerIsListed | lambdas/getAllMovieReviews.ts:33-62 | a stored review is always listed for its reviewer, and for the unfiltered list |
| DeleteMovieReview.KeysDeleted | lambdas/deleteMovieReview.ts:15-37 | a request removes at most one key: the `parseInt` key of its two ids, when both are given and neither is NaN |
| DeleteMovieReview.Handler | lambdas/deleteMovieReview.ts:11-56 | a missing id gives 400 and no change; a NaN key or delete failure gives 500 and no change; otherwise 200 and exactly that key is removed, whether or not it was stored |
| DeleteMovieReview.TrailingTextIsIgnored | lambdas/deleteMovieReview.ts:33-34 | ids with trailing text delete the review their leading digits name |
| DeleteMovieReview.DeleteTwice | lambdas/deleteMovieReview.ts:29-45 | deleting twice gives the same answer twice and leaves the table as one deletion does |
| GetMovieByIdWithCast.CastQuery | lambdas/getMovieByIdWithCast.ts:50-60 | exactly the cast rows whose `movieId` is the movie's, never more rows than the table |
| GetMovieByIdWithCast.CastQueryAppend | lambdas/getMovieByIdWithCast.ts:50-60 | querying two runs of rows in turn is querying each |
| GetMovieByIdWithCast.WithCast | lambdas/getMovieByIdWithCast.ts:47-62 | the movie's attributes plus `cast`; the cast replaces an attribute `cast` and every other attribute is kept |
| GetMovieByIdWithCast.Handler | lambdas/getMovieByIdWithCast.ts:10-82 | a missing movieId gives 400; a NaN key or read failure gives 500; an absent movie gives 404; 200 with the movie, plus its cast exactly when `cast` is the text `"true"` |
| GetMovieByIdWithCast.CastExtendsPlainAnswer | lambdas/getMovieByIdWithCast.ts:47-63 | the answer with the cast is the plain answer plus `cast`, holding exactly the movie's cast rows |
| DeleteMovie.CheckBody | lambdas/deleteMovie.ts:14-35 | a missing or falsy body gives 500 "Missing request body"; a parse failure gives 500 with the error; a non-conforming body gives 500 with the schema; acceptance means it parsed, is truthy and conforms |
| DeleteMovie.AbsentSchemaAcceptsTruthyBodies | lambdas/deleteMovie.ts:8 | with no `Movie` definition the validator is built from `{}`, so no body is refused for its shape |
| DeleteMovie.Handler | lambdas/deleteMovie.ts:11-63 | a rejection changes nothing; a body whose `id` is absent or neither a string nor a number, or a delete failure, gives 500; otherwise exactly that id is removed and the answer is 201 "Movie added"; only 201 and 500 occur |

## Findings

| source | as written | input that shows it | evidently intended | confidence | as-written member | corrected member |
|---|---|---|---|---|---|---|
| lambdas/updateMovieReview.ts:86-93 | The get and update use the key `{MovieId: {S: movieId}, ReviewId: {S: reviewId}}`. The table's key schema is `movieId`/`reviewId` of type number (lib/movie-reviews-table.ts:17-18), so the service refuses the key. The ownership test also reads `ReviewerId`, while the stored attribute is `reviewerId`, and the update expression `set Content = :content` (line 65) writes an attribute `Content` beside the `content` every other handler reads. | A valid token cookie, movieId `"1234"`, reviewId `"1"`, with that review stored by the caller: the answer is 500. | Query by `{movieId: {N}, reviewId: {N}}`, read `reviewerId`, and update the owner's review's `content`. | not executed; depends on the service refusing keys that do not match the schema | UpdateMovieReview.SourceKeyNeverUpdates | UpdateMovieReview.Handler |
| lambdas/getMovieReviewById.ts:49-59 | The client omits the `Item` member from a get that matched nothing, so `"Item" in output` is false and `"Items" in output` is false too. The handler then falls through to 500 "Unexpected error". | movieId `"1234"`, reviewId `"99"`, nothing stored under `(1234, 99)`: the answer is 500. | 404 `{Message: "Review not found"}` | not executed; depends on the document client leaving absent output members out | GetMovieReviewById.MissingReviewIsUnexpectedError | GetMovieReviewById.Handler |

## Left out

- Logging, `async`/`await` (calls are sequential), Lambda concurrency and client construction are not modelled. The text of a caught exception is not modelled either: bodies carry its kind, not its message.
- `Math.random` and floating point: `AddMovieReview.GenerateReviewId` takes the random value as a real in `[0, 1)`.
- `Number`/`parseInt` cover digit strings only. Signs, whitespace, decimals, exponents and hexadecimal are not modelled; such input reads as NaN, or as its leading digits.
- JSON numbers are integers only, and property access on arrays and strings (for example `length`) is not modelled.
- `verifyToken`, `parseCookies`, `createPolicy`, `JSON.parse`, Ajv, `marshall` and Amazon Translate stay abstract. They are defined in no source file modelled here.
- `shared/types.schema.json` is not part of this model. `AddMovieReview.CheckRequest` assumes (`ReviewSchemaTypesFields`) only that a body conforming to `MovieReview` has string `reviewerId`, `reviewDate` and `content`.
- Query and scan results are sets (`set<Review>`), so result order and pagination are not modelled. Cast rows are a sequence in table order, and the cast table's sort-key order is not modelled.
- The reviewer-index query is modelled as the index `lib/app-api-stack.ts:33` declares, with partition key `reviewerId`. `lib/movie-reviews-table.ts:26` declares a different index, which would refuse that query.
- For a table name that is unset, or names the wrong table, each call simply fails (the "…Fails" parameter). The one exception is the add handler's explicit `TABLE_NAME` check.
- UpdateMovieReview.Handler: the 500 "Failed to fetch updated attributes" branch (lambdas/updateMovieReview.ts:74-76) is not modelled. An update with `UPDATED_NEW` always returns the attribute it sets. Updating an absent key, which would create an item, cannot happen after the get has found the review.
- Tables.ReviewTable.UpdateContent replaces `content`; the source's expression sets a separate attribute `Content` (lambdas/updateMovieReview.ts:65), which the `Review` record has no field for. The source's key never reaches the update (see Findings), so the model writes the attribute the other handlers read.
- UpdateMovieReview.Handler models the corrected key, not the source's (see Findings). The source's key is modelled by `SourceKey`, and `SourceKeyNeverUpdates` proves what it leads to.
- GetMovieReviewById.Handler answers a missing review 404, as intended (see Findings). `HandlerAsWritten` models the code as written.
- The TypeScript non-null assertions (`sub!`, `email!`, `REGION!`) are not modelled: the claims always carry both strings.
- The `cache` field of `TranslatedReview` (shared/types.d.ts:38-42) is not modelled, because no handler reads or writes it.
- The unused Ajv validators in translateMovieReview.ts and deleteMovieReview.ts are not modelled, because no handler calls them.
- The marshalled form of items (attribute-value maps) is not modelled, except in the update handler's low-level key.
