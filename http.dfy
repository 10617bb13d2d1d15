/** API Gateway events and the responses the handlers return. */
module Http {
  import opened Options
  import opened Js
  import opened Types

  type StringMap = map<string, string>

  /**
   * The fields of an API Gateway event that the handlers read. `methodArn`
   * is set only on authorizer events; `httpMethod` only on REST-style events.
   */
  datatype RequestEvent = RequestEvent(
    httpMethod: Option<string>,
    headers: Option<StringMap>,
    pathParameters: Option<StringMap>,
    queryStringParameters: Option<StringMap>,
    body: Option<string>,
    methodArn: string)

  /** Optional chaining `m?.name` on a string map that may be absent. */
  function Lookup(m: Option<StringMap>, name: string): (v: Option<string>)
    ensures v.Some? <==> m.Some? && name in m.value
    ensures v.Some? ==> v.value == m.value[name]
  {
    if m.Some? && name in m.value then Some(m.value[name]) else None
  }

  /**
   * A response body before `JSON.stringify`. Each alternative names the
   * object literal a handler serializes; the text of a caught exception
   * (`error.message`) is not modelled.
   */
  datatype Body =
    | Message(message: string)                      // {message}
    | CapitalMessage(message: string)               // {Message}
    | ErrorText(error: string)                      // {error} with a fixed text
    | ExceptionMessage                              // {error: error.message}
    | ExceptionObject                               // {error}, the caught value itself
    | MessageWithException(message: string)         // {message, error: error.message}
    | MessageWithSchema(message: string, schema: string) // {message, schema: schema.definitions[schema]}
    | PlainText(text: string)                       // a body that is not JSON-encoded
    | ReviewAdded(message: string, reviewId: int)   // {message, reviewId}
    | ReviewUpdated(message: string, updatedAttributes: StringMap) // {message, updatedAttributes}
    | TranslationEntry(entry: Translation)          // a cached or created translation
    | ReviewData(item: Review)                      // {data: Item}
    | ReviewsData(items: set<Review>)               // {data: Items}
    | MovieData(fields: Item)                       // a movie's attributes
    | Payload(value: Json)                          // an arbitrary serialized value

  datatype Response = Response(statusCode: int, headers: StringMap, body: Body)
}
