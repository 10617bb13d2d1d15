/** shared/util.ts: batch-write requests for seeding, and the standard response builder. */
module Util {
  import opened Js
  import opened Types
  import opened Http

  /** One element of a `BatchWriteItem` request. */
  datatype WriteRequest = PutRequest(item: Item)

  /** `marshall(entity, {convertClassInstanceToMap: true})`, left abstract. */
  type Marshaller = Review -> Item

  /** generateItem: a put request for the marshalled entity. */
  function GenerateItem(marshall: Marshaller, entity: Review): (w: WriteRequest)
    ensures w.PutRequest? && w.item == marshall(entity)
  {
    PutRequest(marshall(entity))
  }

  /** generateBatch: one put request per entity, in the entities' order. */
  function GenerateBatch(marshall: Marshaller, data: seq<Review>): (batch: seq<WriteRequest>)
    ensures |batch| == |data|
    ensures forall i :: 0 <= i < |data| ==> batch[i] == GenerateItem(marshall, data[i])
  {
    if data == [] then [] else [GenerateItem(marshall, data[0])] + GenerateBatch(marshall, data[1..])
  }

  /** `unmarshall`, the inverse the document client applies when it reads an item back, left abstract. */
  type Unmarshaller = Item -> Review

  /** When unmarshall undoes marshall, the entity is read back from its put request. */
  lemma GenerateItemRoundTrip(marshall: Marshaller, unmarshall: Unmarshaller, entity: Review)
    requires forall e :: unmarshall(marshall(e)) == e
    ensures unmarshall(GenerateItem(marshall, entity).item) == entity
  {
  }

  /** When unmarshall undoes marshall, reading back the batch gives the entities, in order. */
  lemma GenerateBatchRoundTrip(marshall: Marshaller, unmarshall: Unmarshaller, data: seq<Review>)
    requires forall e :: unmarshall(marshall(e)) == e
    ensures seq(|data|, i requires 0 <= i < |data| => unmarshall(GenerateBatch(marshall, data)[i].item)) == data
  {
    var back := seq(|data|, i requires 0 <= i < |data| => unmarshall(GenerateBatch(marshall, data)[i].item));
    forall i | 0 <= i < |data|
      ensures back[i] == data[i]
    {
      assert back[i] == unmarshall(GenerateBatch(marshall, data)[i].item);
      assert GenerateBatch(marshall, data)[i] == GenerateItem(marshall, data[i]);
      GenerateItemRoundTrip(marshall, unmarshall, data[i]);
    }
  }

  /** The batch of a concatenation is the concatenation of the batches. */
  lemma GenerateBatchAppend(marshall: Marshaller, a: seq<Review>, b: seq<Review>)
    ensures GenerateBatch(marshall, a + b) == GenerateBatch(marshall, a) + GenerateBatch(marshall, b)
  {
  }

  const ContentType := "Content-Type"
  const ApplicationJson := "application/json"

  /**
   * createResponse(statusCode, body, headers = {}): the status as given,
   * the serialized body, and the caller's headers over a default
   * `Content-Type: application/json`.
   */
  function CreateResponse(statusCode: int, body: Json, headers: StringMap): (r: Response)
    ensures r.statusCode == statusCode
    ensures r.body == Payload(body)
    ensures r.headers.Keys == headers.Keys + {ContentType}
    ensures forall k :: k in headers ==> r.headers[k] == headers[k]
    ensures ContentType !in headers ==> r.headers[ContentType] == ApplicationJson
  {
    Response(statusCode, map[ContentType := ApplicationJson] + headers, Payload(body))
  }

  /** With the default `headers = {}`, `Content-Type: application/json` is the only header. */
  lemma CreateResponseDefaultHeaders(statusCode: int, body: Json)
    ensures CreateResponse(statusCode, body, map[]).headers == map[ContentType := ApplicationJson]
  {
  }
}
