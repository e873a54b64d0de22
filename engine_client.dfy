/**
 * The part of the search engine's client contract the services use: the structured query
 * language, the requests the services build, and the replies they read. The engine itself is
 * not modelled; every reply is an input of the operation that reads it.
 */
module EngineClient {
  import opened Wrappers
  import opened JavaLang
  import opened Entity

  datatype TextQueryType = BestFields

  /** The value of a term query: the source passes either a string or a boolean. */
  datatype FieldValue = StringValue(s: string) | BoolValue(b: bool)

  /** The query tree: leaf predicates and the boolean conjunction of scoring (`must`) and non-scoring (`filter`) clauses. */
  datatype Query =
    | MultiMatch(text: string, fields: seq<string>, kind: TextQueryType)
    | Range(field: string, gte: Option<Int32>, lte: Option<Int32>)
    | Term(field: string, value: FieldValue)
    | Match(field: string, text: string)
    | MatchAll
    | Bool(must: seq<Query>, filter: seq<Query>)

  datatype SortOrder = Asc | Desc

  datatype SortOptions = FieldSort(field: string, order: SortOrder)

  /** A search request; `None` for `from` or `size` leaves the engine's default in force. */
  datatype SearchRequest = SearchRequest(
    index: string,
    query: Query,
    from: Option<int>,
    size: Option<int>,
    sort: seq<SortOptions>)

  /** An index-document request (single or as one operation of a bulk request). */
  datatype IndexRequest = IndexRequest(index: string, id: string, document: User)

  /** A get-by-id request: the document stored under `id`. */
  datatype GetDocumentRequest = GetDocumentRequest(index: string, id: string)

  /** A delete-by-id request. */
  datatype DeleteDocumentRequest = DeleteDocumentRequest(index: string, id: string)

  /** A count request: the number of documents of `index` that match `query`. */
  datatype CountRequest = CountRequest(index: string, query: Query)

  /** A partial-document update; `fetchSource` asks the engine to return the updated source. */
  datatype UpdateRequest = UpdateRequest(index: string, id: string, doc: User, fetchSource: bool)

  /** The engine's write outcome; `Name()` is the Java constant name the source compares against. */
  datatype WriteResult = Created | Updated | Deleted | NotFound | NoOp {
    function Name(): (n: string)
      ensures n == "Created" <==> this == Created
      ensures n == "Updated" <==> this == Updated
      ensures n == "Deleted" <==> this == Deleted
    {
      match this
      case Created => "Created"
      case Updated => "Updated"
      case Deleted => "Deleted"
      case NotFound => "NotFound"
      case NoOp => "NoOp"
    }
  }

  /** What a round trip to the engine yields: a transport failure (IOException), an error status, or an answer. */
  datatype Reply<+T> = IoFailure(message: string) | ServerError(status: nat) | Answer(value: T)

  /** A search answer: the hit sources in rank order and the total-hits count, which the engine may omit. */
  datatype SearchResponse = SearchResponse(hits: seq<User>, total: Option<nat>)

  /** A bulk answer: whether any item failed (per-item reasons are only logged by the source). */
  datatype BulkResponse = BulkResponse(errors: bool)

  /** An update answer and its inline `get` part, present only when the request asked for the source. */
  datatype UpdateResponse = UpdateResponse(result: WriteResult, get: Option<InlineGet>)

  datatype InlineGet = InlineGet(source: Option<User>)

  /** The engine's side of the update contract: it returns no inline `get` unless asked to. */
  predicate UpdateReplyFits(request: UpdateRequest, reply: Reply<UpdateResponse>) {
    reply.Answer? && !request.fetchSource ==> reply.value.get.None?
  }
}
