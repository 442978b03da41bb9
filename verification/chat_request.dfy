/** The part of a chat request both handlers read the same way: the JSON
    body, its `query` field, and the canned answer for an empty query. */
module ChatRequest {
  import opened Results
  import opened PyJson

  /** The body as the framework's JSON decoder sees it: either it raised
      (with its message) or it produced a value. */
  datatype RequestBody = Malformed(reason: string) | Parsed(data: Json)

  /** The answer given, with empty audio, when the query is missing or empty. */
  const EmptyQueryAnswer: string := "Please enter a question."

  /** Decode the body and evaluate `data.get("query", "")`. */
  function QueryOf(body: RequestBody): (r: Result<Json>)
    ensures body.Malformed? ==> r == Failure(body.reason)
    ensures r.Success? <==> body.Parsed? && body.data.Object?
    ensures body.Parsed? && body.data.Object? && "query" in body.data.fields ==> r == Success(body.data.fields["query"])
    ensures body.Parsed? && body.data.Object? && "query" !in body.data.fields ==> r == Success(Str(""))
  {
    match body
    case Malformed(reason) => Failure(reason)
    case Parsed(data) => GetOr(data, "query", Str(""))
  }

  /** True when the body decodes to a dictionary whose query is truthy,
      the only case in which the handlers call a service. */
  predicate HasQuestion(body: RequestBody) {
    QueryOf(body).Success? && Truthy(QueryOf(body).value)
  }
}
