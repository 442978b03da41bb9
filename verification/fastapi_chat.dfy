/** The FastAPI `chat` endpoint: empty-query short-circuit, then
    completion, `clean_response` and speech synthesis in sequence. */
module FastApiChat {
  import opened Results
  import opened PyJson
  import opened ChatRequest
  import opened Citations
  import opened PyStrip
  import opened Sanitizer

  /** The text of the fixed persona and scope instruction sent ahead of every
      query; messages carry it as `Persona`. */
  function PersonaText(): string {
    "As a PSI 20 expert, answer questions using context from companies' annual reports. Prioritize financial metrics (e.g., revenue, EBITDA), operations, and risks. Be precise, use data from reports, and note any limitations (e.g., 'Based on 2023 data'). Keep responses engaging for speech. Decline unrelated topics: 'My knowledge is limited to PSI 20 reports.'"
  }

  /** Message content: the persona instruction, or a decoded JSON value. */
  datatype Content = Persona | Value(value: Json)

  /** The `content` field of a message as it appears in the completion request. */
  function ContentJson(c: Content): Json {
    match c
    case Persona => Str(PersonaText())
    case Value(v) => v
  }

  /** One chat message; the user's content is the query exactly as decoded. */
  datatype Message = Message(role: string, content: Content)

  /** The `{"response": ..., "audio": ...}` dictionary the endpoint returns. */
  datatype Reply = Reply(response: string, audio: string)

  /** The hosted services, as seen from the handler. `complete` yields the
      first choice's message content (None when absent) or raises;
      `synthesize` yields an audio object or raises; `str` is Python's
      `str()` of that object. */
  datatype Services<!A> = Services(
    complete: seq<Message> -> Result<Option<string>>,
    synthesize: string -> Result<A>,
    str: A -> string)

  /** A call made to a hosted service, with its argument. */
  datatype ServiceCall = CompletionCall(prompt: seq<Message>) | SynthesisCall(text: string)

  /** What one request produced: the reply or the exception that escaped the
      handler, and the service calls made on the way, in order. */
  datatype ChatRun = ChatRun(outcome: Result<Reply>, calls: seq<ServiceCall>)

  function Prompt(query: Json): seq<Message> {
    [Message("system", Persona), Message("user", Value(query))]
  }

  /** `content or ""`. */
  function ContentText(content: Option<string>): string {
    match content
    case None => ""
    case Some(c) => c
  }

  /** The pipeline behind a non-empty query: completion, cleaning, synthesis. */
  function Answer<A>(query: Json, svc: Services<A>): (run: ChatRun)
    ensures |run.calls| in {1, 2}
    ensures run.calls[0] == CompletionCall(Prompt(query))
    ensures |run.calls| == 2 <==> svc.complete(Prompt(query)).Success?
    ensures |run.calls| == 2 ==>
      run.calls[1] == SynthesisCall(CleanResponse(ContentText(svc.complete(Prompt(query)).value)))
    ensures run.outcome.Success? ==> |run.calls| == 2 && run.calls[1] == SynthesisCall(run.outcome.value.response)
    ensures run.outcome.Success? ==>
      run.outcome.value.response == CleanResponse(ContentText(svc.complete(Prompt(query)).value))
    ensures run.outcome.Success? ==> CitationFree(run.outcome.value.response) && Trimmed(run.outcome.value.response)
    ensures run.outcome.Success? ==>
      && svc.synthesize(run.outcome.value.response).Success?
      && run.outcome.value.audio == svc.str(svc.synthesize(run.outcome.value.response).value)
    ensures |run.calls| == 1 ==> run.outcome == Failure(svc.complete(Prompt(query)).message)
    ensures |run.calls| == 2 && run.outcome.Failure? ==> svc.synthesize(run.calls[1].text) == Failure(run.outcome.message)
  {
    var prompt := Prompt(query);
    match svc.complete(prompt)
    case Failure(e) => ChatRun(Failure(e), [CompletionCall(prompt)])
    case Success(content) =>
      var text := CleanResponse(ContentText(content));
      var calls := [CompletionCall(prompt), SynthesisCall(text)];
      match svc.synthesize(text)
      case Failure(e) => ChatRun(Failure(e), calls)
      case Success(audio) => ChatRun(Success(Reply(text, svc.str(audio))), calls)
  }

  /** The `chat` handler. A body that does not decode, or decodes to
      something other than a dictionary, raises before any service call. */
  function Chat<A>(body: RequestBody, svc: Services<A>): (run: ChatRun)
    ensures run.calls != [] <==> HasQuestion(body)
    ensures QueryOf(body).Failure? ==> run.outcome == Failure(QueryOf(body).message)
    ensures QueryOf(body).Success? && !HasQuestion(body) ==> run.outcome == Success(Reply(EmptyQueryAnswer, ""))
    ensures HasQuestion(body) ==> run == Answer(QueryOf(body).value, svc)
    ensures run.outcome.Success? ==> CitationFree(run.outcome.value.response) && Trimmed(run.outcome.value.response)
  {
    CannedAnswerIsClean();
    match QueryOf(body)
    case Failure(e) => ChatRun(Failure(e), [])
    case Success(query) =>
      if !Truthy(query) then ChatRun(Success(Reply(EmptyQueryAnswer, "")), [])
      else Answer(query, svc)
  }

  /** The canned answer already has the shape `clean_response` produces. */
  lemma CannedAnswerIsClean()
    ensures CitationFree(EmptyQueryAnswer) && Trimmed(EmptyQueryAnswer)
  {
  }

  /** The body `{"query": q}` for a string `q`. */
  function QueryBody(q: string): RequestBody {
    Parsed(Object(map["query" := Str(q)]))
  }

  /** A missing or empty query gets the canned answer and calls nothing. */
  lemma EmptyQueryShortCircuits<A>(svc: Services<A>)
    ensures Chat(QueryBody(""), svc) == ChatRun(Success(Reply("Please enter a question.", "")), [])
    ensures Chat(Parsed(Object(map[])), svc) == ChatRun(Success(Reply("Please enter a question.", "")), [])
  {
  }

  /** Only falsy values short-circuit: a query of spaces goes to the model
      verbatim. */
  lemma WhitespaceQueryIsAsked<A>(q: string, svc: Services<A>)
    requires |q| > 0 && AllSpace(q)
    ensures Chat(QueryBody(q), svc).calls[0] == CompletionCall([Message("system", Persona), Message("user", Value(Str(q)))])
  {
    assert QueryOf(QueryBody(q)) == Success(Str(q));
  }
}
