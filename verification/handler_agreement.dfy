/** The two transports agree on the chat route when `process_query` runs
    the same pipeline as the FastAPI handler. */
module HandlerAgreement {
  import opened Results
  import opened PyJson
  import opened ChatRequest
  import opened FastApiChat
  import opened AzureFunction

  /** The reply dictionary as a JSON value. */
  function ReplyJson(reply: Reply): Json {
    Object(map["response" := Str(reply.response), "audio" := Str(reply.audio)])
  }

  /** `process_query` implemented by the FastAPI pipeline. */
  function PipelineQuery<A>(svc: Services<A>): Json -> Result<Json> {
    (q: Json) =>
      match Answer(q, svc).outcome
      case Success(reply) => Success(ReplyJson(reply))
      case Failure(e) => Failure(e)
  }

  /** On a POST to the chat route, the serverless trigger answers 200 with
      exactly the reply the FastAPI handler returns, and 500 with
      `{"error": m}` exactly when the FastAPI handler raises with message
      `m`; both call the services for the same requests. */
  lemma ChatRouteAgrees<A>(req: HttpRequest, svc: Services<A>)
    requires IsChatRoute(req)
    ensures var run := Main(req, PipelineQuery(svc));
            var chat := Chat(req.body, svc);
            && (run.processed != [] <==> chat.calls != [])
            && (chat.outcome.Success? ==> run.response == HttpResponse(200, JsonText(ReplyJson(chat.outcome.value)), JsonHeaders))
            && (chat.outcome.Failure? ==> run.response == HttpResponse(500, JsonText(ErrorJson(chat.outcome.message)), JsonHeaders))
  {
  }
}
