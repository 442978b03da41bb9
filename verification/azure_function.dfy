/** The Azure Functions HTTP trigger `main`: CORS preflight, the chat route,
    and 404 for everything else. */
module AzureFunction {
  import opened Results
  import opened PyJson
  import opened ChatRequest

  datatype HttpRequest = HttpRequest(httpMethod: string, routeParams: map<string, string>, body: RequestBody)

  /** A response body: none, plain text, or `json.dumps` of a value. */
  datatype Payload = NoBody | PlainText(text: string) | JsonText(value: Json)

  datatype HttpResponse = HttpResponse(status: int, payload: Payload, headers: map<string, string>)

  /** The response, and the queries handed to `process_query`, in order. */
  datatype MainRun = MainRun(response: HttpResponse, processed: seq<Json>)

  const AllowOrigin: string := "Access-Control-Allow-Origin"

  const PreflightHeaders: map<string, string> := map[
    AllowOrigin := "*",
    "Access-Control-Allow-Methods" := "GET, POST, OPTIONS",
    "Access-Control-Allow-Headers" := "Content-Type"]

  const JsonHeaders: map<string, string> := map[
    "Content-Type" := "application/json",
    AllowOrigin := "*"]

  /** `{"response": "Please enter a question.", "audio": ""}`. */
  const EmptyQueryJson: Json := Object(map["response" := Str(EmptyQueryAnswer), "audio" := Str("")])

  function ErrorJson(message: string): Json {
    Object(map["error" := Str(message)])
  }

  /** A POST whose route parameter `route` is `chat`; a missing parameter
      compares as `None` and so is not the chat route. */
  predicate IsChatRoute(req: HttpRequest) {
    req.httpMethod == "POST" && "route" in req.routeParams && req.routeParams["route"] == "chat"
  }

  /** The chat branch, whose every failure is caught and reported as 500. */
  function ChatBranch(body: RequestBody, processQuery: Json -> Result<Json>): (run: MainRun)
    ensures run.response.headers == JsonHeaders
    ensures run.processed != [] <==> HasQuestion(body)
    ensures QueryOf(body).Failure? ==> run.response == HttpResponse(500, JsonText(ErrorJson(QueryOf(body).message)), JsonHeaders)
    ensures QueryOf(body).Success? && !HasQuestion(body) ==> run.response == HttpResponse(200, JsonText(EmptyQueryJson), JsonHeaders)
    ensures HasQuestion(body) ==> run.processed == [QueryOf(body).value]
    ensures HasQuestion(body) && processQuery(QueryOf(body).value).Success? ==>
      run.response == HttpResponse(200, JsonText(processQuery(QueryOf(body).value).value), JsonHeaders)
    ensures HasQuestion(body) && processQuery(QueryOf(body).value).Failure? ==>
      run.response == HttpResponse(500, JsonText(ErrorJson(processQuery(QueryOf(body).value).message)), JsonHeaders)
  {
    match QueryOf(body)
    case Failure(e) => MainRun(HttpResponse(500, JsonText(ErrorJson(e)), JsonHeaders), [])
    case Success(query) =>
      if !Truthy(query) then
        MainRun(HttpResponse(200, JsonText(EmptyQueryJson), JsonHeaders), [])
      else
        match processQuery(query)
        case Success(result) => MainRun(HttpResponse(200, JsonText(result), JsonHeaders), [query])
        case Failure(e) => MainRun(HttpResponse(500, JsonText(ErrorJson(e)), JsonHeaders), [query])
  }

  /** The `main` trigger. Nothing outside the inner `try` can raise, so the
      outer handler that answers 500 in plain text is never reached. */
  function Main(req: HttpRequest, processQuery: Json -> Result<Json>): (run: MainRun)
    ensures run.response.status in {200, 404, 500}
    ensures req.httpMethod == "OPTIONS" ==> run == MainRun(HttpResponse(200, NoBody, PreflightHeaders), [])
    ensures req.httpMethod != "OPTIONS" && !IsChatRoute(req) ==> run == MainRun(HttpResponse(404, PlainText("Not found"), map[]), [])
    ensures IsChatRoute(req) ==> run == ChatBranch(req.body, processQuery)
    ensures run.response.status == 404 <==> req.httpMethod != "OPTIONS" && !IsChatRoute(req)
    ensures AllowOrigin in run.response.headers <==> run.response.status != 404
    ensures run.processed != [] ==> IsChatRoute(req) && HasQuestion(req.body)
  {
    if req.httpMethod == "OPTIONS" then
      MainRun(HttpResponse(200, NoBody, PreflightHeaders), [])
    else if IsChatRoute(req) then
      ChatBranch(req.body, processQuery)
    else
      MainRun(HttpResponse(404, PlainText("Not found"), map[]), [])
  }

  /** A preflight is answered the same way on every route and for every
      body, without calling `process_query`. */
  lemma PreflightIgnoresRoute(req: HttpRequest, other: HttpRequest, processQuery: Json -> Result<Json>)
    requires req.httpMethod == "OPTIONS" && other.httpMethod == "OPTIONS"
    ensures Main(req, processQuery) == Main(other, processQuery)
    ensures Main(req, processQuery).response.headers.Keys ==
      {"Access-Control-Allow-Origin", "Access-Control-Allow-Methods", "Access-Control-Allow-Headers"}
  {
  }
}
