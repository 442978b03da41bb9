# GenAI-RAG-App chat backend: a verified model

This project models the two pieces of logic the GenAI-RAG-App backend owns.
Everything else the backend does is delegated to hosted Azure services.

- **`clean_response`** (`api/main.py`) removes citation markers such as
  `[doc1]` or `[1]` from a model answer. It applies
  `re.sub(r'\[.*?\]', '', text)` and then `strip()`. The model writes the
  substitution as a left-to-right scan over `seq<char>`. At each position it
  either deletes a marker (a `[` up to the first `]` on the same line) or
  keeps one character. `strip()` is modelled with Python's `str.isspace`
  character table.
- **The request decisions of the two handlers.**
  - The FastAPI `chat` endpoint (`api/main.py`) answers an empty query with
    a canned reply. Otherwise it asks the completion service, cleans the
    answer, synthesises speech and returns `{response, audio}`.
  - The Azure Functions trigger `main` (`api/__init__.py`) answers CORS
    preflight, serves the chat route through `process_query`, reports
    failures as 500, and answers everything else with 404.

The hosted services are function-typed parameters that return `Result`:
`complete`, `synthesize`, Python's `str` of the audio object, and
`process_query`. Each handler returns the calls it made, in order, next to
its response. So "the service is not called" and "synthesis gets exactly
the cleaned text" are statements about that list.

The system message is the fixed persona instruction of `api/main.py:41`.
Messages carry it as the constructor `Persona`, and `PersonaText` holds its
text. `ContentJson` maps each message content to the JSON value sent to
the completion service. This keeps the long literal out of the proofs.

Python truthiness (`if not user_query`) is `PyJson.Truthy`. The chat route
test (`api/__init__.py:29`) is `AzureFunction.IsChatRoute`. The message
list of `api/main.py:58-61` is `FastApiChat.Prompt`, and `content or ""`
(`api/main.py:91`) is `FastApiChat.ContentText`. These are plain
definitions. The contracts of `Chat`, `Answer`, `ChatBranch` and `Main`
state their effect.

Modules, one file each:

- `Results`: `Option` and `Result`. A failure carries `str(e)`.
- `PyJson`: decoded JSON values, Python truthiness, and `dict.get` with a
  default. On anything other than a dict, `dict.get` raises `AttributeError`.
- `ChatRequest`: decoding the body and reading `query`, which both handlers
  do the same way.
- `PyStrip`: `str.isspace` and `str.strip`.
- `Citations`: the regular-expression substitution and its declarative
  description (`MarkerAt`, `FirstMatch`, `CitationFree`).
- `Sanitizer`: `clean_response`.
- `FastApiChat`: the FastAPI handler.
- `AzureFunction`: the serverless trigger.
- `HandlerAgreement`: how the two handlers relate.

## Model

| member | source | states |
|---|---|---|
| `Citations.RemoveCitations` | api/main.py:47 | The substitution `re.sub(r'\[.*?\]', '', text)`. Its own contract says only that the output is never longer than the input. `RemoveCitationsLeftmostShortest`, `FirstMatchExists` and `RemoveCitationsKeepsFree` pin it down against the regex-style definition `FirstMatch`. `RemoveCitationsFree` and `RemoveCitationsSubsequence` state the properties of the output. |
| `Citations.FirstClose` | api/main.py:47 | The non-greedy `.*?\]` part of the pattern: the result is the first `]` with no line break or other `]` before it. When there is none, every `]` in the text has a line break before it. |
| `Citations.RemoveCitationsFree` | api/main.py:45-47 | After the substitution, no `[` is followed by a `]` on the same line. Every reference such as `[doc1]` or `[1]` is gone. |
| `Citations.RemoveCitationsKeepsFree` | api/main.py:47 | Text with no same-line `[`…`]` pair passes through the substitution unchanged. |
| `Citations.RemoveCitationsFixpoint` | api/main.py:47 | The substitution leaves the text unchanged if and only if the text has no marker. |
| `Citations.FirstMatchExists` | api/main.py:47 | Text that has a marker has a first one: a leftmost `[`, closed by the nearest `]` on its line. |
| `Citations.RemoveCitationsLeftmostShortest` | api/main.py:47 | `re.sub` deletes the first match, keeps the text before it unchanged, and carries on after the match. So matches are deleted left to right, do not overlap, and each ends at the nearest `]`. |
| `Citations.RemoveCitationsSubsequence` | api/main.py:47 | Every output character is an input character, in the input's order. |
| `PyStrip.LeadingSpace` | api/main.py:48 | Counts the whitespace run at the front: everything before it is whitespace, and the character after it is not. |
| `PyStrip.TrailingStart` | api/main.py:48 | Finds where the whitespace run at the end begins: everything after it is whitespace, and the character before it is not. |
| `PyStrip.Strip` | api/main.py:48 | `strip()` returns a part of its input with only whitespace on either side. That part neither starts nor ends with whitespace. It is empty exactly when the input is all whitespace. |
| `PyStrip.StripUnique` | api/main.py:48 | A trimmed part with only whitespace around it is the result of `strip()`. So `strip()` has exactly one possible result. |
| `PyStrip.StripFixpoint` | api/main.py:48 | `strip()` leaves a string unchanged exactly when it has no whitespace at either end. |
| `Sanitizer.CleanResponse` | api/main.py:44-48 | The cleaned answer has no same-line marker and no whitespace at either end. It is a subsequence of the input. The empty string maps to the empty string. Input with no `[` gets plain `strip()`. |
| `Sanitizer.CleanResponseIdempotent` | api/main.py:44-48 | Cleaning twice gives the same result as cleaning once. |
| `Sanitizer.CleanResponseFixpoint` | api/main.py:44-48 | Cleaning changes nothing exactly when the text has no marker and no surrounding whitespace. |
| `Sanitizer.CleanResponseKeepsInnerSpace` | api/main.py:47-48 | `Revenue was €1.2B [doc3].` cleans to `Revenue was €1.2B .`. The space before the marker stays, because only the ends are stripped. |
| `PyJson.GetOr` | api/main.py:53 | `data.get("query", "")` succeeds exactly on a dict. It returns the stored value, or the default when the key is missing. |
| `ChatRequest.QueryOf` | api/main.py:52-53 | A body that does not decode fails with its decoder's message. A body that decodes to a dict yields its `query`, or `""` when `query` is missing. Anything else fails. |
| `FastApiChat.Answer` | api/main.py:58-99 | For a non-empty query the first call is the completion with `[system, user]` messages, where the user content is the query. If the completion raises, that is the only call and its message is the outcome. Otherwise synthesis is called once, with `clean_response(content or "")`. On success, the reply's text is that cleaned text and `audio` is `str` of the synthesis result. The reply has no marker and no surrounding whitespace. |
| `FastApiChat.Chat` | api/main.py:50-99 | A service is called if and only if the query is truthy. A body that does not decode, or is not a dict, fails before any call. A falsy query gets `{"response": "Please enter a question.", "audio": ""}`. A truthy query runs the pipeline. Every successful reply is free of markers and trimmed. |
| `FastApiChat.CannedAnswerIsClean` | api/main.py:55 | The canned answer `Please enter a question.` has no marker and no surrounding whitespace. So every successful reply has the shape `clean_response` produces. |
| `FastApiChat.EmptyQueryShortCircuits` | api/main.py:53-55 | `{"query": ""}` and `{}` both get the canned reply with no service call. |
| `FastApiChat.WhitespaceQueryIsAsked` | api/main.py:54-61 | A query made only of whitespace is not empty. It goes to the completion service verbatim as the user message. |
| `AzureFunction.ChatBranch` | api/__init__.py:29-64 | The chat route always sends `Content-Type: application/json` and `Access-Control-Allow-Origin: *`. A body that does not decode, or is not a dict, gives 500 `{"error": str(e)}`. A falsy query gives 200 with the canned reply and no `process_query` call. A truthy query is passed to `process_query` once. Its result is returned as 200 JSON, or its failure as 500 `{"error": str(e)}`. |
| `AzureFunction.Main` | api/__init__.py:13-69 | The status is always 200, 404 or 500. OPTIONS gets 200 with the three CORS headers and no body, on any route, and calls nothing. Any request that is neither OPTIONS nor a POST to the `chat` route gets 404 `Not found` with no headers. 404 is the only status sent without `Access-Control-Allow-Origin`. |
| `AzureFunction.PreflightIgnoresRoute` | api/__init__.py:17-25 | Every preflight gets the same response, whatever the route and body. Its headers are exactly Allow-Origin, Allow-Methods and Allow-Headers. |
| `HandlerAgreement.ChatRouteAgrees` | api/__init__.py:29-64 | Suppose `process_query` runs the FastAPI pipeline. Then on the chat route the trigger returns 200 with exactly the FastAPI reply, and 500 `{"error": m}` exactly when the FastAPI handler raises with message `m`. Both call the services for the same requests. |

## Left out

- The Azure OpenAI chat and speech calls, Azure AI Search and Semantic
  Kernel (`api/main.py:34-38`, `86-90`; `generator/llm_tts.py`;
  `retriever/azure_search.py`; `api/semantic_kernel_setup.py`). These are
  foreign SDK calls. They appear only as parameters that may fail.
- `process_query` is opaque. The Semantic Kernel version in
  `api/semantic_kernel_setup.py:43-51` does not call `clean_response`. So
  the agreement lemma holds only for a `process_query` that runs the FastAPI
  pipeline, not for that version.
- The retrieval configuration passed as `extra_body` (`api/main.py:63-83`)
  and the `model=` argument. Both are constant configuration, so the model
  passes only the messages to `complete`.
- Reading the environment and building clients (`api/main.py:14`, `26-38`).
  These happen outside any request.
- Static file serving and `GET /` (`api/main.py:18-23`). These are
  framework plumbing with no decision of their own.
- What FastAPI does with an exception that escapes `chat`. The model
  records it as a `Failure` carrying the message, not as the framework's
  HTTP 500 page.
- `json.dumps` and JSON decoding as text. `JsonText(v)` stands for the
  serialised form of `v`. A body that fails to decode carries its
  decoder's message as an opaque string.
- JSON floats are modelled as `real`. Negative zero, NaN, `Infinity`,
  `-Infinity` and rounding are not represented.
- `AzureFunction.ChatBranch`: `json.dumps(result)` (`api/__init__.py:47-48`)
  cannot fail in the model, because `processQuery` returns a `Json` value.
  In the source it can raise on a result that is not serialisable. That
  exception would be caught as a 500 (`api/__init__.py:56-64`). A
  `process_query` whose failure carries the same message gives the same
  response.
- Python strings may hold lone surrogates, but Dafny `char` cannot.
- `IsSpace` follows Python's current `str.isspace` set. It does not track
  changes to that set in later Unicode versions.
- Several imports would fail as shown. `api/main.py:12` imports a
  module-level `synthesize_speech`, but `generator/llm_tts.py` defines it
  only as a method. `api/semantic_kernel_setup.py:10` imports
  `search_retriever`, which `retriever/azure_search.py` does not define.
  The model assumes these names resolve to some service.
- The outer `except` of `main` (`api/__init__.py:68-69`) is unreachable in
  the model. Nothing outside the inner `try` can raise there.
- Async execution and concurrent requests. The handlers share no mutable
  state.
- The React frontend (`frontend/src/App.jsx`), because it is user
  interface.

## Behaviour worth noting

- `audio` is `str(audio)` (`api/main.py:99`). Nothing makes it base64.
  The model keeps `str` abstract.
- `strip()` trims only the ends (`api/main.py:48`). A space left in front
  of a deleted marker stays, so `Revenue was €1.2B [doc3].` cleans to
  `Revenue was €1.2B .`. See `Sanitizer.CleanResponseKeepsInnerSpace`.
- A body that is not valid JSON makes `await request.json()` raise in
  `chat` (`api/main.py:52`). In `main` the same failure is caught and
  answered with 500 (`api/__init__.py:31`, `56-64`). It is not treated as
  an empty query.
- The pattern `\[.*?\]` does not nest (`api/main.py:47`). A match ends at
  the first `]`, so the outer closing bracket of a nested pair stays.
  `.` does not match a line break, so bracketed text that spans a line
  break is kept.
- `if not user_query` tests Python truthiness (`api/main.py:54`,
  `api/__init__.py:34`). Any truthy JSON value, such as a number or a
  list, is sent to the completion service as the user content.
