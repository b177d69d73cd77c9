/** The request/response contract of `ChatApp.sendToAPI`: what is sent
    (the history conversion and the request body) and how the settled HTTP
    exchange is turned into `{error}` or `{message, quickReplyOptions}`.
    `fetch` itself is not modelled: its settlement is an `HttpOutcome` value. */
module ChatApi {
  import opened JsText

  /** `null`/`undefined` versus a present value. */
  datatype Option<+T> = None | Some(value: T)

  /** A chat message as the class handles it: `type` is `'user'` or
      `'assistant'`, `message` the text, plus the quick replies shown with it. */
  datatype Message = Message(kind: string, text: string, quickReplies: seq<string>)

  /** One `{role, content}` pair of `chat_history`. */
  datatype HistoryEntry = HistoryEntry(role: string, content: string)

  /** The JSON body posted to the chat endpoint. */
  datatype ChatRequest = ChatRequest(message: string, chatHistory: seq<HistoryEntry>, language: string)

  /** A response body as `response.json()` sees it: not JSON at all, the JSON
      value `null` (reading a member of it throws), or a value whose `detail`,
      `answer` and `quick_reply_options` members may be missing (`None`, which
      also stands for a member that is `null`; a JSON number, string or array
      has none of them). */
  datatype Body =
    | Unparsable
    | JsonNull
    | Json(detail: Option<string>, answer: Option<string>, quickReplyOptions: Option<seq<string>>)

  /** How the `fetch` call settled: it rejected (network unreachable, CORS, ...),
      or a response with an HTTP status and a body arrived. */
  datatype HttpOutcome = TransportFailure | Response(status: nat, body: Body)

  /** What `sendToAPI` resolves to. */
  datatype ApiResult =
    | Failed(error: string)
    | Answered(message: string, quickReplyOptions: seq<string>)

  const ConnectionError: string := "Connection error occurred. Please try again."
  const ServerErrorPrefix: string := "Server error: "

  /** `response.ok`: a status in the 200-299 range. */
  predicate IsOk(status: nat) {
    200 <= status <= 299
  }

  /** The role one message takes in `chat_history`. */
  function RoleOf(m: Message): (role: string)
    ensures role == "user" <==> m.kind == "user"
    ensures role == "user" || role == "assistant"
  {
    if m.kind == "user" then "user" else "assistant"
  }

  /** `this.messages.map(msg => ({role, content}))`. */
  function ToHistory(ms: seq<Message>): (h: seq<HistoryEntry>)
    ensures |h| == |ms|
    ensures forall i :: 0 <= i < |ms| ==>
              h[i].content == ms[i].text && (h[i].role == "user" <==> ms[i].kind == "user")
              && (h[i].role == "user" || h[i].role == "assistant")
  {
    seq(|ms|, i requires 0 <= i < |ms| => HistoryEntry(RoleOf(ms[i]), ms[i].text))
  }

  /** The conversion works message by message, so it distributes over concatenation. */
  lemma HistoryOfConcat(a: seq<Message>, b: seq<Message>)
    ensures ToHistory(a + b) == ToHistory(a) + ToHistory(b)
  {
  }

  /** The error text of a non-ok response: `errorData.detail || \`Server error: ${status}\``.
      A missing or unparsable body, and an empty `detail`, give the status message. */
  function ServerError(status: nat, body: Body): (e: string)
    ensures e != []
    ensures body.Json? && body.detail.Some? && body.detail.value != [] ==> e == body.detail.value
    ensures !(body.Json? && body.detail.Some? && body.detail.value != []) ==>
              e == ServerErrorPrefix + Decimal(status)
  {
    var detail := if body.Json? then body.detail else None;
    if detail.Some? && detail.value != [] then detail.value else ServerErrorPrefix + Decimal(status)
  }

  /** A synthesized server error names the status it came from: the digits
      after the prefix read back as that status. */
  lemma ServerErrorNamesStatus(status: nat)
    ensures var e := ServerError(status, Unparsable);
            |e| > |ServerErrorPrefix| && e[..|ServerErrorPrefix|] == ServerErrorPrefix
            && (forall i :: |ServerErrorPrefix| <= i < |e| ==> IsDigit(e[i]))
            && DecimalValue(e[|ServerErrorPrefix|..]) == status
  {
    var e := ServerError(status, Unparsable);
    assert e[|ServerErrorPrefix|..] == Decimal(status);
    DecimalRoundTrip(status);
  }

  /** The body of `sendToAPI` after the request is built. */
  function Classify(outcome: HttpOutcome): (r: ApiResult)
    ensures r.Failed? ==> r.error != []
    ensures outcome.TransportFailure? ==> r == Failed(ConnectionError)
    ensures outcome.Response? && outcome.body.JsonNull? ==> r == Failed(ConnectionError)
    ensures outcome.Response? && !IsOk(outcome.status) && !outcome.body.JsonNull? ==>
              r == Failed(ServerError(outcome.status, outcome.body))
    ensures outcome.Response? && IsOk(outcome.status) && outcome.body.Unparsable? ==>
              r == Failed(ConnectionError)
    ensures outcome.Response? && IsOk(outcome.status) && outcome.body.Json? ==>
              r.Answered?
              && (r.message == if outcome.body.answer.Some? then outcome.body.answer.value else "")
              && (r.quickReplyOptions == if outcome.body.quickReplyOptions.Some?
                                         then outcome.body.quickReplyOptions.value else [])
  {
    match outcome
    case TransportFailure => Failed(ConnectionError)
    case Response(status, body) =>
      if body.JsonNull? then Failed(ConnectionError)
      else if !IsOk(status) then Failed(ServerError(status, body))
      else match body
        case Unparsable => Failed(ConnectionError)
        case Json(_, answer, options) =>
          Answered(if answer.Some? then answer.value else "",
                   if options.Some? then options.value else [])
  }

  /** A result is a failure exactly when the exchange did not deliver a parsable,
      non-null 2xx body; the caller's truthiness test on `error` therefore agrees with it. */
  lemma ClassifyFailsIff(outcome: HttpOutcome)
    ensures Classify(outcome).Failed? <==>
              outcome.TransportFailure? || !IsOk(outcome.status)
              || outcome.body.Unparsable? || outcome.body.JsonNull?
  {
  }

  /** Five sample exchanges: a 200 answer with two quick replies, a 500 with a
      `detail`, a 500 with no body, a 500 whose body is `null`, and a rejected `fetch`. */
  lemma ClassifyExamples()
    ensures Classify(Response(200, Json(None, Some("hi"), Some(["a", "b"])))) == Answered("hi", ["a", "b"])
    ensures Classify(Response(500, Json(Some("boom"), None, None))) == Failed("boom")
    ensures Classify(Response(500, Unparsable)) == Failed("Server error: 500")
    ensures Classify(Response(500, JsonNull)) == Failed("Connection error occurred. Please try again.")
    ensures Classify(TransportFailure) == Failed("Connection error occurred. Please try again.")
  {
  }
}
