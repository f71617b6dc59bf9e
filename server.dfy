/** The `/ask-ai` endpoint of the backend: the validation guards, the
    request sent to the Groq chat-completion API, the normalisation of the
    model's text into `{reasoning, answer}`, the error-to-status
    classification of the catch block and the success payload.
    Express, `fetch` and `JSON.parse` are not modelled; the last two are
    parameters (`Fetch`, `Parser`) standing for the outside world. */
module Server {
  import opened JsStrings
  import opened JsValues

  const MaxPromptLength: nat := 5000
  const CompletionsUrl: string := "https://api.groq.com/openai/v1/chat/completions"
  const ModelName: string := "openai/gpt-oss-20b"
  /** Sent as the JSON number 0.3; never computed with. */
  const Temperature: real := 0.3

  /** The system message, character for character as the template literal
      in `callGroqAPI` produces it (indentation and blank lines included). */
  const SystemInstruction: string :=
    "\n      You are an AI reasoning assistant.\n\n"
    + "      DO NOT reveal private chain-of-thought.\n\n"
    + "      Instead provide a SHORT, HIGH-LEVEL reasoning summary.\n\n"
    + "      Respond ONLY in this JSON format:\n\n"
    + "      {\n"
    + "        \"reasoning\": [\"step 1\", \"step 2\", \"step 3\"],\n"
    + "        \"answer\": \"final answer\"\n"
    + "      }\n"
    + "      "

  const UnstructuredStep: string := "Model returned unstructured output"

  datatype ChatMessage = ChatMessage(role: string, content: string)

  /** The one outbound HTTP request: `POST` to the completions URL with a
      bearer token and the JSON body `{model, messages, temperature}`. */
  datatype GroqRequest = GroqRequest(
    url: string,
    httpMethod: string,
    contentType: string,
    authorization: string,
    model: string,
    messages: seq<ChatMessage>,
    temperature: real)

  /** What `fetch` delivers: a rejection with an Error message (Node's
      `fetch` rejects with "fetch failed" when the host is unreachable), or a
      response with its status and body text. */
  datatype UpstreamReply = NetworkFailure(message: string) | HttpResponse(status: nat, body: string)

  type Fetch = GroqRequest -> UpstreamReply

  /** What `JSON.parse` (and `response.json()`) does with a text: a value,
      or a SyntaxError with its message. */
  datatype Parse = Parsed(value: Json) | SyntaxError(message: string)

  type Parser = string -> Parse

  /** The normalised model output. Both fields are whatever JavaScript
      values the code puts there; nothing coerces them to strings. */
  datatype Normalized = Normalized(reasoning: Val, answer: Val)

  datatype Payload = Payload(reasoning: Val, answer: Val, model: Val, usage: Val)

  /** The HTTP response `/ask-ai` sends: 200 with the payload, or an error
      status with a JSON body `{error, message}`. */
  datatype Response =
    | Success(payload: Payload)
    | Failure(status: nat, error: string, message: string)
  {
    function Status(): nat
    {
      if Success? then 200 else status
    }
  }

  /** How the guards of the handler end: an early response, an Error thrown
      while reading the body, or the request to forward upstream. */
  datatype GateOutcome =
    | Respond(response: Response)
    | Threw(message: string)
    | Forward(request: GroqRequest)

  const InvalidRequest: Response :=
    Failure(400, "Invalid request", "Prompt is required and must be a string")
  const PromptTooLong: Response :=
    Failure(400, "Prompt too long", "Maximum prompt length is 5000 characters")
  const Misconfigured: Response :=
    Failure(500, "Server misconfiguration", "GROQ_API_KEY not set in environment")

  /** `typeof v === 'string'` */
  predicate IsString(v: Val)
  {
    v.J? && v.json.Str?
  }

  /** The environment variable is set to a non-empty string (`!!process.env.GROQ_API_KEY`). */
  predicate KeyConfigured(apiKey: Option<string>)
  {
    apiKey.Some? && apiKey.value != ""
  }

  /** The message of the TypeError V8 raises for `const { prompt } = req.body`
      when the body is `undefined` or `null`. */
  function DestructureError(body: Val): string
  {
    Join(["Cannot", "destructure", "property", "'prompt'", "of", "'req.body'",
          "as", "it", "is", TypeName(body) + "."], ' ')
  }

  /** `const { prompt } = req.body` */
  function ReadPrompt(body: Val): (r: Result<Val>)
    ensures r.Throw? <==> body == Undefined || body == J(Null)
  {
    if body == Undefined || body == J(Null) then Throw(DestructureError(body))
    else Get(body, "prompt")
  }

  /** The request `callGroqAPI(prompt)` sends. */
  function BuildRequest(prompt: string, apiKey: string): GroqRequest
  {
    GroqRequest(CompletionsUrl, "POST", "application/json", "Bearer " + apiKey, ModelName,
                [ChatMessage("system", SystemInstruction), ChatMessage("user", prompt)],
                Temperature)
  }

  /** The three guards of the handler, in source order, each ending the
      request on failure; only when all pass is the upstream request built. */
  function Gate(body: Val, apiKey: Option<string>): GateOutcome
  {
    match ReadPrompt(body)
    case Throw(m) => Threw(m)
    case Ok(prompt) =>
      if !Truthy(prompt) || !IsString(prompt) then Respond(InvalidRequest)
      else if |prompt.json.s| > MaxPromptLength then Respond(PromptTooLong)
      else if !KeyConfigured(apiKey) then Respond(Misconfigured)
      else Forward(BuildRequest(prompt.json.s, apiKey.value))
  }

  /** `response.ok`: a status in the 200 range. */
  predicate IsOk(status: nat)
  {
    200 <= status <= 299
  }

  /** The Error `callGroqAPI` throws for a response that is not ok. */
  function UpstreamError(status: nat, body: string): string
  {
    "Groq API error (" + Decimal(status) + "): " + body
  }

  /** The rest of `callGroqAPI`: throw on a transport failure or a status
      that is not ok, otherwise `response.json()`. */
  function CallGroq(reply: UpstreamReply, parse: Parser): (r: Result<Val>)
    ensures r.Ok? ==> reply.HttpResponse? && IsOk(reply.status) && parse(reply.body).Parsed?
    ensures reply.NetworkFailure? ==> r == Throw(reply.message)
    ensures reply.HttpResponse? && !IsOk(reply.status) ==> r == Throw(UpstreamError(reply.status, reply.body))
    ensures reply.HttpResponse? && IsOk(reply.status) && parse(reply.body).Parsed? ==>
      r == Ok(J(parse(reply.body).value))
    ensures reply.HttpResponse? && IsOk(reply.status) && parse(reply.body).SyntaxError? ==>
      r == Throw(parse(reply.body).message)
  {
    match reply
    case NetworkFailure(m) => Throw(m)
    case HttpResponse(status, body) =>
      if !IsOk(status) then Throw(UpstreamError(status, body))
      else match parse(body)
        case Parsed(j) => Ok(J(j))
        case SyntaxError(m) => Throw(m)
  }

  /** The fixed result of `parseReasoning`'s catch block. */
  function Fallback(text: Val): Normalized
  {
    Normalized(J(Arr([Str(UnstructuredStep)])), text)
  }

  /** The `try` block of `parseReasoning`: `JSON.parse(text)` (which first
      converts `text` to a string, and can throw doing so) and the two
      property reads with their `||` defaults. */
  function TryNormalize(text: Val, parse: Parser): Result<Normalized>
  {
    var source :- ToString(text);
    match parse(source)
    case SyntaxError(m) => Throw(m)
    case Parsed(j) =>
      match (Get(J(j), "reasoning"), Get(J(j), "answer"))
      case (Ok(reasoning), Ok(answer)) => Ok(Normalized(Or(reasoning, J(Arr([]))), Or(answer, text)))
      case (Throw(m), _) => Throw(m)
      case (_, Throw(m)) => Throw(m)
  }

  /** `parseReasoning(text)`: never throws; any Error inside the `try`
      block gives the fallback. */
  function ParseReasoning(text: Val, parse: Parser): (n: Normalized)
    ensures Truthy(n.reasoning)
    ensures Truthy(n.answer) || n.answer == text
  {
    match TryNormalize(text, parse)
    case Ok(n) => n
    case Throw(_) => Fallback(text)
  }

  /** The catch block of the handler: the status is chosen by substring
      tests on the message, "Groq API" first, then "fetch". */
  function Classify(message: string): (r: Response)
    ensures r.Failure?
    ensures r.status == 502 <==> exists i :: OccursAt(message, "Groq API", i)
    ensures r.status == 503 <==>
      (!exists i :: OccursAt(message, "Groq API", i)) && exists i :: OccursAt(message, "fetch", i)
    ensures r.status == 503 || r.message == message
    ensures r.status == 502 ==> r.error == "External API error"
    ensures r.status == 503 ==> r.error == "Network error" && r.message == "Could not connect to Groq API"
    ensures r.status == 500 ==> r.error == "Internal server error"
    ensures r.status in {500, 502, 503}
  {
    if Includes(message, "Groq API") then Failure(502, "External API error", message)
    else if Includes(message, "fetch") then Failure(503, "Network error", "Could not connect to Groq API")
    else Failure(500, "Internal server error", message)
  }

  /** `groq.choices[0].message.content`, read one property at a time. */
  function Content(groq: Val): Result<Val>
  {
    var choices :- Get(groq, "choices");
    var first :- Index(choices, 0);
    var message :- Get(first, "message");
    Get(message, "content")
  }

  /** After the guards: call upstream, read `choices[0].message.content`,
      normalise it and assemble the payload with `model` and `usage`. */
  function Complete(reply: UpstreamReply, parse: Parser): Result<Response>
  {
    var groq :- CallGroq(reply, parse);
    var fullText :- Content(groq);
    var n := ParseReasoning(fullText, parse);
    match (Get(groq, "model"), Get(groq, "usage"))
    case (Ok(model), Ok(usage)) => Ok(Success(Payload(n.reasoning, n.answer, model, usage)))
    case (Throw(m), _) => Throw(m)
    case (_, Throw(m)) => Throw(m)
  }

  /** The handler's `catch`: an Error thrown anywhere in the `try` block
      becomes the classified error response. */
  function Settle(attempt: Result<Response>): Response
  {
    match attempt
    case Ok(r) => r
    case Throw(m) => Classify(m)
  }

  /** The whole `/ask-ai` handler: the body it is given, the API key in the
      environment, the upstream service and the JSON parser. */
  function HandleAsk(body: Val, apiKey: Option<string>, fetch: Fetch, parse: Parser): Response
  {
    match Gate(body, apiKey)
    case Respond(r) => r
    case Threw(m) => Classify(m)
    case Forward(request) => Settle(Complete(fetch(request), parse))
  }
}
