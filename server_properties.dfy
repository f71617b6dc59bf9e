/** What the `/ask-ai` handler guarantees, stated over the model in
    `Server`: the order of its guards, the request it forwards, the
    behaviour of `parseReasoning`, the classification of Errors and the
    payload it returns. */
module ServerProperties {
  import opened JsStrings
  import opened JsValues
  import opened Server

  /** The prompt as the handler sees it: a non-empty string. */
  predicate NonEmptyStringPrompt(p: Val)
  {
    IsString(p) && p.json.s != ""
  }

  /** An own property of a JSON object, or `undefined`. */
  function Field(fields: map<string, Json>, key: string): Val
  {
    if key in fields then J(fields[key]) else Undefined
  }

  // ---------------------------------------------------------------- guards

  /** A prompt that is missing, not a string, or empty is answered 400
      "Invalid request" whatever the API key, and nothing is forwarded;
      every other readable prompt gets past this first guard. */
  lemma InvalidPromptRejected(body: Val, apiKey: Option<string>)
    requires ReadPrompt(body).Ok?
    ensures (Gate(body, apiKey) == Respond(InvalidRequest))
              <==> !NonEmptyStringPrompt(ReadPrompt(body).value)
  {
  }

  /** For a JSON object body, 400 "Invalid request" means exactly that the
      `prompt` field is absent, not a string, or "". */
  lemma InvalidPromptField(fields: map<string, Json>, apiKey: Option<string>)
    ensures (Gate(J(Obj(fields)), apiKey) == Respond(InvalidRequest))
              <==> !("prompt" in fields && fields["prompt"].Str? && fields["prompt"].s != "")
  {
  }

  /** An array, string, number or boolean body has no `prompt`. */
  lemma NonObjectBodyRejected(j: Json, apiKey: Option<string>)
    requires !j.Obj? && !j.Null?
    ensures Gate(J(j), apiKey) == Respond(InvalidRequest)
  {
  }

  /** A non-empty string prompt is refused as too long exactly when it has
      more than 5000 UTF-16 code units; the key is not looked at first. */
  lemma LengthLimit(body: Val, s: string, apiKey: Option<string>)
    requires ReadPrompt(body) == Ok(J(Str(s))) && s != ""
    ensures Gate(body, apiKey) == Respond(PromptTooLong) <==> |s| > MaxPromptLength
  {
  }

  /** Every prompt of 1 to 5000 code units is forwarded whatever it holds:
      one of exactly 5000 units passes, so the bound is inclusive, and one
      of blanks only passes, since nothing is trimmed. */
  lemma BoundaryAndBlankPromptsPass(fields: map<string, Json>, key: string, s: string)
    requires key != ""
    requires 0 < |s| <= MaxPromptLength && fields == map["prompt" := Str(s)]
    ensures Gate(J(Obj(fields)), Some(key)) == Forward(BuildRequest(s, key))
  {
  }

  /** The API key is checked last: a missing or empty key gives 500
      "Server misconfiguration" exactly when the prompt passed both checks,
      so a bad prompt without a key is still a 400; either way nothing is
      forwarded. */
  lemma KeyCheckedLast(body: Val, apiKey: Option<string>)
    requires ReadPrompt(body).Ok? && !KeyConfigured(apiKey)
    ensures !Gate(body, apiKey).Forward?
    ensures (Gate(body, apiKey) == Respond(Misconfigured))
              <==> NonEmptyStringPrompt(ReadPrompt(body).value)
                   && |ReadPrompt(body).value.json.s| <= MaxPromptLength
    ensures !NonEmptyStringPrompt(ReadPrompt(body).value) ==> Gate(body, apiKey).response.Status() == 400
  {
  }

  /** The handler forwards exactly when all three guards pass, and the
      request then carries two messages: the fixed system instruction, then
      the prompt verbatim as the user message, authorised with the key. */
  lemma ForwardedRequest(body: Val, apiKey: Option<string>)
    ensures (Gate(body, apiKey).Forward?)
              <==> (ReadPrompt(body).Ok? && NonEmptyStringPrompt(ReadPrompt(body).value)
                   && |ReadPrompt(body).value.json.s| <= MaxPromptLength && KeyConfigured(apiKey))
    ensures Gate(body, apiKey).Forward? ==>
      var request := Gate(body, apiKey).request;
      var prompt := ReadPrompt(body).value.json.s;
      && |request.messages| == 2
      && request.messages[0] == ChatMessage("system", SystemInstruction)
      && request.messages[1] == ChatMessage("user", prompt)
      && request.authorization == "Bearer " + apiKey.value
      && request.url == CompletionsUrl && request.httpMethod == "POST"
      && request.model == ModelName
  {
  }

  /** When the guards end the request, the upstream service is never
      consulted: the response is the same whatever `fetch` would do. */
  lemma RejectedMakesNoCall(body: Val, apiKey: Option<string>, fetch1: Fetch, fetch2: Fetch, parse: Parser)
    requires !Gate(body, apiKey).Forward?
    ensures HandleAsk(body, apiKey, fetch1, parse) == HandleAsk(body, apiKey, fetch2, parse)
    ensures Gate(body, apiKey).Respond? ==> HandleAsk(body, apiKey, fetch1, parse) == Gate(body, apiKey).response
  {
  }

  // ------------------------------------------------------- classification

  /** The V8 message for reading a property of `undefined` or `null` has
      neither "fetch" nor "Groq API" in it, for every property name the
      handler reads (none has an `f` or a `G` in it). */
  lemma ReadErrorExcludesFetch(v: Val, key: string)
    requires v == Undefined || v == J(Null)
    requires 'f' !in key
    ensures !Includes(ReadError(v, key), "fetch")
  {
    var words := ["Cannot", "read", "properties", "of", TypeName(v), "(reading", "'" + key + "')"];
    WordsExclude(words, "fffetff", ' ', "fetch");
  }

  lemma ReadErrorExcludesGroq(v: Val, key: string)
    requires v == Undefined || v == J(Null)
    requires 'G' !in key
    ensures !Includes(ReadError(v, key), "Groq API")
  {
    var words := ["Cannot", "read", "properties", "of", TypeName(v), "(reading", "'" + key + "')"];
    WordsExclude(words, "GGGGGGG", ' ', "Groq");
    ExtensionExcluded(ReadError(v, key), "Groq", " API");
    assert "Groq" + " API" == "Groq API";
  }

  /** Such a TypeError is an internal error (500) carrying its own message. */
  lemma ReadErrorIsInternal(v: Val, key: string)
    requires v == Undefined || v == J(Null)
    requires 'f' !in key && 'G' !in key
    ensures Classify(ReadError(v, key)) == Failure(500, "Internal server error", ReadError(v, key))
  {
    ReadErrorExcludesFetch(v, key);
    ReadErrorExcludesGroq(v, key);
  }

  /** The V8 message for destructuring `prompt` out of an `undefined` or
      `null` body has neither "fetch" nor "Groq API" in it. */
  lemma DestructureErrorExcludesFetch(body: Val)
    requires body == Undefined || body == J(Null)
    ensures !Includes(DestructureError(body), "fetch")
  {
    var words := ["Cannot", "destructure", "property", "'prompt'", "of", "'req.body'",
                  "as", "it", "is", TypeName(body) + "."];
    WordsExclude(words, "ffffefffft", ' ', "fetch");
  }

  lemma DestructureErrorExcludesGroq(body: Val)
    requires body == Undefined || body == J(Null)
    ensures !Includes(DestructureError(body), "Groq API")
  {
    var words := ["Cannot", "destructure", "property", "'prompt'", "of", "'req.body'",
                  "as", "it", "is", TypeName(body) + "."];
    WordsExclude(words, "GGGGGGGGGG", ' ', "Groq");
    ExtensionExcluded(DestructureError(body), "Groq", " API");
    assert "Groq" + " API" == "Groq API";
  }

  /** A body that cannot be destructured (`undefined`, `null`) is answered 500
      "Internal server error" with V8's TypeError message, and nothing is
      forwarded. */
  lemma UnreadableBodyIsInternal(body: Val, apiKey: Option<string>, fetch: Fetch, parse: Parser)
    requires body == Undefined || body == J(Null)
    ensures Gate(body, apiKey) == Threw(DestructureError(body))
    ensures HandleAsk(body, apiKey, fetch, parse)
              == Failure(500, "Internal server error", DestructureError(body))
  {
    DestructureErrorExcludesFetch(body);
    DestructureErrorExcludesGroq(body);
  }

  /** An upstream status outside 200-299 always ends in 502 "External API
      error", whose message embeds the status in decimal (recoverably) and
      the upstream body text. */
  lemma NotOkIs502(body: Val, apiKey: Option<string>, fetch: Fetch, parse: Parser, status: nat, text: string)
    requires Gate(body, apiKey).Forward?
    requires fetch(Gate(body, apiKey).request) == HttpResponse(status, text)
    requires !IsOk(status)
    ensures HandleAsk(body, apiKey, fetch, parse)
              == Failure(502, "External API error", UpstreamError(status, text))
    ensures exists digits :: UpstreamError(status, text) == "Groq API error (" + digits + "): " + text
                             && DecimalValue(digits) == status
  {
    UpstreamErrorIs502(status, text);
    DecimalRoundTrip(status);
  }

  /** The message `callGroqAPI` throws for a response that is not ok is
      classified 502, carried through unchanged. */
  lemma UpstreamErrorIs502(status: nat, text: string)
    ensures Classify(UpstreamError(status, text))
              == Failure(502, "External API error", UpstreamError(status, text))
  {
  }

  /** "fetch failed", the message Node's `fetch` rejects with when the host
      cannot be reached, is classified 503 "Network error". */
  lemma FetchFailedIsNetworkError(m: string)
    requires m == "fetch failed"
    ensures Classify(m) == Failure(503, "Network error", "Could not connect to Groq API")
  {
    PrefixIncluded("fetch", " failed");
    assert m == "fetch" + " failed";
    MissingCharExcludes(m, "Groq API", 'G');
  }

  /** An unreachable upstream is answered 503 "Network error". */
  lemma UnreachableIs503(body: Val, apiKey: Option<string>, fetch: Fetch, parse: Parser, m: string)
    requires Gate(body, apiKey).Forward?
    requires fetch(Gate(body, apiKey).request) == NetworkFailure(m) && m == "fetch failed"
    ensures HandleAsk(body, apiKey, fetch, parse)
              == Failure(503, "Network error", "Could not connect to Groq API")
  {
    FetchFailedIsNetworkError(m);
  }

  /** An ok upstream response whose JSON is `null` is a 500 carrying the
      TypeError from reading `choices`. */
  lemma NullReplyIsInternal(body: Val, apiKey: Option<string>, fetch: Fetch, parse: Parser,
                            status: nat, text: string)
    requires Gate(body, apiKey).Forward?
    requires fetch(Gate(body, apiKey).request) == HttpResponse(status, text) && IsOk(status)
    requires parse(text) == Parsed(Null)
    ensures HandleAsk(body, apiKey, fetch, parse)
              == Failure(500, "Internal server error", ReadError(J(Null), "choices"))
  {
    ReadErrorIsInternal(J(Null), "choices");
  }

  /** An ok upstream response with an empty `choices` array is a 500
      carrying the TypeError from reading `message` of `undefined`. */
  lemma EmptyChoicesIsInternal(body: Val, apiKey: Option<string>, fetch: Fetch, parse: Parser,
                               status: nat, text: string, top: map<string, Json>)
    requires Gate(body, apiKey).Forward?
    requires fetch(Gate(body, apiKey).request) == HttpResponse(status, text) && IsOk(status)
    requires parse(text) == Parsed(Obj(top)) && "choices" in top && top["choices"] == Arr([])
    ensures HandleAsk(body, apiKey, fetch, parse)
              == Failure(500, "Internal server error", ReadError(Undefined, "message"))
  {
    EmptyChoicesThrow(HttpResponse(status, text), parse, top);
    ReadErrorIsInternal(Undefined, "message");
    assert HandleAsk(body, apiKey, fetch, parse) == Settle(Complete(HttpResponse(status, text), parse));
  }

  lemma EmptyChoicesThrow(reply: UpstreamReply, parse: Parser, top: map<string, Json>)
    requires reply.HttpResponse? && IsOk(reply.status)
    requires parse(reply.body) == Parsed(Obj(top)) && "choices" in top && top["choices"] == Arr([])
    ensures Complete(reply, parse) == Throw(ReadError(Undefined, "message"))
  {
  }

  /** Every response is one of the statuses the handler can send. */
  lemma StatusesAreKnown(body: Val, apiKey: Option<string>, fetch: Fetch, parse: Parser)
    ensures HandleAsk(body, apiKey, fetch, parse).Status() in {200, 400, 500, 502, 503}
  {
  }

  // --------------------------------------------------------- normaliser

  /** Text that does not parse, or parses to `null` (whose property read
      throws), gives the fixed single-step reasoning and the text itself. */
  lemma UnparsableFallsBack(text: Val, parse: Parser)
    requires ToString(text).Ok?
    requires parse(ToString(text).value).SyntaxError? || parse(ToString(text).value) == Parsed(Null)
    ensures ParseReasoning(text, parse)
              == Normalized(J(Arr([Str("Model returned unstructured output")])), text)
  {
  }

  /** Content that shadows `toString` (an object with an own `toString`
      field, alone or inside arrays) makes the conversion before
      `JSON.parse` throw, which also gives the fallback. */
  lemma ShadowedToStringFallsBack(content: Json, parse: Parser)
    requires ShadowsToString(content)
    ensures ParseReasoning(J(content), parse)
              == Normalized(J(Arr([Str("Model returned unstructured output")])), J(content))
  {
    ToStringThrows(content);
  }

  /** A parsed number, string, boolean or array has no `reasoning` or
      `answer`: the result is no steps and the raw text. */
  lemma ParsedNonObject(text: Val, parse: Parser, j: Json)
    requires ToString(text).Ok? && parse(ToString(text).value) == Parsed(j)
    requires j.Bool? || j.Num? || j.Str? || j.Arr?
    ensures ParseReasoning(text, parse) == Normalized(J(Arr([])), text)
  {
  }

  /** A parsed object gives its `reasoning` field when that is truthy, and
      otherwise an empty list; its `answer` field when that is truthy, and
      otherwise the raw text. */
  lemma ParsedObject(text: Val, parse: Parser, fields: map<string, Json>)
    requires ToString(text).Ok? && parse(ToString(text).value) == Parsed(Obj(fields))
    ensures ParseReasoning(text, parse).reasoning
              == (if Truthy(Field(fields, "reasoning")) then Field(fields, "reasoning") else J(Arr([])))
    ensures ParseReasoning(text, parse).answer
              == (if Truthy(Field(fields, "answer")) then Field(fields, "answer") else text)
  {
  }

  /** The shape the system instruction asks for comes back as it is: a
      `reasoning` array (even an empty one) and a non-empty `answer` string. */
  lemma WellFormedReplyKept(text: Val, parse: Parser, steps: seq<Json>, answer: string, fields: map<string, Json>)
    requires answer != ""
    requires "reasoning" in fields && fields["reasoning"] == Arr(steps)
    requires "answer" in fields && fields["answer"] == Str(answer)
    requires ToString(text).Ok? && parse(ToString(text).value) == Parsed(Obj(fields))
    ensures ParseReasoning(text, parse) == Normalized(J(Arr(steps)), J(Str(answer)))
  {
  }

  /** A falsy `answer` (`""`, `0`, `false`, `null`) is replaced by the whole
      raw text, and a truthy `reasoning` that is not an array is passed on
      as it is. */
  lemma FalsyAnswerAndNonArrayReasoning(text: Val, parse: Parser, steps: string, answer: Json)
    requires steps != "" && (answer == Str("") || answer == Num("0") || answer == Bool(false) || answer == Null)
    requires ToString(text).Ok? && parse(ToString(text).value) == Parsed(Obj(map["reasoning" := Str(steps), "answer" := answer]))
    ensures ParseReasoning(text, parse) == Normalized(J(Str(steps)), text)
  {
  }

  // ------------------------------------------------------------ success

  /** On an ok upstream response of the documented shape, the handler
      returns exactly `parseReasoning(choices[0].message.content)` together
      with the upstream `model` and `usage`, unchanged. */
  lemma SuccessPayload(body: Val, apiKey: Option<string>, fetch: Fetch, parse: Parser,
                       status: nat, text: string,
                       top: map<string, Json>, choices: seq<Json>, choice: map<string, Json>,
                       message: map<string, Json>)
    requires Gate(body, apiKey).Forward?
    requires fetch(Gate(body, apiKey).request) == HttpResponse(status, text) && IsOk(status)
    requires parse(text) == Parsed(Obj(top))
    requires "choices" in top && top["choices"] == Arr(choices)
    requires |choices| > 0 && choices[0] == Obj(choice)
    requires "message" in choice && choice["message"] == Obj(message)
    ensures var n := ParseReasoning(Field(message, "content"), parse);
            HandleAsk(body, apiKey, fetch, parse)
              == Success(Payload(n.reasoning, n.answer, Field(top, "model"), Field(top, "usage")))
  {
    var reply := HttpResponse(status, text);
    CompleteSucceeds(reply, parse, top, choices, choice, message);
    assert HandleAsk(body, apiKey, fetch, parse) == Settle(Complete(reply, parse));
  }

  lemma CompleteSucceeds(reply: UpstreamReply, parse: Parser,
                         top: map<string, Json>, choices: seq<Json>, choice: map<string, Json>,
                         message: map<string, Json>)
    requires reply.HttpResponse? && IsOk(reply.status)
    requires parse(reply.body) == Parsed(Obj(top))
    requires "choices" in top && top["choices"] == Arr(choices)
    requires |choices| > 0 && choices[0] == Obj(choice)
    requires "message" in choice && choice["message"] == Obj(message)
    ensures var n := ParseReasoning(Field(message, "content"), parse);
            Complete(reply, parse)
              == Ok(Success(Payload(n.reasoning, n.answer, Field(top, "model"), Field(top, "usage"))))
  {
    ArrayIndex(choices, 0);
  }

  /** A 200 is only ever sent after the guards passed and upstream answered
      with an ok status and a parsable body whose
      `choices[0].message.content` could be read; the payload is then
      `parseReasoning` of that content with the upstream `model` and
      `usage`, whatever shape `choices` and `message` had. */
  lemma SuccessNeedsOkUpstream(body: Val, apiKey: Option<string>, fetch: Fetch, parse: Parser)
    requires HandleAsk(body, apiKey, fetch, parse).Success?
    ensures Gate(body, apiKey).Forward?
    ensures var reply := fetch(Gate(body, apiKey).request);
            reply.HttpResponse? && IsOk(reply.status) && parse(reply.body).Parsed?
    ensures var groq := J(parse(fetch(Gate(body, apiKey).request).body).value);
            Content(groq).Ok? && Get(groq, "model").Ok? && Get(groq, "usage").Ok? &&
            var n := ParseReasoning(Content(groq).value, parse);
            HandleAsk(body, apiKey, fetch, parse)
              == Success(Payload(n.reasoning, n.answer, Get(groq, "model").value, Get(groq, "usage").value))
  {
  }

  /** Conversely, when the guards pass, upstream answers ok with a body
      that parses and `choices[0].message.content` can be read, the
      response is that 200. */
  lemma ReadableReplySucceeds(body: Val, apiKey: Option<string>, fetch: Fetch, parse: Parser,
                              status: nat, text: string, top: Json)
    requires Gate(body, apiKey).Forward?
    requires fetch(Gate(body, apiKey).request) == HttpResponse(status, text) && IsOk(status)
    requires parse(text) == Parsed(top) && Content(J(top)).Ok?
    ensures Get(J(top), "model").Ok? && Get(J(top), "usage").Ok?
    ensures var n := ParseReasoning(Content(J(top)).value, parse);
            HandleAsk(body, apiKey, fetch, parse)
              == Success(Payload(n.reasoning, n.answer, Get(J(top), "model").value, Get(J(top), "usage").value))
  {
    assert HandleAsk(body, apiKey, fetch, parse) == Settle(Complete(HttpResponse(status, text), parse));
  }
}
