# CogniScope backend: the `/ask-ai` endpoint

The backend is a thin proxy. It receives a question, checks it, and sends it to the
Groq chat-completion API together with a fixed system instruction. It then turns the
model's text into `{reasoning, answer}` and returns that with the upstream `model` and
`usage`. Any Error thrown along the way is mapped to an HTTP status by substring tests
on its message.

The model is four Dafny modules, all pure functions and lemmas:

- `JsStrings` (`js_strings.dfy`) holds the string operations the handler uses.
  `Includes` is `String.prototype.includes`, proved equal to a reference definition of
  substring occurrence. `Join` is `Array.prototype.join`. `Decimal` and its left inverse
  `DecimalValue` render and read back a non-negative integer. There are also lemmas for
  showing that a message does not contain a word.
- `JsValues` (`js_values.dfy`) models the JavaScript values the handler touches:
  values from `JSON.parse` plus `undefined`, truthiness, property reads (`x.name`,
  `x[0]`) with the TypeError V8 raises on `undefined`/`null`, and the ToString that
  `JSON.parse` applies to a non-string argument, which throws when an object's own
  `toString` field shadows the inherited method.
- `Server` (`server.dfy`) is the handler itself. It has the three guards (`Gate`),
  the request `callGroqAPI` sends (`BuildRequest`), the rest of `callGroqAPI`
  (`CallGroq`), `parseReasoning` (`TryNormalize` / `ParseReasoning`), the catch block
  (`Classify`, `Settle`), the success path (`Complete`) and the whole handler
  (`HandleAsk`).
- `ServerProperties` (`server_properties.dfy`) holds what the handler guarantees, as
  lemmas over `Server`.

The outside world comes in as parameters:

- the request body is a `Val`;
- the `GROQ_API_KEY` environment variable is an `Option<string>`;
- `fetch` is a function from the request to an `UpstreamReply`, where
  `UpstreamReply = NetworkFailure(message) | HttpResponse(status, body)`;
- `JSON.parse` is a function from text to `Parsed(json)` or `SyntaxError(message)`.
  The same function is used for `response.json()`.

So a lemma that holds for every `fetch` holds whatever the upstream service says. When
a response does not depend on `fetch` at all, no upstream call was made.

Some facts about the code that the model keeps:

- A whitespace-only prompt is accepted: nothing is trimmed.
- The elements of `reasoning` are not converted to strings. Any truthy `reasoning`
  value is passed on as it is, array or not.
- A falsy `answer` (`""`, `0`, `false`, `null`) is replaced by the whole raw text.
- `parseReasoning` tries only `JSON.parse`. When that fails, the raw text is the answer.
- The maximum prompt length is the literal 5000.
- There is no timeout on the upstream call.
- `answer` is `undefined` only when the upstream `content` itself is `undefined`.

## Model

| member | source | states |
|---|---|---|
| `JsStrings.Includes` | backend/server.js:142-147 | `message.includes(sub)` is true exactly when `sub` occurs at some index of `message` |
| `JsStrings.DecimalRoundTrip` | backend/server.js:57 | the decimal text of the upstream status printed into the Error message reads back as that status |
| `JsValues.Get` | backend/server.js:68-69 | a property read throws exactly on `undefined` and `null`, and then with V8's "Cannot read properties of …" message |
| `JsValues.ArrayIndex` | backend/server.js:123 | `choices[0]` is the first element of a non-empty array and `undefined` for an empty one |
| `Server.ReadPrompt` | backend/server.js:95 | `const { prompt } = req.body` throws exactly when the body is `undefined` or `null` |
| `Server.CallGroq` | backend/server.js:20-60 | `callGroqAPI` rethrows a transport failure's message; a status outside 200-299 throws "Groq API error (<status>): <body>"; an ok body gives its parsed JSON or the parser's SyntaxError; so it returns a value only for a 2xx response whose body parses |
| `Server.ParseReasoning` | backend/server.js:64-77 | `parseReasoning` never throws; its `reasoning` is always truthy (so `reasoning.length` on line 128 cannot throw), and its `answer` is truthy or is the raw text |
| `Server.Classify` | backend/server.js:142-157 | status 502 "External API error" exactly when the message contains "Groq API"; 503 "Network error" with the fixed message "Could not connect to Groq API" exactly when it contains "fetch" but not "Groq API"; otherwise 500 "Internal server error"; the message is passed through except for 503 |
| `ServerProperties.InvalidPromptRejected` | backend/server.js:98-103 | with any key, a readable prompt gives 400 "Invalid request" exactly when it is not a non-empty string |
| `ServerProperties.InvalidPromptField` | backend/server.js:95-103 | for an object body, 400 "Invalid request" exactly when `prompt` is absent, not a string, or empty |
| `ServerProperties.NonObjectBodyRejected` | backend/server.js:95-103 | an array, string, number or boolean body has no `prompt` and gets 400 "Invalid request" |
| `ServerProperties.LengthLimit` | backend/server.js:105-110 | a non-empty string prompt gets 400 "Prompt too long" exactly when it is longer than 5000 |
| `ServerProperties.BoundaryAndBlankPromptsPass` | backend/server.js:98-117 | with a key set, every prompt of 1 to 5000 code units is forwarded whatever its characters: the 5000 bound is inclusive and an all-blank prompt is not trimmed away |
| `ServerProperties.KeyCheckedLast` | backend/server.js:98-117 | without a key nothing is forwarded; 500 "Server misconfiguration" comes exactly when the prompt passed both checks, and a bad prompt still gets 400 |
| `ServerProperties.ForwardedRequest` | backend/server.js:20-50 | the handler forwards exactly when all guards pass; the request is a POST to the completions URL with the bearer key, the fixed model, and exactly two messages: the system instruction, then the prompt verbatim |
| `ServerProperties.RejectedMakesNoCall` | backend/server.js:98-122 | when the guards end the request, the response does not depend on the upstream service, and it is the guard's response |
| `ServerProperties.ReadErrorIsInternal` | backend/server.js:152-157 | the TypeError of a failed property read falls through both substring tests to 500 with its own message |
| `ServerProperties.UnreadableBodyIsInternal` | backend/server.js:94-95 | an `undefined` or `null` body throws while destructuring `prompt` and is answered 500 "Internal server error" with V8's message |
| `ServerProperties.NotOkIs502` | backend/server.js:55-57 | a status outside 200-299 always ends in 502 with "Groq API error (<status>): <body>", from which the status can be read back |
| `ServerProperties.UpstreamErrorIs502` | backend/server.js:142-146 | the Error `callGroqAPI` throws is classified 502 and its message is kept |
| `ServerProperties.FetchFailedIsNetworkError` | backend/server.js:147-151 | "fetch failed" is classified 503 "Network error" / "Could not connect to Groq API" |
| `ServerProperties.UnreachableIs503` | backend/server.js:147-151 | an unreachable upstream gives 503 "Network error" |
| `ServerProperties.NullReplyIsInternal` | backend/server.js:123 | an ok upstream body `null` gives 500 carrying the TypeError for reading `choices` |
| `ServerProperties.EmptyChoicesIsInternal` | backend/server.js:123 | an ok upstream body with empty `choices` gives 500 carrying the TypeError for reading `message` of `undefined` |
| `ServerProperties.StatusesAreKnown` | backend/server.js:93-159 | every response has status 200, 400, 500, 502 or 503 |
| `ServerProperties.UnparsableFallsBack` | backend/server.js:71-76 | text that does not parse, or parses to `null`, gives `["Model returned unstructured output"]` and the text unchanged |
| `JsValues.ToStringThrows` | backend/server.js:66 | converting parsed content to a string before `JSON.parse` throws exactly when an object with an own `toString` field sits in it, alone or inside arrays, and then with V8's "Cannot convert object to primitive value" |
| `ServerProperties.ShadowedToStringFallsBack` | backend/server.js:66-76 | content that shadows `toString` makes that conversion throw, and `parseReasoning` then returns the fallback |
| `ServerProperties.ParsedNonObject` | backend/server.js:66-70 | a parsed number, string, boolean or array gives `[]` and the raw text |
| `ServerProperties.ParsedObject` | backend/server.js:67-70 | a parsed object gives its `reasoning` field if truthy, else `[]`, and its `answer` field if truthy, else the raw text |
| `ServerProperties.WellFormedReplyKept` | backend/server.js:38-43 | a reply in the requested JSON shape (a `reasoning` array, a non-empty `answer` string) comes back exactly as sent |
| `ServerProperties.FalsyAnswerAndNonArrayReasoning` | backend/server.js:68-69 | a falsy `answer` is replaced by the raw text, and a non-array truthy `reasoning` is passed on as it is |
| `ServerProperties.SuccessPayload` | backend/server.js:122-136 | on an ok reply of the documented shape the response is 200 with `parseReasoning(choices[0].message.content)` and the upstream `model` and `usage` unchanged |
| `ServerProperties.CompleteSucceeds` | backend/server.js:122-136 | the part of the handler after the guards returns that payload without throwing |
| `ServerProperties.SuccessNeedsOkUpstream` | backend/server.js:122-136 | every 200 comes after the guards passed and upstream answered 2xx with a body that parses and whose `choices[0].message.content` reads without throwing; its payload is `parseReasoning` of that content with the upstream `model` and `usage`, whatever the shapes of `choices` and `message` |
| `ServerProperties.ReadableReplySucceeds` | backend/server.js:122-136 | conversely, when the guards pass, upstream answers 2xx with a body that parses and `choices[0].message.content` reads without throwing, the response is that 200 |

## Left out

- Express setup, CORS, `express.json`, dotenv, `app.listen` and the SIGTERM/SIGINT handlers
  (backend/server.js:6-17, 162-180) are process and I/O plumbing. So are the body parser's
  own 400 for malformed JSON and its strict mode, which refuses top-level primitives. The
  model accepts any body value.
- The `/health` endpoint (backend/server.js:84-90) is left out because it reads the clock.
  Its `groqConfigured` flag is the same test as `KeyConfigured`.
- The `console.log` and `console.error` lines are left out. They have no effect on the response.
- The `fetch` call, HTTP transport, header validation and `response.text()` /
  `response.json()` are left out. The upstream is a parameter that gives a reply or a
  rejection message.
- The internals of `JSON.parse` are not modelled. It is a parameter, and no JSON grammar is written.
- Serialising the response with `res.json` is left out. The model's payload holds JavaScript
  values, and `undefined` fields are not dropped here.
- Numbers are carried by their `Number.prototype.toString` text, so no floating-point
  arithmetic is modelled. `0.3` is an opaque `real` constant.
- Strings are sequences of `char`, each standing for one UTF-16 code unit. Surrogate pairs
  are not distinguished, so JavaScript's `length` is the sequence length.
- `JsValues.Get` covers only own properties, array and string indices, and `length`. The
  prototype chain is not modelled, so an object whose own fields are named like the
  properties the handler reads is read through those fields (that is what JavaScript does
  too), and a name found only on `Object.prototype` reads as `undefined`. None of
  `prompt`, `choices`, `message`, `content`, `reasoning`, `answer`, `model` or `usage`
  is defined on the prototypes of parsed values. `toString` is the one inherited name whose
  shadowing by a parsed value changes the outcome: an own `toString` field makes the string
  conversion before `JSON.parse` throw, and `JsValues.ToString` models that. The inherited
  `valueOf` it then falls back to, and `Array.prototype.join` for arrays, cannot be
  shadowed in a way that changes the result.
- The TypeError messages are V8's wording for Node 16.9 and later. Older engines word them
  differently, and the 500 classification depends on that wording.
- frontend/src/App.jsx is not part of this model. It is UI state, an HTTP call and a timed
  reveal animation.
