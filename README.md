# GroqApiLibrary client core, modelled in Dafny

This project models the two pieces of logic in the C# Groq chat-completion
client library:

- **The client** (`GroqApiClient.cs`). The buffered call adds
  `response_format = {"type": "json_object"}` to the caller's own request
  object, posts it, checks the HTTP status and parses the body as a JSON
  object. The streaming call adds `stream = true` to the caller's request,
  posts it and checks the status. It then reads the body line by line. Only
  lines that begin with exactly `data: ` are kept. The six-character prefix
  is stripped, the payload `[DONE]` is skipped, and every other payload is
  parsed and yielded as an event, in line order.
- **The provider** (`GroqLlmProvider.cs`). `GenerateAsync` builds a request
  holding exactly the model fixed at construction and one user message with
  the prompt. It returns the string at `choices[0].message.content` of the
  reply, or `""` where that null-conditional chain yields null.

Files:

- `wrappers.dfy`: `Option` and `Result`.
- `json.dfy`: JSON values, and `ObjectNode`, the mutable JSON object used
  for the caller's request (its `Add` refuses a name that is already
  present, as the JSON library does by throwing).
- `groq_api_client.dfy`: the line decoder (`DecodeLine`, the reference
  function `Decoded`, the loop `DecodeEventStream`), the two client calls,
  and the lemmas about decoding.
- `groq_llm_provider.dfy`: null-conditional navigation (`Apply`,
  `Navigate`), answer extraction (`Answer`), the provider class, and the
  lemmas about the answer.

Abstractions:

- HTTP is a parameter `send`, a function from the request that is posted
  to the response. A streamed body arrives already split into lines.
- JSON parsing (`JObject.Parse`) is a parameter `parse` of type
  `string -> Option<JsonObject>`. `None` stands for the library throwing,
  either on malformed text or on a document that is not an object.
- The provider's completion call is a parameter `complete`.

Behaviour of the code worth noting:

- `[DONE]` does not end the stream. The loop has no `break`, so `data: `
  lines after it are still decoded (`DoneDoesNotStop`).
- Both calls add their property to the caller's own request object. A
  request reused for a second call therefore fails on the duplicate
  property (`ReuseRequest` shows this for the buffered call).
- The buffered call always adds `response_format`.
- There is no tool registry, dispatcher or multi-round loop in the code.
- Only the lines the reader delivers are decoded. There is no blank-line
  dispatch and no multi-line `data` accumulation.

## Model

| member | source | states |
|---|---|---|
| `Json.ObjectNode.Add` | GroqApiClient.cs:18 | adding a name that is absent extends the property map by exactly that entry; adding one that is present fails and changes nothing |
| `GroqApiClient.CreateChatCompletion` | GroqApiClient.cs:16-28 | a request that already has `response_format` fails before anything is sent; otherwise the caller's request gains `response_format = {type: json_object}` with every other key unchanged, a non-2xx status fails with that status before the body is parsed, an unparsable body fails, and a parsed object is returned |
| `GroqApiClient.CreateChatCompletionStream` | GroqApiClient.cs:30-53 | a request that already has `stream` fails with no events; otherwise the caller's request gains `stream = true` with every other key unchanged, a non-2xx status fails with no line decoded, and a 2xx body yields exactly the decoding of its lines |
| `GroqApiClient.ReuseRequest` | GroqApiClient.cs:18 | the second buffered call on the same request object always fails on the duplicate `response_format` property |
| `GroqApiClient.DecodeLine` | GroqApiClient.cs:44-50 | a line contributes something only if it begins with `data: ` and its payload is not `[DONE]`; the payload parsed is the line minus its six-character prefix; a parse yields that event and a failed parse yields an error carrying the payload |
| `GroqApiClient.Decoded` | GroqApiClient.cs:41-52 | a body never yields more events than it has lines, and a failure is always a JSON parse error that leaves at least one line unyielded |
| `GroqApiClient.DecodeEventStream` | GroqApiClient.cs:41-52 | the loop returns exactly the events and the error of the line-by-line decoding of the whole body |
| `GroqApiClient.DecodedAppend` | GroqApiClient.cs:41-52 | decoding a body split in two is decoding the first part, then, only if no error occurred, the second part after it |
| `GroqApiClient.SkippedLineIsInvisible` | GroqApiClient.cs:44-47 | a line without the exact `data: ` prefix (such as a comment, a blank keep-alive or `data:` without a space), or a `[DONE]` line, can be removed from any position without changing the events or the error |
| `GroqApiClient.DoneDoesNotStop` | GroqApiClient.cs:47 | a `data: [DONE]` line yields nothing and the lines after it are decoded as if it were absent |
| `GroqApiClient.EventsArePrefixStable` | GroqApiClient.cs:49 | reading further lines only extends the events already yielded; after a parse failure, further lines change nothing |
| `GroqApiClient.Payloads` | GroqApiClient.cs:44-47 | the payloads handed to the parser are no more numerous than the lines |
| `GroqApiClient.DecodedMeaning` | GroqApiClient.cs:41-52 | the k-th event is the parse of the k-th payload; without an error every payload parsed; with one, the failing payload is the first unparsable one and exactly the payloads before it were yielded |
| `GroqApiClient.PayloadsComeFromDataLines` | GroqApiClient.cs:44-46 | every payload is a body line with the `data: ` prefix removed and is never `[DONE]` |
| `GroqApiClient.StreamScenario` | GroqApiClient.cs:41-52 | the body `data: {"choice":1}` then `data: [DONE]` yields exactly the one parsed event and ends without error |
| `GroqLlmProvider.Navigate` | GroqLlmProvider.cs:46 | a null node stays null through any chain of `?[...]` links, and the empty chain returns the node itself |
| `GroqLlmProvider.Apply` | GroqLlmProvider.cs:46 | one `?[name]` or `?[index]` link: a null node stays null; a name on an object gives that property or null when it is missing; a name on any other non-null node throws; an index on an array gives that element, or throws when it is past the end; an index on any other non-null node throws |
| `GroqLlmProvider.NavigateAppend` | GroqLlmProvider.cs:46 | a chain of links split in two is the first piece, then, unless it threw, the second piece from where the first piece ended |
| `GroqLlmProvider.Answer` | GroqLlmProvider.cs:46 | the text read from a reply is the string at `choices[0].message.content` when there is one, `""` when the chain hits a null or missing link, and an error exactly when neither holds |
| `GroqLlmProvider.AnswerFound` | GroqLlmProvider.cs:46 | a string at `choices[0].message.content` is returned unchanged |
| `GroqLlmProvider.AnswerDefaultsToEmpty` | GroqLlmProvider.cs:46 | a null reply; a missing or null `choices`, `message` or `content`; or a null element 0, gives `""` rather than an error |
| `GroqLlmProvider.AnswerMeaning` | GroqLlmProvider.cs:46 | an answer is only ever the string at the end of the path, or `""` for a null link; a reply that is neither is an error |
| `GroqLlmProvider.EmptyChoicesThrows` | GroqLlmProvider.cs:46 | an empty `choices` array is an index-out-of-range error, not a missing link |
| `GroqLlmProvider.HelloScenario` | GroqLlmProvider.cs:46 | the reply whose first choice's message content is "hello" yields "hello" |
| `GroqLlmProvider.GroqLlmProvider.constructor` | GroqLlmProvider.cs:22-26 | the provider's model is the one given; it is a constant, so every request uses it |
| `GroqLlmProvider.GroqLlmProvider.WithHttpClient` | GroqLlmProvider.cs:28-32 | the provider's model is the one given, as with the other constructor |
| `GroqLlmProvider.GroqLlmProvider.BuildRequest` | GroqLlmProvider.cs:36-43 | the request has exactly the keys `model` and `messages`; `model` is the provider's model; `messages` has one element, with exactly the keys `role` = "user" and `content` = the prompt |
| `GroqLlmProvider.GroqLlmProvider.Generate` | GroqLlmProvider.cs:34-47 | a failing completion call for the built request ends the call with that failure; otherwise the answer is the string at `choices[0].message.content` of its reply, or `""` when that chain hits a null, and an error of reading the reply exactly when neither holds |

## Left out

- HTTP transport: the `HttpClient`, the `Authorization: Bearer` header, the endpoint URL, request serialisation (`request.ToString()`) and transport exceptions. HTTP is the parameter `send`.
- Line reassembly: `StreamReader` splitting the body into lines is library behaviour. The streamed body is given as its sequence of lines.
- JSON parsing and serialisation (`JObject.Parse`, `JsonSerializer.SerializeToNode`) are the oracle `parse` and the value literal in `BuildRequest`. Property order inside objects is not modelled, because objects are maps.
- Floating-point JSON numbers: numbers are integers only.
- Laziness of `IAsyncEnumerable`. The streaming call is modelled as enumerated to its end or to its first error, as a finite sequence. In C# the body of an async iterator, including `request.Add("stream", true)`, runs only when enumeration starts. The model does not capture a stream that is never enumerated leaving the request unchanged.
- Culture-sensitive prefix test: `string.StartsWith(string)` in .NET compares culture-sensitively. The model uses an ordinal prefix test, so it does not capture ignorable characters before `data: `.
- The provider's own client: the `GroqApiClient(apiKey, httpClient)` constructor and `Dispose` that the provider uses do not exist on the client shown. The completion call is therefore the parameter `complete`, whose failures are the client's errors, and the provider holds no client.
- `Service/LlmCommunicationService.cs`, `Program.cs`, `IGroqApiClient.cs` and `Service/ILlmCommunicationService.cs`. They are a logging wrapper calling members the client does not have, a console demo, and interfaces, with no logic of their own.
