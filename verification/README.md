# neorium-sdk core, modelled in Dafny

This project models the logic at the heart of the NeoriumAI TypeScript SDK and proves properties of it. It covers:

- **`NeoriumClient`** (`packages/sdk/src/client.ts`):
  - configuration resolution, as explicit option, then environment, then default;
  - request normalisation;
  - the tool-calling loop of `chat.completions.create`;
  - the single request of `chat.completions.stream`, including the `[DONE]` sentinel.
- **`httpJson`**: the retrying JSON transport (`packages/sdk/src/http.ts`), with its status classification, back-off and `Retry-After` handling.
- **`parseSse`**: the server-sent-events splitter (`packages/sdk/src/sse.ts`).
- **The zod schemas** for chat messages, requests and responses (`packages/sdk/src/types.ts`), written as predicates over a small JSON datatype, together with what a successful parse returns.
- **The environment readers and the key check** (`packages/sdk/src/env.ts`).
- **The `NeoError` family** (`packages/sdk/src/errors.ts`) as one tagged datatype.
- **The DeFi tool registry** (`packages/sdk/src/tools/registry.ts`): its strict argument schemas and its five handlers.
- **The two prompt builders** (`packages/sdk/src/prompts.ts`).
- **The `RateLimiter`** of the editor extension, and the gate at the top of `runChat` (`extensions/neorium-copilot/src/extension.ts`).

Everything the SDK gets from outside is a function-valued parameter (an oracle):

- `fetch` outcomes, indexed by attempt or call number;
- the tool handlers;
- `JSON.parse` (`None` when it throws) and `JSON.stringify`;
- `Number(text)` and `Date.parse` (`None` when the result is not finite);
- `Date.now()` and `Math.random()`;
- the Solana RPC and the Jupiter quote service.

Sleeping is recorded as the list of delays slept, not performed.

Each loop of the source is written out two ways:

- a Dafny `method` that follows the source's steps: the attempt loop of `httpJson`, the buffer loops of `parseSse`, the `for` loop of `create`, the batch of tool calls, the event loop of `stream`, the `extra.push` prompt assembly; the holder-snapshot handler, which has no loop, is a method too, because it reassigns its `topHolders` variable;
- a specification function.

Each method is proved equal to its specification function, and the properties are proved about the functions. `RateLimiter` is a class whose `CanRun` updates `lastAt` in place.

Files, one module per source file:

- `base.dfy`: `Option`, `Result`, the JSON value type, and the JavaScript string helpers `trim`, `trimStart`, `toLowerCase`, `join` and `Math.trunc`.
- `errors.dfy`, `env.dfy`, `types.dfy` (module `Schemas`), `http.dfy`, `sse.dfy`, `client.dfy`, `registry.dfy`, `prompts.dfy`, `extension.dfy`.

## Model

| member | source | states |
|---|---|---|
| Base.Trunc | packages/sdk/src/tools/registry.ts:173 | the integer `slice` takes from a numeric `topN` rounds toward zero: within one of the argument and never farther from zero |
| Base.TrimStart | packages/sdk/src/sse.ts:23 | `trimStart` removes exactly the maximal prefix of JavaScript whitespace: the result is a suffix of the input that does not start with whitespace, and everything removed was whitespace |
| Base.TrimEnd | packages/sdk/src/env.ts:17 | the mirror image of TrimStart, at the end of the string |
| Base.Trim | packages/sdk/src/env.ts:17 | `trim()` is empty exactly when every character of the input is whitespace |
| Base.ToLower | packages/sdk/src/tools/registry.ts:62 | `toLowerCase` keeps the length and lowers each character on its own |
| Base.NatToString | packages/sdk/src/http.ts:110 | the decimal text of a status code is made of digits, denotes the status, and has no leading zero unless the status is 0 |
| Base.JoinSnoc | packages/sdk/src/sse.ts:25 | joining one more part adds the separator and the part at the end |
| Errors.NewError | packages/sdk/src/errors.ts:1-17 | `NeoError`, `NeoAuthError` and `NeoNetworkError` carry the kind and message, and set `code`, `status` and `cause` exactly when the option is given; they have no `retryAfterMs` and no `body` |
| Errors.NewRateLimitError | packages/sdk/src/errors.ts:19-31 | code is always "rate_limited"; `status`, `cause` and `retryAfterMs` are present exactly when given; there is no body |
| Errors.NewApiError | packages/sdk/src/errors.ts:37-49 | code is always "api_error"; `status`, `body` and `cause` are present exactly when given |
| Errors.Name | packages/sdk/src/errors.ts:1-49 | each error kind has a `name` from which the kind is recovered |
| Errors.NamesDistinct | packages/sdk/src/errors.ts:1-49 | two kinds share a `name` only when they are the same kind |
| Env.ReadNeoApiKeyFromEnv | packages/sdk/src/env.ts:10-14 | `NEO_APIKEY` wins whenever it is defined, even when empty; `neo_apikey` is used only when `NEO_APIKEY` is undefined |
| Env.RequireNeoApiKey | packages/sdk/src/env.ts:16-21 | accepts exactly a key with some non-whitespace character, and returns it untrimmed; otherwise fails with the auth error and its message |
| Env.ReadNeoBaseUrlFromEnv | packages/sdk/src/env.ts:23-27 | the value of `NEO_BASE_URL`, verbatim, exactly when it is defined |
| Env.ReadNeoModelFromEnv | packages/sdk/src/env.ts:29-33 | the value of `NEO_MODEL`, verbatim, exactly when it is defined |
| Env.ReadNeoTimeoutMsFromEnv | packages/sdk/src/env.ts:35-42 | an absent or empty `NEO_TIMEOUT_MS` gives nothing; otherwise the result is `Number(raw)`, or nothing when that is not finite |
| Env.ReadersIgnoreOtherKeys | packages/sdk/src/env.ts:10-42 | changing any other variable changes none of the readers' results |
| Schemas.Restrict | packages/sdk/src/types.ts:14-21 | zod's default strip mode keeps exactly the declared keys that are present, with their values |
| Schemas.StripToolCall | packages/sdk/src/types.ts:14-21 | a parsed tool-call entry is valid, keeps `id`, `name` and `arguments`, and has exactly the declared keys at both levels |
| Schemas.StripMessage | packages/sdk/src/types.ts:6-25 | a parsed message keeps its own keys and their values, and only its tool-call entries are stripped |
| Schemas.StripChoice | packages/sdk/src/types.ts:83-87 | a parsed choice has exactly `index`, `message` and `finish_reason`, with `index` and `finish_reason` unchanged |
| Schemas.StripResponse | packages/sdk/src/types.ts:76-91 | a parsed response is valid and keeps every top-level key, including unknown ones, and every value except `choices`; it keeps the number of choices |
| Schemas.StripRequest | packages/sdk/src/types.ts:46-56 | a parsed request is valid, has the same keys, and changes only its messages |
| Schemas.StripToolCallIdempotent | packages/sdk/src/types.ts:14-21 | parsing a parsed tool call changes nothing |
| Schemas.StripMessageIdempotent | packages/sdk/src/types.ts:6-25 | parsing a parsed message changes nothing |
| Schemas.StripResponseIdempotent | packages/sdk/src/types.ts:76-91 | parsing a parsed response changes nothing |
| Schemas.StripRequestIdempotent | packages/sdk/src/types.ts:46-56 | parsing a parsed request changes nothing |
| Schemas.UnknownRequestKeyRejected | packages/sdk/src/types.ts:46-56 | any top-level key outside the seven declared ones makes a request invalid |
| Schemas.TemperatureBounds | packages/sdk/src/types.ts:52 | setting `temperature` on a valid request keeps it valid exactly when 0 <= t <= 2, bounds included |
| Schemas.MaxTokensPositiveInteger | packages/sdk/src/types.ts:53 | setting `max_tokens` keeps a valid request valid exactly when the value is a positive integer |
| Schemas.EmptyMessagesAccepted | packages/sdk/src/types.ts:49 | a request whose only key is an empty `messages` list is valid |
| Http.IsRetriableStatus | packages/sdk/src/http.ts:22-24 | true exactly for 408, 429 and 500..599; never for a 2xx, 401 or 403 |
| Http.ParseRetryAfterMs | packages/sdk/src/http.ts:12-20 | never negative; no header or an empty header gives nothing; numeric seconds give max(0, 1000·s); otherwise a parseable date gives max(0, date − now), and anything else gives nothing |
| Http.Pow2Monotone | packages/sdk/src/http.ts:48 | powers of two do not decrease |
| Http.BackoffBase | packages/sdk/src/http.ts:45-48 | the exponential part of the back-off lies between 250 and 5000 ms |
| Http.BackoffMonotone | packages/sdk/src/http.ts:45-48 | the exponential part never decreases from one attempt to the next |
| Http.BackoffMs | packages/sdk/src/http.ts:45-51 | the full delay lies in [exp, 1.2·exp) for a random number in [0, 1) |
| Http.Jitter | packages/sdk/src/http.ts:49 | the jitter lies in [0, 0.2·exp) |
| Http.TrimTrailingSlashes | packages/sdk/src/http.ts:64 | the result is a prefix that does not end in '/', and every character removed is '/' |
| Http.TrimLeadingSlashes | packages/sdk/src/http.ts:64 | the result is a suffix that does not start with '/', and every character removed is '/' |
| Http.JoinUrl | packages/sdk/src/http.ts:64 | the request URL is a prefix of the base that keeps everything but its trailing slashes, one '/', then a suffix of the path that keeps everything but its leading slashes |
| Http.RequestHeaders | packages/sdk/src/http.ts:65-70 | the header names are exactly content-type, authorization, user-agent when a non-empty one is configured, and the caller's; caller headers override; otherwise `authorization` is "Bearer key", `content-type` is JSON and `user-agent` is the configured value |
| Http.MaxAttempts | packages/sdk/src/http.ts:74 | the attempt bound is at least 1 and at least maxRetries + 1 |
| Http.AttemptOnce | packages/sdk/src/http.ts:75-138 | one pass of the attempt loop either ends the whole call, as the specification's trace does from this attempt, or sleeps the given delay and leaves the rest to the next attempt |
| Http.HttpJson | packages/sdk/src/http.ts:53-142 | the loop as written produces the specification's trace (result, fetch calls, delays); calls never exceed max(1, maxRetries+1); an empty key fails with the auth error before any fetch |
| Http.AttemptsBound | packages/sdk/src/http.ts:74 | the calls from attempt a on stay within the remaining bound, and there is at most one sleep per call |
| Http.SleepsFollowPolicy | packages/sdk/src/http.ts:93-131 | every sleep follows a retriable outcome; after a 429 it is the parsed `Retry-After` when there is one, otherwise `backoffMs(attempt)` |
| Http.ImmediateFailures | packages/sdk/src/http.ts:89-134 | on any attempt within the bound, an abort or timeout is rethrown unchanged; 401/403 give the auth error with the status; another non-retriable non-2xx gives the API error with status and parsed body; each ends the call after that one fetch, with no sleep |
| Http.PersistentFailureExhausts | packages/sdk/src/http.ts:101-141 | as written, when every attempt fails retriably, the loop sleeps after each attempt, the last one included, and ends in "Exhausted retries." |
| Http.CorrectedSurfacesLastFailure | packages/sdk/src/http.ts:101-141 | with the guard `attempt < maxAttempts`, the same failures surface as the last attempt's own error, after one sleep fewer |
| Http.NegativeRetriesSurface | packages/sdk/src/http.ts:74-105 | with maxRetries < 0, one attempt is made and its retriable failure surfaces with no sleep |
| Http.RetryThenSucceed | packages/sdk/test/retry.test.ts:19-58 | replies 500, 500, 200 with maxRetries = 3 return the parsed body after exactly 3 calls and 2 sleeps |
| Sse.FindBoundaryFrom | packages/sdk/src/sse.ts:15 | a boundary that is found is a "\n\n" at or after the start |
| Sse.FindBoundary | packages/sdk/src/sse.ts:15 | `indexOf('\n\n')` finds a "\n\n" |
| Sse.FindBoundaryFromFirst | packages/sdk/src/sse.ts:15 | no "\n\n" starts between the start and the boundary found, and none at all when nothing is found |
| Sse.FindBoundaryFirst | packages/sdk/src/sse.ts:14-18 | events are cut at the first "\n\n", and the buffer is kept whole while it contains none |
| Sse.CrLfBlankLineNoBoundary | packages/sdk/src/sse.ts:14-18 | a block ended by the CRLF blank line "\r\n\r\n" holds no "\n\n", so it is not an event boundary and yields nothing |
| Sse.FindBoundaryFromExtend | packages/sdk/src/sse.ts:15 | appending text does not move a boundary already found |
| Sse.FindBoundaryExtend | packages/sdk/src/sse.ts:12-15 | appending a chunk does not move the first boundary of the buffer |
| Sse.IndexOfNewline | packages/sdk/src/sse.ts:20 | the first '\n', or none when there is no '\n' |
| Sse.DropCarriageReturn | packages/sdk/src/sse.ts:20 | removes at most a final '\r' and adds no '\n' |
| Sse.SplitLines | packages/sdk/src/sse.ts:20 | `split(/\r?\n/)` gives at least one line and no line contains '\n' |
| Sse.SplitLinesFirst | packages/sdk/src/sse.ts:20 | the first line is the text before the first '\n' without a final '\r'; the rest is split the same way |
| Sse.SplitLinesJoin | packages/sdk/src/sse.ts:20 | without '\r', joining the lines with '\n' gives the text back |
| Sse.SplitJoinedLines | packages/sdk/src/sse.ts:20 | splitting lines joined by '\n' gives them back, when no line but the last ends in '\r' |
| Sse.SplitCrLfLines | packages/sdk/src/sse.ts:20 | splitting lines joined by "\r\n" gives them back |
| Sse.DataOf | packages/sdk/src/sse.ts:22-24 | a line contributes data exactly when it starts with "data:", and the data is the rest with leading whitespace trimmed |
| Sse.DataLines | packages/sdk/src/sse.ts:21-24 | there are no more data lines than lines |
| Sse.DataLinesSnoc | packages/sdk/src/sse.ts:22-24 | the data lines come in encounter order |
| Sse.DataLinesAppend | packages/sdk/src/sse.ts:22-24 | the data lines of two line lists are those of the first, then those of the second |
| Sse.Emit | packages/sdk/src/sse.ts:25-27 | an event is yielded exactly when its joined data is non-empty, and it carries that data |
| Sse.EventsNonEmpty | packages/sdk/src/sse.ts:26 | no yielded event has empty data |
| Sse.Leftover | packages/sdk/src/sse.ts:14-31 | what stays in the buffer holds no "\n\n" |
| Sse.EventsStep | packages/sdk/src/sse.ts:14-28 | the first complete event is taken off the front, whatever text follows |
| Sse.EventsSplit | packages/sdk/src/sse.ts:9-29 | the events of a + b are the events of a, then those of a's leftover followed by b |
| Sse.EventsUnfold | packages/sdk/src/sse.ts:14-18 | one cut of the buffer: the first event, then the rest; the leftover is that of the rest |
| Sse.EventsExtend | packages/sdk/src/sse.ts:9-29 | more text only adds events at the end |
| Sse.EventData | packages/sdk/src/sse.ts:20-25 | the line loop produces the event's specified data |
| Sse.TakeEvents | packages/sdk/src/sse.ts:14-28 | the inner loop yields every complete event of the buffer and leaves the leftover |
| Sse.ParseSse | packages/sdk/src/sse.ts:4-32 | the reader yields the events of the concatenated text, so chunk boundaries do not matter and the trailing incomplete text is dropped |
| Sse.ReadChunk | packages/sdk/src/sse.ts:12-28 | draining after each chunk gives the same events as draining once at the end |
| Sse.SingleDataPayload | packages/sdk/src/sse.ts:20-25 | the data of "data: x" is x |
| Sse.SingleDataEvent | packages/sdk/test/sse.test.ts:15-19 | "data: x" followed by a blank line yields exactly the event x; "[DONE]" is yielded verbatim |
| Client.NewClient | packages/sdk/src/client.ts:51-60 | fails with the auth error exactly when the resolved key is missing or blank; otherwise each setting is the explicit option, else the environment, else the default (https://api.neorium.ai, neorium-1, 30000 ms, 2 retries, 5 tool iterations) |
| Client.NewClientDefaults | packages/sdk/src/client.ts:25-60 | with only a key and an empty environment, every setting takes its default |
| Client.NormalizeRequest | packages/sdk/src/client.ts:70-76 | fails exactly on an invalid request; otherwise keeps an explicit `model`, adds the default model only when it is absent, strips the messages, and leaves every other key as it was |
| Client.NormalizeIdempotent | packages/sdk/src/client.ts:70-76 | normalising a normalised request changes nothing |
| Client.StreamFlagForced | packages/sdk/src/client.ts:86 | the `stream` flag that is sent is the one forced (false for `create`, true for `stream`), and the caller's flag never changes whether the request is accepted |
| Client.ArgsText | packages/sdk/src/client.ts:136 | empty argument text is read as "{}", and any other text is read unchanged |
| Client.ToolMessage | packages/sdk/src/client.ts:147-151 | a tool result is a valid `tool`-role message with the call's id and the result's JSON text, and nothing else |
| Client.CallTool | packages/sdk/src/client.ts:128-151 | an unknown tool or unparseable arguments fail with the matching 400 error without running anything; a handler that returns gives the tool message with the call's id and the JSON text of the result; a handler that throws fails with its own exception, recorded as run |
| Client.BatchStep | packages/sdk/src/client.ts:127-152 | the batch runs one call after another, in listed order |
| Client.BatchFailureFinal | packages/sdk/src/client.ts:130-143 | once a call has failed, later calls neither run nor add messages |
| Client.BatchShape | packages/sdk/src/client.ts:127-152 | a batch that succeeds has one message and one handler run per call, in call order, each answering its call |
| Client.UnknownToolAborts | packages/sdk/src/client.ts:129-132 | an unknown tool ends the batch with its error, keeping only what earlier calls did |
| Client.InvalidArgumentsAbort | packages/sdk/src/client.ts:134-143 | arguments that are not JSON end the batch with their error, keeping only what earlier calls did |
| Client.HandlerErrorAborts | packages/sdk/src/client.ts:145-146 | a handler that throws ends the batch with its exception: it counts as run, nothing is appended for its call, and no later handler runs |
| Client.RunToolCalls | packages/sdk/src/client.ts:125-152 | the loop over the calls produces the batch specification |
| Client.ToolCallsOf | packages/sdk/src/client.ts:116-124 | the requested calls are all well-formed tool calls |
| Client.FirstMessage | packages/sdk/src/client.ts:112-113 | choice 0's message, when present, is a valid response message |
| Client.Turn | packages/sdk/src/client.ts:93-154 | a turn goes on only below the limit, with handlers and with something to append; a turn that returns a response returns a validated one |
| Client.ReplyResult | packages/sdk/src/client.ts:110-117 | the result for a reply that runs no tools is the parsed reply exactly when the reply passed the schema; otherwise the transport's exception or the schema error |
| Client.TurnEnds | packages/sdk/src/client.ts:93-121 | a reply that is an exception, fails the schema, has no message, has no tool calls, or comes without handlers ends the turn with that exception, the schema error or the parsed reply, running nothing; a reply asking for tools on the last iteration ends it with the "exceeded" error carrying its tool calls |
| Client.ToolTurn | packages/sdk/src/client.ts:119-154 | on the last iteration the tool calls fail with the "exceeded" error carrying them, before any handler runs; before it, the handlers run are the batch's, and only a turn that continues appends |
| Client.TurnAppends | packages/sdk/src/client.ts:147-154 | a turn that goes on appends choice 0's message, then one tool message per requested call, in call order, each answering its call |
| Client.ChatTurn | packages/sdk/src/client.ts:93-154 | the loop body produces the turn specification |
| Client.CreateChatCompletion | packages/sdk/src/client.ts:78-159 | the `for` loop as written produces the specification's trace: result, request bodies and handler runs |
| Client.LoopBodiesBound | packages/sdk/src/client.ts:92 | the loop sends at most maxIters + 1 requests |
| Client.LoopKeepsRequest | packages/sdk/src/client.ts:105 | every request sent is the normalised request with the history in place of its messages |
| Client.LoopHistoryGrows | packages/sdk/src/client.ts:105-154 | the first request carries the caller's messages, and each request's history strictly extends the previous one, so earlier entries never change |
| Client.LoopResultValid | packages/sdk/src/client.ts:110-117 | a successful result passed the response schema |
| Client.CreateBodies | packages/sdk/src/client.ts:86-105 | `create` sends at most limit + 1 requests, each the normalised request with `stream: false` and the history so far, starting from the caller's messages; a successful result is a validated response |
| Client.NoHandlersSingleRequest | packages/sdk/src/client.ts:117 | without handlers, exactly one request is sent, no handler runs, and the result is that request's reply: its exception, the schema error or the parsed reply |
| Client.LoopEndsOnFinalReply | packages/sdk/src/client.ts:92-117 | on any iteration within the limit, a reply that does not go on to run tools ends `create` after that request with the reply's own result |
| Client.NegativeLimitUnexpectedExit | packages/sdk/src/client.ts:92-158 | a negative iteration limit sends nothing and ends in "Unexpected tool loop exit." |
| Client.PersistentToolCallsLoop | packages/sdk/src/client.ts:92-121 | a transport whose every reply asks for tools, with batches that complete, gets one request per iteration up to the limit; every batch but the last turn's runs, in order; `create` then fails with the "exceeded" error carrying the last reply's tool calls |
| Client.PersistentTurn | packages/sdk/src/client.ts:119-154 | a turn whose reply asks for tools fails with the "exceeded" error on the last iteration and otherwise, when its batch completes, goes on after running the whole batch |
| Client.SchemeSeparator | packages/sdk/src/client.ts:168 | a found "://" lies at or after the start |
| Client.SlashFrom | packages/sdk/src/client.ts:168 | the position found is a '/' or the end of the text |
| Client.Origin | packages/sdk/src/client.ts:168 | the origin of a URL is a prefix of it |
| Client.OriginOf | packages/sdk/src/client.ts:168 | the origin of "scheme://host/rest" is "scheme://host" |
| Client.NoTrailingSlash | packages/sdk/src/client.ts:168 | a base without a trailing '/' loses nothing |
| Client.CorrectedUrl | packages/sdk/src/http.ts:64 | resolved as `httpJson` does, the stream URL is the base followed by /v1/chat/completions |
| Client.StreamUrlDropsBasePath | packages/sdk/src/client.ts:168 | as written, a base with a path such as https://h/neo streams from https://h/v1/chat/completions, not from the base's own path |
| Client.StreamUrlWithoutPath | packages/sdk/src/client.ts:168 | for a base with no path, the as-written and corrected URLs agree |
| Client.StreamHeaders | packages/sdk/src/client.ts:177-180 | the stream sends the JSON content type and the bearer key, and no user agent |
| Client.StreamFailure | packages/sdk/src/client.ts:185-188 | a non-2xx reply or a missing body fails with the API error carrying the status |
| Client.YieldStep | packages/sdk/src/client.ts:190-194 | events are handled one after another, in order |
| Client.YieldFinal | packages/sdk/src/client.ts:191-192 | once the stream has ended, later events change nothing |
| Client.DoneIgnoresRest | packages/sdk/src/client.ts:191 | the first "[DONE]" finishes the stream: it is not yielded, and nothing after it is |
| Client.YieldOpen | packages/sdk/src/client.ts:190-194 | while the stream stays open, every event is yielded as its parsed data, in order, and none of them was "[DONE]" |
| Client.YieldChunks | packages/sdk/src/client.ts:190-194 | the `for await` loop produces the specified chunks and ending |
| Client.StreamChatCompletion | packages/sdk/src/client.ts:161-198 | the generator makes one request, with no retry, and yields exactly what the specification says |
| Client.DoneOnlyStream | packages/sdk/src/client.ts:191 | a body holding only "data: [DONE]" ends quietly with nothing yielded |
| Client.DefaultSystemMessage | packages/sdk/src/client.ts:201-203 | the default message is a valid system-role message carrying the default prompt |
| Client.DefaultSystemMessageFirst | packages/sdk/src/client.ts:201-203 | putting it before a valid request's messages keeps the request valid |
| Registry.ToolName | packages/prompts/src/index.ts:64-149 | every handled tool's name is one of the advertised names, and none is `neo_glossary` |
| Registry.ToolOf | packages/sdk/src/tools/registry.ts:191-197 | each handler name selects the tool with that name |
| Registry.ToolOfName | packages/sdk/src/tools/registry.ts:191-197 | looking a tool up by its own name gives that tool back |
| Registry.RpcUrl | packages/sdk/src/tools/registry.ts:58-69 | the RPC endpoint is the caller's `rpcUrl`, or the mainnet URL when it is absent |
| Registry.NumberOr | packages/sdk/src/tools/registry.ts:113 | an optional number is the given number when present, its default when absent |
| Registry.Checklist | packages/sdk/src/tools/registry.ts:93-97 | `hasSupply` is the truthiness of `supply.value` |
| Registry.SliceEnd | packages/sdk/src/tools/registry.ts:173 | `slice(0, n)` keeps min(trunc(n), length) entries for n >= 0, never more than there are |
| Registry.TopHolders | packages/sdk/src/tools/registry.ts:173 | an array or string `value` gives its prefix of `slice(0, topN)`'s length; no `value`, null, or any other value (whose missing `slice` throws and is caught) gives [] |
| Registry.HolderSnapshotSteps | packages/sdk/src/tools/registry.ts:158-184 | the handler's steps (parse, chain check, two RPC calls, the reassigned `topHolders`) give the specified result |
| Registry.Handlers | packages/sdk/src/tools/registry.ts:191-197 | there are handlers for exactly the five names, each running the tool of that name |
| Registry.RegisterDeFiTools | packages/sdk/src/tools/registry.ts:186-203 | the six advertised tools are always listed; handlers are absent exactly with `schemasOnly`, and otherwise cover exactly the five names |
| Registry.ToolsWithoutHandler | packages/prompts/src/index.ts:134 | six tools are advertised and five handled; only `neo_glossary` has no handler |
| Registry.GlossaryUnknownTool | packages/sdk/src/tools/registry.ts:191-202 | a model call to `neo_glossary` with the default handlers fails as an unknown tool, before anything runs |
| Registry.InvalidArgumentsRejected | packages/sdk/src/tools/registry.ts:60-184 | arguments that fail the tool's schema make the handler fail with the schema error |
| Registry.UnknownKeyRejected | packages/sdk/src/tools/registry.ts:10-42 | an argument key outside the tool's schema is rejected |
| Registry.RequiredFieldChecked | packages/sdk/src/tools/registry.ts:10-42 | a missing or non-string required argument is rejected |
| Registry.SameFieldsValid | packages/sdk/src/tools/registry.ts:10-42 | replacing one string argument with another string never changes validity |
| Registry.OtherChainNoNetwork | packages/sdk/src/tools/registry.ts:60-184 | for a chain other than solana, the result does not depend on the services and is exactly the note plus each tool's echoed inputs, as given: chain and address, chain and the two mints for the swap, chain and signature for the transaction |
| Registry.RunByView | packages/sdk/src/tools/registry.ts:60-184 | a handler's result depends only on the arguments it reads, after defaults, and on the chain compared case-insensitively |
| Registry.ChainKeyDecides | packages/sdk/src/tools/registry.ts:62 | chains with the same key agree on being solana, and a non-solana chain is determined by its key |
| Registry.ExplainTokenByView | packages/sdk/src/tools/registry.ts:60-76 | explain_token depends only on what it reads |
| Registry.RiskScanByView | packages/sdk/src/tools/registry.ts:78-101 | risk_scan depends only on what it reads |
| Registry.SimulateSwapByView | packages/sdk/src/tools/registry.ts:103-124 | simulate_swap depends only on what it reads |
| Registry.ExplainTransactionByView | packages/sdk/src/tools/registry.ts:126-147 | explain_transaction depends only on what it reads |
| Registry.HolderSnapshotByView | packages/sdk/src/tools/registry.ts:158-184 | holder_snapshot depends only on what it reads |
| Registry.ChainCaseInsensitive | packages/sdk/src/tools/registry.ts:62 | any spelling of "solana", in any case, behaves exactly as "solana" |
| Registry.RpcUrlDefault | packages/sdk/src/tools/registry.ts:58-69 | leaving `rpcUrl` out is the same as passing the mainnet URL |
| Registry.SlippageDefault | packages/sdk/src/tools/registry.ts:113-123 | without `slippageBps`, the quote is requested with 50 bps |
| Registry.SnapshotHolders | packages/sdk/src/tools/registry.ts:167-183 | a failing supply call fails the handler; otherwise the snapshot holds the supply and `topHolders` is the largest accounts cut to `topN` (default 5), or [] when that lookup throws |
| Registry.HasSupplyTruthy | packages/sdk/src/tools/registry.ts:94 | `hasSupply` is false exactly for a missing, null, false, 0 or "" `supply.value` |
| Prompts.RuleLines | packages/sdk/src/prompts.ts:15 | one "- r" line per rule, in order |
| Prompts.PushRules | packages/sdk/src/prompts.ts:15 | the push loop appends exactly the rule lines |
| Prompts.BuildPrompt | packages/sdk/src/prompts.ts:8-19 | the `extra` assembly produces the specified prompt |
| Prompts.BuildNeoSystemPrompt | packages/sdk/src/prompts.ts:8-19 | the system prompt is that assembly on the system text |
| Prompts.BuildNeoHolderPrompt | packages/sdk/src/prompts.ts:21-32 | the holder prompt is the same assembly on the holder text, so the two builders differ only in their base text |
| Prompts.PromptUnchanged | packages/sdk/src/prompts.ts:8-19 | the base text comes back unchanged exactly when there is neither a non-empty hint nor a non-empty rule list |
| Prompts.JoinHead | packages/sdk/src/prompts.ts:18 | a join starts with its first part |
| Prompts.ChainLineFirst | packages/sdk/src/prompts.ts:10-18 | with a hint, the prompt continues the base text with a blank line and then the chain line, and contains "Prefer <hint>-first" |
| Prompts.MentionsPrefer | packages/sdk/test/prompts.test.ts:6-7 | the chain line contains "Prefer <hint>-first" at a known place |
| Prompts.RulesInOrder | packages/sdk/src/prompts.ts:13-16 | after the chain line (if any) come "EXTRA RULES:" and then "- r" for each rule, in order, and nothing else |
| Extension.RateLimiter.constructor | extensions/neorium-copilot/src/extension.ts:67-68 | `lastAt` starts at 0 and nothing has been let through yet |
| Extension.RateLimiter.CanRun | extensions/neorium-copilot/src/extension.ts:69-74 | refuses exactly when now − lastAt < minIntervalMs, and then changes nothing; accepting sets lastAt to now and records the run |
| Extension.SpacedApart | extensions/neorium-copilot/src/extension.ts:66-75 | with a non-negative interval, any two runs let through are at least the interval apart, whatever the clock did |
| Extension.AllowsLater | extensions/neorium-copilot/src/extension.ts:71 | a run allowed at one time is allowed at any later time |
| Extension.RunChatGate | extensions/neorium-copilot/src/extension.ts:83-86 | `runChat` goes on exactly when the limiter accepts and a non-empty key is present; a refused run leaves the limiter as it was; an accepted one records `now`, even when the key is then missing |

## Left out

- Byte decoding (`TextDecoder` in sse.ts): the reader is modelled on the decoded text chunks, so a multi-byte character split across chunks is out of scope.
- Timers and cancellation:
  - not modelled: `sleep`, `setTimeout`, `AbortController`, `mergeSignals` (http.ts:26-43, 160-177) and the per-attempt timeout;
  - an abort or timeout is one outcome kind, `FetchAborted`;
  - in the stream, a timeout that fires while the body is being read is not modelled.
- Network and body reads:
  - `fetch`, `resp.text()` and `resp.json()` are oracles;
  - `safeReadText` and `safeReadJson` (http.ts:144-158) become the body text or nothing.
  - When `resp.json()` fails, the body has already been consumed, so the text fallback yields `undefined`. The model therefore records no body for an error reply whose text is not JSON.
- Floating point:
  - delays and numbers are real numbers;
  - `Math.random()` is an oracle with values in [0, 1);
  - `Date.parse` and `Date.now()` are oracles.
- URL parsing:
  - the stream URL is modelled for absolute bases of the form scheme://host[/path];
  - not modelled: WHATWG URL normalisation (case, ports, dot segments, percent-encoding, query and fragment) and the exception for a malformed base.
- `JSON.parse` and `JSON.stringify` are uninterpreted oracles. `JSON.stringify(undefined)`, which yields undefined rather than a string, is therefore not distinguished.
- Handler maps are maps from names to functions. A lookup of a name inherited from `Object.prototype` (such as "constructor") is not modelled.
- The prompt texts and tool schemas of packages/prompts are parameters, or names only. packages/prompts is not part of this model beyond the six tool names.
- `ToolCallSchema` from tools/types.js is not part of this model. Each tool call in a response that passed the response schema is taken as already valid.
- The Solana RPC (`solanaRpc`, registry.ts:44-56) and the Jupiter quote (registry.ts:114-123) are oracles. Their URLs and query strings are not modelled.
- The editor extension beyond `RateLimiter` and the first two checks of `runChat` (VS Code UI, secrets, clipboard) is not part of this model. The CLI (packages/cli) is not part of this model either.
- Registry.TopHolders: a string `value` is sliced as a sequence of Unicode scalar values, where JavaScript slices UTF-16 code units. The two differ only for characters outside the Basic Multilingual Plane.
- Client.Create: the iteration limit is a JavaScript number, modelled as an integer. A fractional limit such as 2.5 never equals `iter`, so the source runs three turns and then fails with "Unexpected tool loop exit." instead of the "exceeded" error. `Infinity` removes the bound, and NaN enters no iteration.
- Http.MaxAttempts: `maxRetries` is a JavaScript number, modelled as an integer. A NaN `maxRetries` makes the bound NaN, so the source makes no fetch and throws "Exhausted retries.". A fractional one gives a fractional bound.
- Base.ToLower: `toLowerCase` is modelled on ASCII letters only. No non-ASCII character lowercases to one of the letters of "solana", so comparisons with "solana" are exact.
- The `signal` option of `create` and `stream`, and the `ctx` passed to handlers, are cancellation plumbing and are left out.

## Findings

| source | as written | input that shows it | evidently intended | confidence | as-written member | corrected member |
|---|---|---|---|---|---|---|
| packages/sdk/src/http.ts:101,114,129,141 | the retry guard `attempt <= maxRetries + 1` is always true inside a loop bounded by max(1, maxRetries + 1). A persistent 429, retriable status or network TypeError therefore sleeps even after the last attempt, and the call ends in the generic "Exhausted retries." error | maxRetries = 0 and one fetch answering 503: the loop sleeps once, then throws "Exhausted retries." instead of the API error with status 503 | retry only while another attempt remains, so that the last failure surfaces as its own rate-limit, API or network error with no useless sleep | high (not executed) | Http.PersistentFailureExhausts | Http.CorrectedSurfacesLastFailure |
| packages/sdk/src/client.ts:168 | the stream resolves the absolute path "/v1/chat/completions" against the base, which discards the base's own path, while `httpJson` (http.ts:64) strips the leading slashes and keeps it | base URL "https://gw.example.com/neo": `create` posts to https://gw.example.com/neo/v1/chat/completions, `stream` to https://gw.example.com/v1/chat/completions | join the path the way `httpJson` does, keeping the base path | medium (not executed) | Client.StreamUrlDropsBasePath | Client.CorrectedUrl |
