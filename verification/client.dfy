/** NeoriumClient of packages/sdk/src/client.ts: configuration resolution,
    request normalisation, the tool-calling loop of `chat.completions.create`
    and the single request of `chat.completions.stream`.

    The transport (`httpJson`, modelled in Http) and the tool handlers are
    oracles: the transport answers call number `i` carrying body `body` with
    `transport(i, body)`, a handler answers its parsed arguments.
    `JSON.parse` and `JSON.stringify` are the oracles `parse` and
    `stringify`. */
module Client {
  import opened Base
  import opened Errors
  import opened Env
  import opened Schemas
  import opened Sse
  import Http

  const DefaultBaseUrl := "https://api.neorium.ai"
  const DefaultModel := "neorium-1"
  const DefaultTimeoutMs: real := 30000.0
  const DefaultMaxRetries: int := 2
  const DefaultMaxToolIterations: int := 5
  const ChatPath := "/v1/chat/completions"

  /** NeoriumClientOptions; an absent option is `None`. The `fetch`
      implementation is the transport oracle passed to each operation. */
  datatype ClientOptions = ClientOptions(
    apiKey: Option<string>,
    baseUrl: Option<string>,
    model: Option<string>,
    timeoutMs: Option<real>,
    maxRetries: Option<int>,
    userAgent: Option<string>,
    maxToolIterations: Option<int>)

  /** The readonly fields a constructed client holds. */
  datatype ClientConfig = ClientConfig(
    apiKey: string,
    baseUrl: string,
    model: string,
    timeoutMs: real,
    maxRetries: int,
    userAgent: Option<string>,
    maxToolIterations: int)

  /** `new NeoriumClient(options)`: every setting is the explicit option,
      else the environment, else the built-in default; the key must be
      present and not blank. An explicit key is never replaced by the
      environment's, even when it is empty. */
  function NewClient(options: ClientOptions, env: EnvMap, toNumber: string -> Option<real>): (r: Result<ClientConfig, Thrown>)
    ensures var key := options.apiKey.Or(ReadNeoApiKeyFromEnv(env));
            && (r.Ok? <==> RequireNeoApiKey(key).Ok?)
            && (r.Ok? ==> r.value.apiKey == key.value)
            && (r.Err? ==> r.error == Neo(NewError(Auth, MissingKeyMessage, NoOptions)))
    ensures r.Ok? && options.baseUrl.Some? ==> r.value.baseUrl == options.baseUrl.value
    ensures r.Ok? && options.baseUrl.None? && "NEO_BASE_URL" in env ==> r.value.baseUrl == env["NEO_BASE_URL"]
    ensures r.Ok? && options.baseUrl.None? && "NEO_BASE_URL" !in env ==> r.value.baseUrl == DefaultBaseUrl
    ensures r.Ok? && options.model.Some? ==> r.value.model == options.model.value
    ensures r.Ok? && options.model.None? && "NEO_MODEL" in env ==> r.value.model == env["NEO_MODEL"]
    ensures r.Ok? && options.model.None? && "NEO_MODEL" !in env ==> r.value.model == DefaultModel
    ensures r.Ok? && options.timeoutMs.Some? ==> r.value.timeoutMs == options.timeoutMs.value
    ensures r.Ok? && options.timeoutMs.None? ==>
              r.value.timeoutMs == ReadNeoTimeoutMsFromEnv(env, toNumber).GetOr(DefaultTimeoutMs)
    ensures r.Ok? ==> r.value.maxRetries == (if options.maxRetries.Some? then options.maxRetries.value else DefaultMaxRetries)
    ensures r.Ok? ==> (r.value.maxToolIterations ==
                        if options.maxToolIterations.Some? then options.maxToolIterations.value else DefaultMaxToolIterations)
    ensures r.Ok? ==> r.value.userAgent == options.userAgent
  {
    var key := options.apiKey.Or(ReadNeoApiKeyFromEnv(env));
    match RequireNeoApiKey(key)
    case Err(e) => Err(e)
    case Ok(apiKey) =>
      Ok(ClientConfig(
        apiKey,
        options.baseUrl.Or(ReadNeoBaseUrlFromEnv(env)).GetOr(DefaultBaseUrl),
        options.model.Or(ReadNeoModelFromEnv(env)).GetOr(DefaultModel),
        options.timeoutMs.Or(ReadNeoTimeoutMsFromEnv(env, toNumber)).GetOr(DefaultTimeoutMs),
        options.maxRetries.GetOr(DefaultMaxRetries),
        options.userAgent,
        options.maxToolIterations.GetOr(DefaultMaxToolIterations)))
  }

  /** With only a key given and an empty environment, every setting takes
      its built-in default. */
  lemma {:induction false} NewClientDefaults(key: string, toNumber: string -> Option<real>)
    requires exists i :: 0 <= i < |key| && !IsJsWhitespace(key[i])
    ensures NewClient(ClientOptions(Some(key), None, None, None, None, None, None), map[], toNumber)
            == Ok(ClientConfig(key, DefaultBaseUrl, DefaultModel, DefaultTimeoutMs, DefaultMaxRetries, None, DefaultMaxToolIterations))
  {
  }

  /** `normalizeRequest`: the schema's parse (which rejects an invalid
      request with a ZodError), then the client's model when the request
      names none. */
  function NormalizeRequest(request: map<string, Json>, defaultModel: string): (r: Result<map<string, Json>, Thrown>)
    ensures r.Err? <==> !RequestValid(request)
    ensures r.Err? ==> r.error == SchemaErr
    ensures r.Ok? ==> RequestValid(r.value) && r.value.Keys == request.Keys + {"model"}
    ensures r.Ok? ==> r.value["model"] == (if "model" in request then request["model"] else JStr(defaultModel))
    ensures r.Ok? ==> r.value["messages"] == StripRequest(request)["messages"]
    ensures r.Ok? ==> forall k :: k in request && k != "messages" && k != "model" ==> r.value[k] == request[k]
  {
    if !RequestValid(request) then Err(SchemaErr)
    else
      var parsed := StripRequest(request);
      Ok(if "model" in parsed then parsed else parsed["model" := JStr(defaultModel)])
  }

  /** Normalising a normalised request changes nothing. */
  lemma {:induction false} NormalizeIdempotent(request: map<string, Json>, defaultModel: string)
    requires NormalizeRequest(request, defaultModel).Ok?
    ensures NormalizeRequest(NormalizeRequest(request, defaultModel).value, defaultModel)
            == NormalizeRequest(request, defaultModel)
  {
    var n := NormalizeRequest(request, defaultModel).value;
    StripRequestIdempotent(request);
    var s := StripRequest(n);
    assert s["messages"] == n["messages"];
    assert s == n;
  }

  /** `create` and `stream` overwrite the caller's `stream` flag: the
      normalised request carries the flag they set, and whether it is
      accepted does not depend on the flag. */
  lemma {:induction false} StreamFlagForced(request: map<string, Json>, defaultModel: string, b: bool, c: bool)
    ensures var n := NormalizeRequest(request["stream" := JBool(b)], defaultModel);
            n.Ok? ==> n.value["stream"] == JBool(b)
    ensures NormalizeRequest(request["stream" := JBool(b)], defaultModel).Ok?
            <==> NormalizeRequest(request["stream" := JBool(c)], defaultModel).Ok?
  {
    var rb, rc := request["stream" := JBool(b)], request["stream" := JBool(c)];
    assert forall k :: k in rb && k != "stream" ==> k in rc && rb[k] == rc[k];
    assert forall k :: k in rc && k != "stream" ==> k in rb && rb[k] == rc[k];
  }

  // ---------------------------------------------------------------------
  // Tool calls

  type Handler = Json -> Result<Json, Thrown>

  /** A handler that ran, and the arguments it was given. */
  datatype Invocation = Invocation(tool: string, args: Json)

  function CallId(c: Json): string
    requires ToolCallValid(c)
  {
    c.fields["id"].s
  }

  function CallName(c: Json): string
    requires ToolCallValid(c)
  {
    c.fields["function"].fields["name"].s
  }

  function CallArguments(c: Json): string
    requires ToolCallValid(c)
  {
    c.fields["function"].fields["arguments"].s
  }

  /** `call.function.arguments || '{}'`: empty text stands for no arguments. */
  function ArgsText(arguments: string): (r: string)
    ensures r != ""
    ensures arguments != "" ==> r == arguments
  {
    if arguments == "" then "{}" else arguments
  }

  /** The `tool`-role message recording one call's result. */
  function ToolMessage(id: string, content: string): (m: Json)
    ensures MessageValid(m, true) && m.fields.Keys == {"role", "tool_call_id", "content"}
    ensures m.fields["role"] == JStr("tool") && m.fields["tool_call_id"] == JStr(id) && m.fields["content"] == JStr(content)
  {
    JObj(map["role" := JStr("tool"), "tool_call_id" := JStr(id), "content" := JStr(content)])
  }

  function UnknownToolError(name: string): Thrown
  {
    Neo(NewApiError("Unknown tool: " + name, Some(400), Some(JObj(map["toolName" := JStr(name)])), None))
  }

  function InvalidArgumentsError(name: string, arguments: string): Thrown
  {
    Neo(NewApiError("Invalid tool arguments JSON for tool " + name + ".", Some(400),
                    Some(JObj(map["toolName" := JStr(name), "arguments" := JStr(arguments)])),
                    Some(SyntaxErr(ArgsText(arguments)))))
  }

  /** What one tool call ends in. */
  datatype CallOutcome =
    | Done(message: Json, invocation: Invocation)
    | Failed(error: Thrown, invoked: seq<Invocation>)

  /** Handler `inv` ran for call `c` and answered it with the tool message `m`. */
  predicate Answered(c: Json, inv: Invocation, m: Json, handlers: map<string, Handler>, stringify: Json -> string)
    requires ToolCallValid(c)
  {
    && inv.tool == CallName(c) && CallName(c) in handlers
    && handlers[CallName(c)](inv.args).Ok?
    && m == ToolMessage(CallId(c), stringify(handlers[CallName(c)](inv.args).value))
  }

  /** One pass of the `for (const call of validatedCalls)` body. */
  function CallTool(c: Json, handlers: map<string, Handler>, parse: string -> Option<Json>, stringify: Json -> string): (r: CallOutcome)
    requires ToolCallValid(c)
    ensures CallName(c) !in handlers ==> r == Failed(UnknownToolError(CallName(c)), [])
    ensures CallName(c) in handlers && parse(ArgsText(CallArguments(c))).None? ==>
              r == Failed(InvalidArgumentsError(CallName(c), CallArguments(c)), [])
    ensures CallName(c) in handlers && parse(ArgsText(CallArguments(c))).Some? ==>
              var args := parse(ArgsText(CallArguments(c))).value;
              var out := handlers[CallName(c)](args);
              && (out.Ok? ==> r == Done(ToolMessage(CallId(c), stringify(out.value)), Invocation(CallName(c), args)))
              && (out.Err? ==> r == Failed(out.error, [Invocation(CallName(c), args)]))
    ensures r.Done? ==> Answered(c, r.invocation, r.message, handlers, stringify)
    ensures r.Failed? ==> |r.invoked| <= 1
  {
    var name := CallName(c);
    if name !in handlers then Failed(UnknownToolError(name), [])
    else
      match parse(ArgsText(CallArguments(c)))
      case None => Failed(InvalidArgumentsError(name, CallArguments(c)), [])
      case Some(args) =>
        match handlers[name](args)
        case Err(e) => Failed(e, [Invocation(name, args)])
        case Ok(v) => Done(ToolMessage(CallId(c), stringify(v)), Invocation(name, args))
  }

  predicate AllToolCalls(calls: seq<Json>)
  {
    forall i :: 0 <= i < |calls| ==> ToolCallValid(calls[i])
  }

  /** The tool messages of a batch, the handlers that ran, and the
      exception that ended it early, if any. */
  datatype Batch = Batch(failure: Option<Thrown>, messages: seq<Json>, invoked: seq<Invocation>)

  /** One more call of the batch: none once the batch has failed. */
  function Extend(b: Batch, c: Json, handlers: map<string, Handler>, parse: string -> Option<Json>, stringify: Json -> string): Batch
    requires ToolCallValid(c)
  {
    if b.failure.Some? then b
    else
      match CallTool(c, handlers, parse, stringify)
      case Done(m, inv) => Batch(None, b.messages + [m], b.invoked + [inv])
      case Failed(e, inv) => Batch(Some(e), b.messages, b.invoked + inv)
  }

  /** The batch loop over `calls`, one call at a time: the first failure
      ends it, and no later call runs. */
  function RunBatch(calls: seq<Json>, handlers: map<string, Handler>, parse: string -> Option<Json>, stringify: Json -> string): Batch
    requires AllToolCalls(calls)
  {
    if calls == [] then Batch(None, [], [])
    else Extend(RunBatch(calls[..|calls| - 1], handlers, parse, stringify), calls[|calls| - 1], handlers, parse, stringify)
  }

  /** The batch over the first `j + 1` calls extends the batch over the first `j`. */
  lemma {:induction false} BatchStep(calls: seq<Json>, j: nat, handlers: map<string, Handler>, parse: string -> Option<Json>, stringify: Json -> string)
    requires AllToolCalls(calls) && j < |calls|
    ensures AllToolCalls(calls[..j]) && AllToolCalls(calls[..j + 1])
    ensures RunBatch(calls[..j + 1], handlers, parse, stringify)
            == Extend(RunBatch(calls[..j], handlers, parse, stringify), calls[j], handlers, parse, stringify)
  {
    assert calls[..j + 1][..j] == calls[..j] && calls[..j + 1][j] == calls[j];
  }

  /** Once a prefix of the batch has failed, the batch is over. */
  lemma {:induction false} BatchFailureFinal(calls: seq<Json>, j: nat, handlers: map<string, Handler>,
                                             parse: string -> Option<Json>, stringify: Json -> string)
    requires AllToolCalls(calls) && j <= |calls|
    requires RunBatch(calls[..j], handlers, parse, stringify).failure.Some?
    ensures RunBatch(calls, handlers, parse, stringify) == RunBatch(calls[..j], handlers, parse, stringify)
    decreases |calls|
  {
    if j < |calls| {
      var init := calls[..|calls| - 1];
      assert init[..j] == calls[..j];
      BatchFailureFinal(init, j, handlers, parse, stringify);
    } else {
      assert calls[..j] == calls;
    }
  }

  /** A batch that completes yields one tool message per call, in call
      order, each carrying its call's id and the JSON text of its
      handler's result; every handler ran once, in order. */
  lemma {:induction false} BatchShape(calls: seq<Json>, handlers: map<string, Handler>,
                                      parse: string -> Option<Json>, stringify: Json -> string)
    requires AllToolCalls(calls)
    requires RunBatch(calls, handlers, parse, stringify).failure.None?
    ensures var b := RunBatch(calls, handlers, parse, stringify);
            && |b.messages| == |calls| && |b.invoked| == |calls|
            && forall k :: 0 <= k < |calls| ==> Answered(calls[k], b.invoked[k], b.messages[k], handlers, stringify)
  {
    if calls != [] {
      var n := |calls| - 1;
      var init := calls[..n];
      var b, bi := RunBatch(calls, handlers, parse, stringify), RunBatch(init, handlers, parse, stringify);
      var r := CallTool(calls[n], handlers, parse, stringify);
      assert b == Extend(bi, calls[n], handlers, parse, stringify);
      assert bi.failure.None? && r.Done?;
      assert b.messages == bi.messages + [r.message] && b.invoked == bi.invoked + [r.invocation];
      BatchShape(init, handlers, parse, stringify);
      forall k | 0 <= k < |calls|
        ensures Answered(calls[k], b.invoked[k], b.messages[k], handlers, stringify)
      {
        if k < n {
          assert calls[k] == init[k] && b.invoked[k] == bi.invoked[k] && b.messages[k] == bi.messages[k];
        }
      }
    }
  }

  /** An unknown tool name aborts the batch: nothing is appended for it or
      after it, and no later handler runs. */
  lemma {:induction false} UnknownToolAborts(calls: seq<Json>, j: nat, handlers: map<string, Handler>,
                          parse: string -> Option<Json>, stringify: Json -> string)
    requires AllToolCalls(calls) && j < |calls|
    requires RunBatch(calls[..j], handlers, parse, stringify).failure.None?
    requires CallName(calls[j]) !in handlers
    ensures var b, before := RunBatch(calls, handlers, parse, stringify), RunBatch(calls[..j], handlers, parse, stringify);
            b == Batch(Some(UnknownToolError(CallName(calls[j]))), before.messages, before.invoked)
  {
    assert calls[..j + 1][..j] == calls[..j];
    BatchFailureFinal(calls, j + 1, handlers, parse, stringify);
  }

  /** Arguments that are not JSON abort the batch the same way. */
  lemma {:induction false} InvalidArgumentsAbort(calls: seq<Json>, j: nat, handlers: map<string, Handler>,
                              parse: string -> Option<Json>, stringify: Json -> string)
    requires AllToolCalls(calls) && j < |calls|
    requires RunBatch(calls[..j], handlers, parse, stringify).failure.None?
    requires CallName(calls[j]) in handlers && parse(ArgsText(CallArguments(calls[j]))).None?
    ensures var b, before := RunBatch(calls, handlers, parse, stringify), RunBatch(calls[..j], handlers, parse, stringify);
            b == Batch(Some(InvalidArgumentsError(CallName(calls[j]), CallArguments(calls[j]))), before.messages, before.invoked)
  {
    assert calls[..j + 1][..j] == calls[..j];
    BatchFailureFinal(calls, j + 1, handlers, parse, stringify);
  }

  /** A handler that throws aborts the batch with its own exception: the
      handler is recorded as run, nothing is appended for its call, and no
      later handler runs. */
  lemma {:induction false} HandlerErrorAborts(calls: seq<Json>, j: nat, handlers: map<string, Handler>,
                                              parse: string -> Option<Json>, stringify: Json -> string)
    requires AllToolCalls(calls) && j < |calls|
    requires RunBatch(calls[..j], handlers, parse, stringify).failure.None?
    requires CallName(calls[j]) in handlers && parse(ArgsText(CallArguments(calls[j]))).Some?
    requires handlers[CallName(calls[j])](parse(ArgsText(CallArguments(calls[j]))).value).Err?
    ensures var b, before := RunBatch(calls, handlers, parse, stringify), RunBatch(calls[..j], handlers, parse, stringify);
            var args := parse(ArgsText(CallArguments(calls[j]))).value;
            b == Batch(Some(handlers[CallName(calls[j])](args).error), before.messages,
                       before.invoked + [Invocation(CallName(calls[j]), args)])
  {
    assert calls[..j + 1][..j] == calls[..j];
    BatchFailureFinal(calls, j + 1, handlers, parse, stringify);
  }

  /** The batch loop as written: `toolMessages.push` per call, the first
      exception leaving the loop. */
  method RunToolCalls(calls: seq<Json>, handlers: map<string, Handler>, parse: string -> Option<Json>, stringify: Json -> string)
    returns (failure: Option<Thrown>, toolMessages: seq<Json>, invoked: seq<Invocation>)
    requires AllToolCalls(calls)
    ensures Batch(failure, toolMessages, invoked) == RunBatch(calls, handlers, parse, stringify)
  {
    failure, toolMessages, invoked := None, [], [];
    for j := 0 to |calls|
      invariant Batch(None, toolMessages, invoked) == RunBatch(calls[..j], handlers, parse, stringify)
    {
      var call := calls[j];
      BatchStep(calls, j, handlers, parse, stringify);
      var toolName := CallName(call);
      if toolName !in handlers {
        assert CallTool(call, handlers, parse, stringify).Failed?;
        failure := Some(UnknownToolError(toolName));
        BatchFailureFinal(calls, j + 1, handlers, parse, stringify);
        return;
      }
      var parsedArgs := parse(ArgsText(CallArguments(call)));
      if parsedArgs.None? {
        assert CallTool(call, handlers, parse, stringify).Failed?;
        failure := Some(InvalidArgumentsError(toolName, CallArguments(call)));
        BatchFailureFinal(calls, j + 1, handlers, parse, stringify);
        return;
      }
      var result := handlers[toolName](parsedArgs.value);
      invoked := invoked + [Invocation(toolName, parsedArgs.value)];
      if result.Err? {
        failure := Some(result.error);
        BatchFailureFinal(calls, j + 1, handlers, parse, stringify);
        return;
      }
      toolMessages := toolMessages + [ToolMessage(CallId(call), stringify(result.value))];
    }
    assert calls[..|calls|] == calls;
  }

  // ---------------------------------------------------------------------
  // The tool loop

  /** The transport and the JSON text conversions. */
  datatype Services = Services(
    transport: (nat, map<string, Json>) -> Result<Json, Thrown>,
    parse: string -> Option<Json>,
    stringify: Json -> string)

  /** The tool calls of choice 0's message (`msg.tool_calls`), none when absent. */
  function ToolCallsOf(msg: Json): (calls: seq<Json>)
    requires MessageValid(msg, false)
    ensures AllToolCalls(calls)
  {
    if "tool_calls" in msg.fields then msg.fields["tool_calls"].items else []
  }

  function LoopExceededError(maxIters: int, toolCalls: seq<Json>): Thrown
  {
    Neo(NewApiError("Tool loop exceeded max iterations (" + IntToString(maxIters) + ").", Some(400),
                    Some(JObj(map["toolCalls" := JArr(toolCalls)])), None))
  }

  const UnexpectedExit := Plain("Unexpected tool loop exit.")

  /** How one turn of the loop ends: with the call's result (after the
      handlers in `invoked` ran), or with `appended` added to the history. */
  datatype TurnEnd =
    | Stop(result: Result<Json, Thrown>, invoked: seq<Invocation>)
    | Next(appended: seq<Json>, invoked: seq<Invocation>)

  /** Choice 0's message of a parsed response, when there is a choice. */
  function FirstMessage(validated: Json): (m: Option<Json>)
    requires ResponseValid(validated)
    ensures m.Some? ==> MessageValid(m.value, false)
  {
    var choices := validated.fields["choices"].items;
    if choices == [] then None else Some(choices[0].fields["message"])
  }

  /** The result `create` returns for a reply that does not go on to run
      tools: the transport's exception, the schema's, or the parsed reply. */
  function ReplyResult(reply: Result<Json, Thrown>): (r: Result<Json, Thrown>)
    ensures r.Ok? <==> reply.Ok? && ResponseValid(reply.value)
    ensures r.Ok? ==> r.value == StripResponse(reply.value) && ResponseValid(r.value)
    ensures reply.Err? ==> r == reply
    ensures reply.Ok? && !ResponseValid(reply.value) ==> r == Err(SchemaErr)
  {
    match reply
    case Err(e) => Err(e)
    case Ok(json) => if ResponseValid(json) then Ok(StripResponse(json)) else Err(SchemaErr)
  }

  /** The reply passed the schema and its choice 0 asks for tools that there
      are handlers to run. */
  predicate AsksForTools(reply: Result<Json, Thrown>, handlers: Option<map<string, Handler>>)
  {
    reply.Ok? && ResponseValid(reply.value) && RequestedCalls(reply.value) != [] && handlers.Some?
  }

  /** One turn of the loop on iteration `iter`, sending `body`. */
  function Turn(body: map<string, Json>, handlers: Option<map<string, Handler>>, maxIters: int, svc: Services, iter: nat): (t: TurnEnd)
    requires iter <= maxIters
    ensures t.Next? ==> iter < maxIters && handlers.Some? && t.appended != []
    ensures t.Stop? && t.result.Ok? ==> ResponseValid(t.result.value)
  {
    match svc.transport(iter, body)
    case Err(e) => Stop(Err(e), [])
    case Ok(json) =>
      if !ResponseValid(json) then Stop(Err(SchemaErr), [])
      else
        var validated := StripResponse(json);
        match FirstMessage(validated)
        case None => Stop(Ok(validated), [])
        case Some(msg) =>
          var calls := ToolCallsOf(msg);
          if calls == [] || handlers.None? then Stop(Ok(validated), [])
          else ToolTurn(msg, calls, handlers.value, maxIters, svc, iter)
  }

  /** A reply that does not ask for tools ends the turn with its own result
      and runs nothing; one that does ends the last iteration with the
      "exceeded" error carrying its tool calls. */
  lemma {:induction false} TurnEnds(body: map<string, Json>, handlers: Option<map<string, Handler>>, maxIters: int, svc: Services, iter: nat)
    requires iter <= maxIters
    ensures var t, reply := Turn(body, handlers, maxIters, svc, iter), svc.transport(iter, body);
            && (!AsksForTools(reply, handlers) ==> t == Stop(ReplyResult(reply), []))
            && (AsksForTools(reply, handlers) && iter == maxIters ==>
                  t == Stop(Err(LoopExceededError(maxIters, RequestedCalls(reply.value))), []))
  {
    var reply := svc.transport(iter, body);
    if AsksForTools(reply, handlers) {
      var msg := FirstMessage(StripResponse(reply.value)).value;
      assert Turn(body, handlers, maxIters, svc, iter) == ToolTurn(msg, RequestedCalls(reply.value), handlers.value, maxIters, svc, iter);
    }
  }

  /** The rest of a turn whose reply asks for the tools `calls`. */
  function ToolTurn(msg: Json, calls: seq<Json>, handlers: map<string, Handler>, maxIters: int, svc: Services, iter: nat): (t: TurnEnd)
    requires AllToolCalls(calls) && iter <= maxIters
    ensures t.Next? ==> iter < maxIters && t.appended != []
    ensures t.Stop? ==> t.result.Err?
    ensures iter == maxIters ==> t == Stop(Err(LoopExceededError(maxIters, calls)), [])
    ensures iter < maxIters ==> t.invoked == RunBatch(calls, handlers, svc.parse, svc.stringify).invoked
  {
    if iter == maxIters then Stop(Err(LoopExceededError(maxIters, calls)), [])
    else
      var b := RunBatch(calls, handlers, svc.parse, svc.stringify);
      if b.failure.Some? then Stop(Err(b.failure.value), b.invoked)
      else Next([msg] + b.messages, b.invoked)
  }

  /** What `create` did: its result, every request body it sent, in order,
      and every handler that ran, in order. */
  datatype ChatTrace = ChatTrace(result: Result<Json, Thrown>, bodies: seq<map<string, Json>>, invoked: seq<Invocation>)

  function PrependTurn(body: map<string, Json>, invoked: seq<Invocation>, t: ChatTrace): ChatTrace
  {
    ChatTrace(t.result, [body] + t.bodies, invoked + t.invoked)
  }

  /** The trace `t` of the rest of the loop, after `bodies` were sent and
      the handlers `invoked` ran. */
  function After(bodies: seq<map<string, Json>>, invoked: seq<Invocation>, t: ChatTrace): ChatTrace
  {
    ChatTrace(t.result, bodies + t.bodies, invoked + t.invoked)
  }

  lemma {:induction false} AfterTurn(bodies: seq<map<string, Json>>, invoked: seq<Invocation>, body: map<string, Json>,
                  turnInvoked: seq<Invocation>, t: ChatTrace)
    ensures After(bodies, invoked, PrependTurn(body, turnInvoked, t)) == After(bodies + [body], invoked + turnInvoked, t)
  {
    assert bodies + ([body] + t.bodies) == (bodies + [body]) + t.bodies;
    assert invoked + (turnInvoked + t.invoked) == (invoked + turnInvoked) + t.invoked;
  }

  /** The request body of a turn: the normalised request with the history so far. */
  function BodyWith(normalized: map<string, Json>, messages: seq<Json>): map<string, Json>
  {
    normalized["messages" := JArr(messages)]
  }

  /** The loop from iteration `iter` on, with history `messages`. */
  function Loop(normalized: map<string, Json>, handlers: Option<map<string, Handler>>, maxIters: int, svc: Services,
                iter: nat, messages: seq<Json>): ChatTrace
    decreases if iter <= maxIters then maxIters + 1 - iter else 0
  {
    if iter > maxIters then ChatTrace(Err(UnexpectedExit), [], [])
    else
      var body := BodyWith(normalized, messages);
      match Turn(body, handlers, maxIters, svc, iter)
      case Stop(result, invoked) => ChatTrace(result, [body], invoked)
      case Next(appended, invoked) =>
        PrependTurn(body, invoked, Loop(normalized, handlers, maxIters, svc, iter + 1, messages + appended))
  }

  /** `createChatCompletion`, as a function of its inputs. */
  function Create(cfg: ClientConfig, request: map<string, Json>, handlers: Option<map<string, Handler>>,
                  maxToolIterations: Option<int>, svc: Services): ChatTrace
  {
    match NormalizeRequest(request["stream" := JBool(false)], cfg.model)
    case Err(e) => ChatTrace(Err(e), [], [])
    case Ok(normalized) =>
      Loop(normalized, handlers, maxToolIterations.GetOr(cfg.maxToolIterations), svc, 0, normalized["messages"].items)
  }

  /** The body of the `for (let iter = 0; ...)` loop. */
  method ChatTurn(body: map<string, Json>, handlers: Option<map<string, Handler>>, maxIters: int, svc: Services, iter: nat)
    returns (t: TurnEnd)
    requires iter <= maxIters
    ensures t == Turn(body, handlers, maxIters, svc, iter)
  {
    var response := svc.transport(iter, body);
    if response.Err? {
      return Stop(Err(response.error), []);
    }
    var json := response.value;
    if !ResponseValid(json) {
      return Stop(Err(SchemaErr), []);
    }
    var validated := StripResponse(json);
    var msg := FirstMessage(validated);
    if msg.None? {
      return Stop(Ok(validated), []);
    }
    var toolCalls := ToolCallsOf(msg.value);
    if |toolCalls| == 0 || handlers.None? {
      return Stop(Ok(validated), []);
    }
    if iter == maxIters {
      return Stop(Err(LoopExceededError(maxIters, toolCalls)), []);
    }
    var failure, toolMessages, invoked := RunToolCalls(toolCalls, handlers.value, svc.parse, svc.stringify);
    if failure.Some? {
      return Stop(Err(failure.value), invoked);
    }
    return Next([msg.value] + toolMessages, invoked);
  }

  /** `chat.completions.create`: the loop as written, proved equal to `Create`. */
  method CreateChatCompletion(cfg: ClientConfig, request: map<string, Json>, handlers: Option<map<string, Handler>>,
                              maxToolIterations: Option<int>, svc: Services)
    returns (result: Result<Json, Thrown>, bodies: seq<map<string, Json>>, invoked: seq<Invocation>)
    ensures ChatTrace(result, bodies, invoked) == Create(cfg, request, handlers, maxToolIterations, svc)
  {
    bodies, invoked := [], [];
    var n := NormalizeRequest(request["stream" := JBool(false)], cfg.model);
    if n.Err? {
      result := Err(n.error);
      return;
    }
    var normalized := n.value;
    var maxIters := maxToolIterations.GetOr(cfg.maxToolIterations);
    var messages := normalized["messages"].items;
    var iter: nat := 0;
    while iter <= maxIters
      invariant Create(cfg, request, handlers, maxToolIterations, svc)
                == After(bodies, invoked, Loop(normalized, handlers, maxIters, svc, iter, messages))
      decreases maxIters + 1 - iter
    {
      var body := BodyWith(normalized, messages);
      var t := ChatTurn(body, handlers, maxIters, svc, iter);
      bodies, invoked := bodies + [body], invoked + t.invoked;
      if t.Stop? {
        result := t.result;
        return;
      }
      AfterTurn(bodies[..|bodies| - 1], invoked[..|invoked| - |t.invoked|], body, t.invoked,
                Loop(normalized, handlers, maxIters, svc, iter + 1, messages + t.appended));
      messages := messages + t.appended;
      iter := iter + 1;
    }
    result := Err(UnexpectedExit);
  }

  /** The loop sends at most one request per remaining iteration. */
  lemma {:induction false} LoopBodiesBound(normalized: map<string, Json>, handlers: Option<map<string, Handler>>, maxIters: int,
                                           svc: Services, iter: nat, messages: seq<Json>)
    ensures |Loop(normalized, handlers, maxIters, svc, iter, messages).bodies| <= (if iter <= maxIters then maxIters + 1 - iter else 0)
    decreases if iter <= maxIters then maxIters + 1 - iter else 0
  {
    if iter <= maxIters {
      var t := Turn(BodyWith(normalized, messages), handlers, maxIters, svc, iter);
      if t.Next? {
        LoopBodiesBound(normalized, handlers, maxIters, svc, iter + 1, messages + t.appended);
      }
    }
  }

  /** Request `b` is the normalised request with its messages replaced. */
  predicate KeepsRequest(b: map<string, Json>, normalized: map<string, Json>)
  {
    && b.Keys == normalized.Keys + {"messages"}
    && "messages" in b && b["messages"].JArr?
    && forall k :: k in normalized && k != "messages" ==> b[k] == normalized[k]
  }

  /** Every request of the loop is the normalised request with the history
      so far in place of its messages. */
  lemma {:induction false} LoopKeepsRequest(normalized: map<string, Json>, handlers: Option<map<string, Handler>>, maxIters: int,
                                            svc: Services, iter: nat, messages: seq<Json>)
    ensures var t := Loop(normalized, handlers, maxIters, svc, iter, messages);
            forall k :: 0 <= k < |t.bodies| ==> t.bodies[k] == BodyWith(normalized, History(t.bodies[k]))
    decreases if iter <= maxIters then maxIters + 1 - iter else 0
  {
    if iter <= maxIters {
      var body := BodyWith(normalized, messages);
      assert History(body) == messages;
      var t := Turn(body, handlers, maxIters, svc, iter);
      LoopStep(normalized, handlers, maxIters, svc, iter, messages);
      if t.Next? {
        LoopKeepsRequest(normalized, handlers, maxIters, svc, iter + 1, messages + t.appended);
        BuiltCons(body, Loop(normalized, handlers, maxIters, svc, iter + 1, messages + t.appended).bodies, normalized);
      }
    }
  }

  lemma {:induction false} BuiltCons(body: map<string, Json>, rest: seq<map<string, Json>>, normalized: map<string, Json>)
    requires body == BodyWith(normalized, History(body))
    requires forall k :: 0 <= k < |rest| ==> rest[k] == BodyWith(normalized, History(rest[k]))
    ensures var all := [body] + rest;
            forall k :: 0 <= k < |all| ==> all[k] == BodyWith(normalized, History(all[k]))
  {
  }

  /** A turn that continues appends to the history exactly choice 0's
      message of the parsed reply, then one `tool` message per requested
      call, in call order, each answering its call. */
  lemma {:induction false} TurnAppends(body: map<string, Json>, handlers: Option<map<string, Handler>>, maxIters: int,
                                       svc: Services, iter: nat)
    requires iter <= maxIters && Turn(body, handlers, maxIters, svc, iter).Next?
    ensures var t, reply := Turn(body, handlers, maxIters, svc, iter), svc.transport(iter, body);
            && handlers.Some? && reply.Ok? && ResponseValid(reply.value)
            && FirstMessage(StripResponse(reply.value)).Some?
            && var msg := FirstMessage(StripResponse(reply.value)).value;
               var calls := ToolCallsOf(msg);
               && calls != []
               && |t.appended| == 1 + |calls| && t.appended[0] == msg
               && |t.invoked| == |calls|
               && forall k :: 0 <= k < |calls| ==> Answered(calls[k], t.invoked[k], t.appended[k + 1], handlers.value, svc.stringify)
  {
    var reply := svc.transport(iter, body);
    var msg := FirstMessage(StripResponse(reply.value)).value;
    var calls := ToolCallsOf(msg);
    var t := Turn(body, handlers, maxIters, svc, iter);
    assert t == ToolTurn(msg, calls, handlers.value, maxIters, svc, iter);
    BatchShape(calls, handlers.value, svc.parse, svc.stringify);
  }

  /** One unfolding of the loop. */
  lemma {:induction false} LoopStep(normalized: map<string, Json>, handlers: Option<map<string, Handler>>, maxIters: int,
                 svc: Services, iter: nat, messages: seq<Json>)
    requires iter <= maxIters
    ensures var body := BodyWith(normalized, messages);
            var t := Turn(body, handlers, maxIters, svc, iter);
            && (t.Stop? ==> Loop(normalized, handlers, maxIters, svc, iter, messages) == ChatTrace(t.result, [body], t.invoked))
            && (t.Next? ==> Loop(normalized, handlers, maxIters, svc, iter, messages)
                            == PrependTurn(body, t.invoked, Loop(normalized, handlers, maxIters, svc, iter + 1, messages + t.appended)))
  {
  }

  /** A body built by `BodyWith` keeps the normalised request. */
  lemma {:induction false} BodyWithKeeps(normalized: map<string, Json>, messages: seq<Json>)
    ensures KeepsRequest(BodyWith(normalized, messages), normalized)
    ensures History(BodyWith(normalized, messages)) == messages
  {
  }

  /** The first request carries the history the loop started with, and each
      later request's history strictly extends the one before it. */
  lemma {:induction false} LoopHistoryGrows(normalized: map<string, Json>, handlers: Option<map<string, Handler>>, maxIters: int,
                                            svc: Services, iter: nat, messages: seq<Json>)
    ensures var t := Loop(normalized, handlers, maxIters, svc, iter, messages);
            && (t.bodies != [] ==> t.bodies[0] == BodyWith(normalized, messages))
            && forall k :: 0 <= k < |t.bodies| - 1 ==> History(t.bodies[k]) < History(t.bodies[k + 1])
    decreases if iter <= maxIters then maxIters + 1 - iter else 0
  {
    if iter <= maxIters {
      var body := BodyWith(normalized, messages);
      var t := Turn(body, handlers, maxIters, svc, iter);
      if t.Next? {
        var next := messages + t.appended;
        LoopStep(normalized, handlers, maxIters, svc, iter, messages);
        LoopHistoryGrows(normalized, handlers, maxIters, svc, iter + 1, next);
        BodyWithKeeps(normalized, messages);
        BodyWithKeeps(normalized, next);
        GrowsCons(body, Loop(normalized, handlers, maxIters, svc, iter + 1, next).bodies);
      }
    }
  }

  lemma {:induction false} GrowsCons(body: map<string, Json>, rest: seq<map<string, Json>>)
    requires rest != [] ==> History(body) < History(rest[0])
    requires forall k :: 0 <= k < |rest| - 1 ==> History(rest[k]) < History(rest[k + 1])
    ensures var all := [body] + rest;
            forall k :: 0 <= k < |all| - 1 ==> History(all[k]) < History(all[k + 1])
  {
    var all := [body] + rest;
    forall k | 0 <= k < |all| - 1 ensures History(all[k]) < History(all[k + 1]) {
      if k > 0 {
        assert all[k] == rest[k - 1] && all[k + 1] == rest[k];
      }
    }
  }

  /** The messages of a request body built by `BodyWith`. */
  function History(body: map<string, Json>): seq<Json>
  {
    if "messages" in body && body["messages"].JArr? then body["messages"].items else []
  }

  /** A successful result of the loop passed the response schema. */
  lemma {:induction false} LoopResultValid(normalized: map<string, Json>, handlers: Option<map<string, Handler>>, maxIters: int,
                                           svc: Services, iter: nat, messages: seq<Json>)
    ensures var t := Loop(normalized, handlers, maxIters, svc, iter, messages);
            t.result.Ok? ==> ResponseValid(t.result.value)
    decreases if iter <= maxIters then maxIters + 1 - iter else 0
  {
    if iter <= maxIters {
      var t := Turn(BodyWith(normalized, messages), handlers, maxIters, svc, iter);
      if t.Next? {
        LoopResultValid(normalized, handlers, maxIters, svc, iter + 1, messages + t.appended);
      }
    }
  }

  /** `create` sends at most one request more than the iteration limit, each
      the normalised request (so with `stream: false`) with the history so
      far, starting from the caller's messages; a successful result passed
      the response schema. */
  lemma {:induction false} CreateBodies(cfg: ClientConfig, request: map<string, Json>, handlers: Option<map<string, Handler>>,
                     maxToolIterations: Option<int>, svc: Services)
    requires NormalizeRequest(request["stream" := JBool(false)], cfg.model).Ok?
    ensures var t := Create(cfg, request, handlers, maxToolIterations, svc);
            var normalized := NormalizeRequest(request["stream" := JBool(false)], cfg.model).value;
            var limit := maxToolIterations.GetOr(cfg.maxToolIterations);
            && |t.bodies| <= (if limit >= 0 then limit + 1 else 0)
            && (forall k :: 0 <= k < |t.bodies| ==>
                  KeepsRequest(t.bodies[k], normalized) && "stream" in t.bodies[k] && t.bodies[k]["stream"] == JBool(false))
            && (t.bodies != [] ==> History(t.bodies[0]) == normalized["messages"].items)
            && (t.result.Ok? ==> ResponseValid(t.result.value))
  {
    var normalized := NormalizeRequest(request["stream" := JBool(false)], cfg.model).value;
    var maxIters := maxToolIterations.GetOr(cfg.maxToolIterations);
    var messages := normalized["messages"].items;
    LoopBodiesBound(normalized, handlers, maxIters, svc, 0, messages);
    LoopKeepsRequest(normalized, handlers, maxIters, svc, 0, messages);
    var t := Create(cfg, request, handlers, maxToolIterations, svc);
    forall k | 0 <= k < |t.bodies| ensures KeepsRequest(t.bodies[k], normalized) {
      BodyWithKeeps(normalized, History(t.bodies[k]));
    }
    LoopHistoryGrows(normalized, handlers, maxIters, svc, 0, messages);
    LoopResultValid(normalized, handlers, maxIters, svc, 0, messages);
  }

  /** Without tool handlers `create` sends exactly one request and runs nothing. */
  lemma {:induction false} NoHandlersSingleRequest(cfg: ClientConfig, request: map<string, Json>, maxToolIterations: Option<int>, svc: Services)
    requires NormalizeRequest(request["stream" := JBool(false)], cfg.model).Ok?
    requires maxToolIterations.GetOr(cfg.maxToolIterations) >= 0
    ensures var t := Create(cfg, request, None, maxToolIterations, svc);
            && |t.bodies| == 1 && t.invoked == []
            && t.result == ReplyResult(svc.transport(0, t.bodies[0]))
  {
    var normalized := NormalizeRequest(request["stream" := JBool(false)], cfg.model).value;
    var body := BodyWith(normalized, normalized["messages"].items);
    TurnEnds(body, None, maxToolIterations.GetOr(cfg.maxToolIterations), svc, 0);
  }

  /** A negative iteration limit never enters the loop: no request is sent
      and the result is the "unexpected exit" error. */
  lemma {:induction false} NegativeLimitUnexpectedExit(cfg: ClientConfig, request: map<string, Json>, handlers: Option<map<string, Handler>>,
                                    maxToolIterations: Option<int>, svc: Services)
    requires NormalizeRequest(request["stream" := JBool(false)], cfg.model).Ok?
    requires maxToolIterations.GetOr(cfg.maxToolIterations) < 0
    ensures Create(cfg, request, handlers, maxToolIterations, svc) == ChatTrace(Err(UnexpectedExit), [], [])
  {
  }

  /** The tool calls of a response, when it asks for any. */
  function RequestedCalls(resp: Json): seq<Json>
    requires ResponseValid(resp)
  {
    var m := FirstMessage(StripResponse(resp));
    if m.Some? then ToolCallsOf(m.value) else []
  }

  /** The loop ends on the first reply that does not ask for tools: with the
      transport's exception, the schema's, or the parsed reply, after that
      one request and without running any handler. */
  lemma {:induction false} LoopEndsOnFinalReply(normalized: map<string, Json>, handlers: Option<map<string, Handler>>, maxIters: int,
                                                svc: Services, iter: nat, messages: seq<Json>)
    requires iter <= maxIters
    requires !AsksForTools(svc.transport(iter, BodyWith(normalized, messages)), handlers)
    ensures var body := BodyWith(normalized, messages);
            Loop(normalized, handlers, maxIters, svc, iter, messages) == ChatTrace(ReplyResult(svc.transport(iter, body)), [body], [])
  {
    TurnEnds(BodyWith(normalized, messages), handlers, maxIters, svc, iter);
    LoopStep(normalized, handlers, maxIters, svc, iter, messages);
  }

  /** The reply to `b` on iteration `i` asks for tools, and, when a later
      iteration remains, the batch it asks for completes. */
  predicate KeepsAskingFor(svc: Services, handlers: map<string, Handler>, maxIters: int, i: nat, b: map<string, Json>)
  {
    && AsksForTools(svc.transport(i, b), Some(handlers))
    && (i < maxIters ==> RunBatch(RequestedCalls(svc.transport(i, b).value), handlers, svc.parse, svc.stringify).failure.None?)
  }

  /** Every reply of the transport asks for tools. */
  ghost predicate AlwaysAsks(svc: Services, handlers: map<string, Handler>)
  {
    forall i: nat, b :: AsksForTools(svc.transport(i, b), Some(handlers))
  }

  /** The handlers run by the batches that the replies to `bodies`, sent on
      iterations `iter`, `iter + 1`, ..., ask for. */
  function BatchesRun(bodies: seq<map<string, Json>>, iter: nat, svc: Services, handlers: map<string, Handler>): seq<Invocation>
    requires AlwaysAsks(svc, handlers)
    decreases |bodies|
  {
    if bodies == [] then []
    else
      assert AsksForTools(svc.transport(iter, bodies[0]), Some(handlers));
      RunBatch(RequestedCalls(svc.transport(iter, bodies[0]).value), handlers, svc.parse, svc.stringify).invoked
      + BatchesRun(bodies[1..], iter + 1, svc, handlers)
  }

  lemma {:induction false} BatchesRunCons(body: map<string, Json>, rest: seq<map<string, Json>>, iter: nat,
                                          svc: Services, handlers: map<string, Handler>)
    requires AlwaysAsks(svc, handlers) && rest != []
    ensures var all := [body] + rest;
            && all[|all| - 1] == rest[|rest| - 1]
            && BatchesRun(all[..|all| - 1], iter, svc, handlers)
               == RunBatch(RequestedCalls(svc.transport(iter, body).value), handlers, svc.parse, svc.stringify).invoked
                  + BatchesRun(rest[..|rest| - 1], iter + 1, svc, handlers)
  {
    var all := [body] + rest;
    var front := all[..|all| - 1];
    assert front != [] && front[0] == body && front[1..] == rest[..|rest| - 1];
  }

  /** The persistent-loop trace after one more continuing turn. */
  lemma {:induction false} TraceCons(body: map<string, Json>, invoked: seq<Invocation>, rest: ChatTrace, maxIters: int, iter: nat,
                                     svc: Services, handlers: map<string, Handler>)
    requires AlwaysAsks(svc, handlers) && iter < maxIters
    requires invoked == RunBatch(RequestedCalls(svc.transport(iter, body).value), handlers, svc.parse, svc.stringify).invoked
    requires && |rest.bodies| == maxIters - iter
             && rest.result == Err(LoopExceededError(maxIters, RequestedCalls(svc.transport(maxIters, rest.bodies[|rest.bodies| - 1]).value)))
             && rest.invoked == BatchesRun(rest.bodies[..|rest.bodies| - 1], iter + 1, svc, handlers)
    ensures var t := PrependTurn(body, invoked, rest);
            && |t.bodies| == maxIters + 1 - iter
            && t.result == Err(LoopExceededError(maxIters, RequestedCalls(svc.transport(maxIters, t.bodies[|t.bodies| - 1]).value)))
            && t.invoked == BatchesRun(t.bodies[..|t.bodies| - 1], iter, svc, handlers)
  {
    BatchesRunCons(body, rest.bodies, iter, svc, handlers);
  }

  /** A model that asks for tools on every turn, with batches that complete:
      the loop sends one request per iteration from `iter` to the limit, runs
      every batch but the last turn's, and then fails with the "exceeded"
      error carrying the tool calls of the last reply. */
  lemma {:induction false} PersistentToolCallsLoop(normalized: map<string, Json>, handlers: map<string, Handler>, maxIters: int,
                                                   svc: Services, iter: nat, messages: seq<Json>)
    requires KeepsAsking(svc, handlers, maxIters) && iter <= maxIters
    ensures AlwaysAsks(svc, handlers)
    ensures var t := Loop(normalized, Some(handlers), maxIters, svc, iter, messages);
            && |t.bodies| == maxIters + 1 - iter
            && t.result == Err(LoopExceededError(maxIters, RequestedCalls(svc.transport(maxIters, t.bodies[|t.bodies| - 1]).value)))
            && t.invoked == BatchesRun(t.bodies[..|t.bodies| - 1], iter, svc, handlers)
    decreases maxIters - iter
  {
    KeepsAskingAlways(svc, handlers, maxIters);
    var body := BodyWith(normalized, messages);
    assert KeepsAskingFor(svc, handlers, maxIters, iter, body);
    PersistentUnfold(normalized, handlers, maxIters, svc, iter, messages);
    if iter < maxIters {
      var turn := Turn(body, Some(handlers), maxIters, svc, iter);
      var next := messages + turn.appended;
      PersistentToolCallsLoop(normalized, handlers, maxIters, svc, iter + 1, next);
      TraceCons(body, turn.invoked, Loop(normalized, Some(handlers), maxIters, svc, iter + 1, next), maxIters, iter, svc, handlers);
    } else {
      var t := Loop(normalized, Some(handlers), maxIters, svc, iter, messages);
      assert t.bodies[..|t.bodies| - 1] == [];
    }
  }

  /** Every reply of the transport asks for tools, and every batch before
      the last iteration completes. */
  ghost predicate KeepsAsking(svc: Services, handlers: map<string, Handler>, maxIters: int)
  {
    forall i: nat, b :: KeepsAskingFor(svc, handlers, maxIters, i, b)
  }

  lemma {:induction false} KeepsAskingAlways(svc: Services, handlers: map<string, Handler>, maxIters: int)
    requires KeepsAsking(svc, handlers, maxIters)
    ensures AlwaysAsks(svc, handlers)
  {
    forall i: nat, b ensures AsksForTools(svc.transport(i, b), Some(handlers)) {
      assert KeepsAskingFor(svc, handlers, maxIters, i, b);
    }
  }

  /** One unfolding of the loop on a turn whose reply asks for tools. */
  lemma {:induction false} PersistentUnfold(normalized: map<string, Json>, handlers: map<string, Handler>, maxIters: int,
                                            svc: Services, iter: nat, messages: seq<Json>)
    requires iter <= maxIters && KeepsAskingFor(svc, handlers, maxIters, iter, BodyWith(normalized, messages))
    ensures var body := BodyWith(normalized, messages);
            var turn, calls := Turn(body, Some(handlers), maxIters, svc, iter), RequestedCalls(svc.transport(iter, body).value);
            var t := Loop(normalized, Some(handlers), maxIters, svc, iter, messages);
            && (iter == maxIters ==> t == ChatTrace(Err(LoopExceededError(maxIters, calls)), [body], []))
            && (iter < maxIters ==>
                  && turn.Next? && turn.invoked == RunBatch(calls, handlers, svc.parse, svc.stringify).invoked
                  && t == PrependTurn(body, turn.invoked, Loop(normalized, Some(handlers), maxIters, svc, iter + 1, messages + turn.appended)))
  {
    var body := BodyWith(normalized, messages);
    PersistentTurn(body, handlers, maxIters, svc, iter);
    LoopStep(normalized, Some(handlers), maxIters, svc, iter, messages);
  }

  /** One turn against a reply that asks for tools: on the last iteration
      the "exceeded" error, before it a completed batch that continues. */
  lemma {:induction false} PersistentTurn(body: map<string, Json>, handlers: map<string, Handler>, maxIters: int, svc: Services, iter: nat)
    requires iter <= maxIters && KeepsAskingFor(svc, handlers, maxIters, iter, body)
    ensures var t, calls := Turn(body, Some(handlers), maxIters, svc, iter), RequestedCalls(svc.transport(iter, body).value);
            && (iter == maxIters ==> t == Stop(Err(LoopExceededError(maxIters, calls)), []))
            && (iter < maxIters ==> t.Next? && t.invoked == RunBatch(calls, handlers, svc.parse, svc.stringify).invoked)
  {
    var resp := svc.transport(iter, body).value;
    var msg := FirstMessage(StripResponse(resp)).value;
    assert Turn(body, Some(handlers), maxIters, svc, iter) == ToolTurn(msg, RequestedCalls(resp), handlers, maxIters, svc, iter);
  }

  // ---------------------------------------------------------------------
  // Streaming

  /** What `fetchImpl` gave the stream: a response, whose body is `None`
      when it is null and otherwise arrives as `chunks`, or an exception. */
  datatype StreamReply =
    | StreamReply(status: int, body: Option<seq<string>>)
    | StreamThrew(error: Thrown)

  datatype StreamRequest = StreamRequest(url: string, headers: map<string, string>, body: string)

  /** The events the caller received, and the exception that ended the
      stream, if any. `request` is the request sent, if one was. */
  datatype StreamTrace = StreamTrace(request: Option<StreamRequest>, chunks: seq<Json>, failure: Option<Thrown>)

  /** Index of the first "://" at or after `i`. */
  function SchemeSeparator(s: string, i: nat): (r: Option<nat>)
    ensures r.Some? ==> i <= r.value && r.value + 3 <= |s| && s[r.value..r.value + 3] == "://"
    decreases |s| - i
  {
    if i + 3 > |s| then None
    else if s[i] == ':' && s[i..i + 3] == "://" then Some(i)
    else SchemeSeparator(s, i + 1)
  }

  /** Index of the first '/' at or after `i`, or the length. */
  function SlashFrom(s: string, i: nat): (r: nat)
    ensures i <= |s| ==> i <= r <= |s|
    ensures r < |s| ==> s[r] == '/'
    decreases |s| - i
  {
    if i >= |s| then |s| else if s[i] == '/' then i else SlashFrom(s, i + 1)
  }

  /** The scheme and authority of an absolute URL: the text before the
      first '/' after "://". */
  function Origin(url: string): (r: string)
    ensures r <= url
  {
    match SchemeSeparator(url, 0)
    case None => url
    case Some(i) => url[..SlashFrom(url, i + 3)]
  }

  /** Which reading of the stream's URL construction to model. */
  datatype UrlResolution = AsWritten | Corrected

  /** The stream's endpoint. As written, `new URL('/v1/chat/completions',
      base + '/')` resolves an absolute path against the base, which keeps
      only the base's origin; `Corrected` joins the path onto the whole base
      the way httpJson does. */
  function StreamUrl(baseUrl: string, g: UrlResolution): string
  {
    match g
    case AsWritten => Origin(Http.TrimTrailingSlashes(baseUrl) + "/") + ChatPath
    case Corrected => Http.JoinUrl(baseUrl, ChatPath)
  }

  lemma {:induction false} SchemeSeparatorAfter(scheme: string, rest: string, i: nat)
    requires ':' !in scheme && i <= |scheme|
    ensures SchemeSeparator(scheme + "://" + rest, i) == Some(|scheme|)
    decreases |scheme| - i
  {
    var s := scheme + "://" + rest;
    if i < |scheme| {
      assert s[i] == scheme[i];
      SchemeSeparatorAfter(scheme, rest, i + 1);
    } else {
      assert s[i..i + 3] == "://";
    }
  }

  lemma {:induction false} SlashAfter(prefix: string, host: string, rest: string, i: nat)
    requires '/' !in host && |prefix| <= i <= |prefix| + |host|
    ensures SlashFrom(prefix + host + "/" + rest, i) == |prefix| + |host|
    decreases |prefix| + |host| - i
  {
    var s := prefix + host + "/" + rest;
    if i < |prefix| + |host| {
      assert s[i] == host[i - |prefix|];
      SlashAfter(prefix, host, rest, i + 1);
    } else {
      assert s[i] == '/';
    }
  }

  /** The origin of "scheme://host/rest" is "scheme://host". */
  lemma {:induction false} OriginOf(scheme: string, host: string, rest: string)
    requires ':' !in scheme && '/' !in host
    ensures Origin(scheme + "://" + host + "/" + rest) == scheme + "://" + host
  {
    var s := scheme + "://" + host + "/" + rest;
    assert s == scheme + "://" + (host + "/" + rest);
    SchemeSeparatorAfter(scheme, host + "/" + rest, 0);
    SlashAfter(scheme + "://", host, rest, |scheme| + 3);
    assert s[..|scheme| + 3 + |host|] == scheme + "://" + host;
  }

  lemma {:induction false} NoTrailingSlash(s: string)
    requires s != [] && s[|s| - 1] != '/'
    ensures Http.TrimTrailingSlashes(s) == s
  {
  }

  lemma {:induction false} CorrectedUrl(baseUrl: string)
    requires baseUrl != [] && baseUrl[|baseUrl| - 1] != '/'
    ensures StreamUrl(baseUrl, Corrected) == baseUrl + ChatPath
  {
    NoTrailingSlash(baseUrl);
    OneLeadingSlash(ChatPath);
    var tail := ChatPath[1..];
    assert "/" + tail == ChatPath;
    assert Http.JoinUrl(baseUrl, ChatPath) == baseUrl + "/" + tail;
    assert baseUrl + "/" + tail == baseUrl + ("/" + tail);
  }

  lemma {:induction false} OneLeadingSlash(s: string)
    requires |s| >= 2 && s[0] == '/' && s[1] != '/'
    ensures Http.TrimLeadingSlashes(s) == s[1..]
  {
  }

  /** The stream drops the path of a base URL such as
      "https://gw.example.com/neo", where httpJson keeps it. */
  lemma {:induction false} StreamUrlDropsBasePath(scheme: string, host: string, path: string)
    requires ':' !in scheme && '/' !in host
    requires path != [] && path[|path| - 1] != '/'
    ensures var base := scheme + "://" + host + "/" + path;
            && StreamUrl(base, AsWritten) == scheme + "://" + host + ChatPath
            && StreamUrl(base, Corrected) == base + ChatPath
            && StreamUrl(base, AsWritten) != StreamUrl(base, Corrected)
  {
    var base := scheme + "://" + host + "/" + path;
    NoTrailingSlash(base);
    assert base + "/" == scheme + "://" + host + "/" + (path + "/");
    OriginOf(scheme, host, path + "/");
    CorrectedUrl(base);
  }

  /** For a base URL with no path both readings agree. */
  lemma {:induction false} StreamUrlWithoutPath(scheme: string, host: string)
    requires ':' !in scheme && '/' !in host && host != []
    ensures StreamUrl(scheme + "://" + host, AsWritten) == StreamUrl(scheme + "://" + host, Corrected)
  {
    var base := scheme + "://" + host;
    assert base[|base| - 1] == host[|host| - 1];
    NoTrailingSlash(base);
    assert base + "/" == scheme + "://" + host + "/" + "";
    OriginOf(scheme, host, "");
    CorrectedUrl(base);
  }

  /** The stream sends the JSON content type and the bearer credential, and
      no user agent and no extra headers. */
  function StreamHeaders(apiKey: string): (h: map<string, string>)
    ensures h == Http.RequestHeaders(apiKey, None, map[])
    ensures "user-agent" !in h
  {
    map["content-type" := "application/json", "authorization" := "Bearer " + apiKey]
  }

  /** The error a failed stream request raises; its body is `safeReadJson`
      of the response: the parsed text, else nothing once the body was
      consumed, and the empty text for a null body. */
  function StreamFailure(status: int, body: Option<seq<string>>, parse: string -> Option<Json>): (e: Thrown)
    ensures e.Neo? && e.err.kind == Api && e.err.status == Some(status)
  {
    var errBody := match body
      case None => parse("").Or(Some(JStr("")))
      case Some(chunks) => parse(Concat(chunks));
    Neo(NewApiError("Streaming request failed with status " + IntToString(status) + ".", Some(status), errBody, None))
  }

  const DoneMarker := "[DONE]"

  datatype StreamEnd = Open | Finished | Broken(error: Thrown)

  /** The chunks yielded so far and how the stream stands. */
  datatype Yielded = Yielded(chunks: seq<Json>, end: StreamEnd)

  /** The `for await` loop over the events: "[DONE]" ends the stream
      quietly, data that is not JSON ends it with the parse error, and
      nothing after either is looked at. */
  function Yield(events: seq<SseEvent>, parse: string -> Option<Json>): Yielded
  {
    if events == [] then Yielded([], Open)
    else YieldNext(Yield(events[..|events| - 1], parse), events[|events| - 1].data, parse)
  }

  /** One more event: "[DONE]" finishes the stream, data that is not JSON
      breaks it, anything else is one more chunk; none once it has ended. */
  function YieldNext(y: Yielded, data: string, parse: string -> Option<Json>): Yielded
  {
    if !y.end.Open? then y
    else if data == DoneMarker then Yielded(y.chunks, Finished)
    else match parse(data)
      case None => Yielded(y.chunks, Broken(SyntaxErr(data)))
      case Some(chunk) => Yielded(y.chunks + [chunk], Open)
  }

  /** The first `j + 1` events yield what the first `j` do, then event `j`. */
  lemma {:induction false} YieldStep(events: seq<SseEvent>, j: nat, parse: string -> Option<Json>)
    requires j < |events|
    ensures Yield(events[..j + 1], parse) == YieldNext(Yield(events[..j], parse), events[j].data, parse)
  {
    assert events[..j + 1][..j] == events[..j] && events[..j + 1][j] == events[j];
  }

  /** Once the stream has ended, later events change nothing. */
  lemma {:induction false} YieldFinal(events: seq<SseEvent>, j: nat, parse: string -> Option<Json>)
    requires j <= |events| && !Yield(events[..j], parse).end.Open?
    ensures Yield(events, parse) == Yield(events[..j], parse)
    decreases |events|
  {
    if j < |events| {
      var init := events[..|events| - 1];
      assert init[..j] == events[..j];
      YieldFinal(init, j, parse);
    } else {
      assert events[..j] == events;
    }
  }

  /** Whatever follows a "[DONE]" event is ignored. */
  lemma {:induction false} DoneIgnoresRest(events: seq<SseEvent>, j: nat, parse: string -> Option<Json>)
    requires j < |events| && events[j].data == DoneMarker && Yield(events[..j], parse).end.Open?
    ensures Yield(events, parse) == Yielded(Yield(events[..j], parse).chunks, Finished)
  {
    var y := Yield(events[..j], parse);
    YieldStep(events, j, parse);
    assert YieldNext(y, events[j].data, parse) == Yielded(y.chunks, Finished);
    YieldFinal(events, j + 1, parse);
  }

  /** A stream that stays open yields exactly the parsed data of every
      event, in order, and none of them was "[DONE]". */
  lemma {:induction false} YieldOpen(events: seq<SseEvent>, parse: string -> Option<Json>)
    requires Yield(events, parse).end.Open?
    ensures var y := Yield(events, parse);
            && |y.chunks| == |events|
            && forall k :: 0 <= k < |events| ==> events[k].data != DoneMarker && parse(events[k].data) == Some(y.chunks[k])
  {
    if events != [] {
      var init := events[..|events| - 1];
      YieldOpen(init, parse);
      assert forall k :: 0 <= k < |init| ==> events[k] == init[k];
    }
  }

  /** `chat.completions.stream` as a function of its inputs. */
  function Stream(cfg: ClientConfig, request: map<string, Json>, fetch: StreamRequest -> StreamReply, svc: Services,
                  g: UrlResolution): StreamTrace
  {
    match NormalizeRequest(request["stream" := JBool(true)], cfg.model)
    case Err(e) => StreamTrace(None, [], Some(e))
    case Ok(normalized) =>
      var sent := StreamRequest(StreamUrl(cfg.baseUrl, g), StreamHeaders(cfg.apiKey), svc.stringify(JObj(normalized)));
      match fetch(sent)
      case StreamThrew(e) => StreamTrace(Some(sent), [], Some(e))
      case StreamReply(status, body) =>
        if !Http.IsOk(status) || body.None? then StreamTrace(Some(sent), [], Some(StreamFailure(status, body, svc.parse)))
        else
          var y := Yield(Events(Concat(body.value)), svc.parse);
          StreamTrace(Some(sent), y.chunks, if y.end.Broken? then Some(y.end.error) else None)
  }

  /** The `for await` loop as written. */
  method YieldChunks(events: seq<SseEvent>, parse: string -> Option<Json>) returns (chunks: seq<Json>, end: StreamEnd)
    ensures Yielded(chunks, end) == Yield(events, parse)
  {
    chunks, end := [], Open;
    for k := 0 to |events|
      invariant Yielded(chunks, Open) == Yield(events[..k], parse)
    {
      YieldStep(events, k, parse);
      var data := events[k].data;
      if data == DoneMarker {
        end := Finished;
        YieldFinal(events, k + 1, parse);
        return;
      }
      var chunk := parse(data);
      if chunk.None? {
        end := Broken(SyntaxErr(data));
        YieldFinal(events, k + 1, parse);
        return;
      }
      chunks := chunks + [chunk.value];
    }
    assert events[..|events|] == events;
  }

  /** `streamChatCompletion` as written: the request, the status check,
      then the events of the body; proved equal to `Stream`. */
  method StreamChatCompletion(cfg: ClientConfig, request: map<string, Json>, fetch: StreamRequest -> StreamReply, svc: Services)
    returns (sent: Option<StreamRequest>, chunks: seq<Json>, failure: Option<Thrown>)
    ensures StreamTrace(sent, chunks, failure) == Stream(cfg, request, fetch, svc, AsWritten)
  {
    sent, chunks, failure := None, [], None;
    var n := NormalizeRequest(request["stream" := JBool(true)], cfg.model);
    if n.Err? {
      failure := Some(n.error);
      return;
    }
    var url := Origin(Http.TrimTrailingSlashes(cfg.baseUrl) + "/") + ChatPath;
    var req := StreamRequest(url, StreamHeaders(cfg.apiKey), svc.stringify(JObj(n.value)));
    sent := Some(req);
    var resp := fetch(req);
    if resp.StreamThrew? {
      failure := Some(resp.error);
      return;
    }
    if !Http.IsOk(resp.status) || resp.body.None? {
      failure := Some(StreamFailure(resp.status, resp.body, svc.parse));
      return;
    }
    var events := ParseSse(resp.body.value);
    var end;
    chunks, end := YieldChunks(events, svc.parse);
    if end.Broken? {
      failure := Some(end.error);
    }
  }

  /** A body holding the single event "data: [DONE]" ends the stream
      quietly with nothing yielded. */
  lemma {:induction false} DoneOnlyStream(parse: string -> Option<Json>)
    ensures Yield(Events("data: " + DoneMarker + "\n\n"), parse) == Yielded([], Finished)
  {
    SingleDataEvent(DoneMarker);
  }

  // ---------------------------------------------------------------------

  /** `defaultSystemMessage`: the system-role message carrying the default
      system prompt, which lives in the prompts package and is a parameter
      here. The message passes the strict request-message schema, so it can
      open the history of any request. */
  function DefaultSystemMessage(systemPrompt: string): (m: Json)
    ensures MessageValid(m, true) && m.fields.Keys == {"role", "content"}
    ensures m.fields["role"] == JStr("system") && m.fields["content"] == JStr(systemPrompt)
  {
    JObj(map["role" := JStr("system"), "content" := JStr(systemPrompt)])
  }

  /** Putting the default system message in front of a valid request's
      messages keeps the request valid. */
  lemma {:induction false} DefaultSystemMessageFirst(request: map<string, Json>, systemPrompt: string)
    requires RequestValid(request)
    ensures var ms := [DefaultSystemMessage(systemPrompt)] + request["messages"].items;
            RequestValid(request["messages" := JArr(ms)])
  {
    var ms := [DefaultSystemMessage(systemPrompt)] + request["messages"].items;
    forall i | 0 <= i < |ms| ensures MessageValid(ms[i], true) {
      if i > 0 {
        assert ms[i] == request["messages"].items[i - 1];
      }
    }
  }
}
