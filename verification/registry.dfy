/** The built-in DeFi tools of packages/sdk/src/tools/registry.ts: the
    registry, the strict argument schemas and the five handlers. The Solana
    JSON-RPC endpoint and the Jupiter quote service are the oracles `rpc`
    and `quote`; an `Err` from either stands for every way those calls
    throw (a non-ok status, an RPC error object, a body that is not JSON,
    an abort). */
module Registry {
  import opened Base
  import opened Errors
  import Schemas
  import Client

  /** The six tool names the prompts package advertises, in its order. */
  const ToolNames: seq<string> := ["neo_explain_token", "neo_risk_scan", "neo_simulate_swap",
                                   "neo_explain_transaction", "neo_glossary", "neo_holder_snapshot"]

  /** The tools that come with a default handler. */
  const HandlerNames: set<string> := {"neo_explain_token", "neo_risk_scan", "neo_simulate_swap",
                                      "neo_explain_transaction", "neo_holder_snapshot"}

  const DefaultSolanaRpc := "https://api.mainnet-beta.solana.com"
  const DefaultSlippageBps: real := 50.0
  const DefaultTopN: real := 5.0
  const UnsupportedNote := "Chain not supported by default handler. Provide your own tool handler."
  const RiskDisclaimer := "This is a read-only heuristic checklist. It cannot prove safety. Verify authorities, liquidity, and distribution using multiple sources."
  const SnapshotNote := "This is read-only snapshot data; do not treat as exhaustive."

  /** A JSON-RPC call `rpcMethod(params)` sent to `url`. */
  datatype RpcCall = RpcCall(url: string, rpcMethod: string, params: seq<Json>)

  /** The query string of a Jupiter quote request. */
  datatype QuoteQuery = QuoteQuery(inputMint: string, outputMint: string, amount: string, slippageBps: real)

  datatype Services = Services(
    rpc: RpcCall -> Result<Json, Thrown>,
    quote: QuoteQuery -> Result<Json, Thrown>)

  // ---------------------------------------------------------------------
  // Argument schemas

  /** A field of a strict argument schema: a required string, an optional
      string or an optional number. */
  datatype FieldKind = Required | OptionalString | OptionalNumber

  type ArgSchema = map<string, FieldKind>

  const ExplainTokenArgs: ArgSchema := map["chain" := Required, "address" := Required, "rpcUrl" := OptionalString]
  const RiskScanArgs: ArgSchema := map["chain" := Required, "address" := Required, "rpcUrl" := OptionalString]
  const SimulateSwapArgs: ArgSchema := map["chain" := Required, "inputMint" := Required, "outputMint" := Required,
                                           "amount" := Required, "slippageBps" := OptionalNumber]
  const ExplainTxArgs: ArgSchema := map["chain" := Required, "signature" := Required, "rpcUrl" := OptionalString]
  const HolderSnapshotArgs: ArgSchema := map["chain" := Required, "address" := Required, "rpcUrl" := OptionalString,
                                             "topN" := OptionalNumber]

  predicate FieldValid(m: map<string, Json>, key: string, kind: FieldKind)
  {
    match kind
    case Required => key in m && m[key].JStr?
    case OptionalString => key in m ==> m[key].JStr?
    case OptionalNumber => key in m ==> m[key].JNum?
  }

  /** A `.strict()` zod object: no key outside the schema, every field of
      its kind. */
  predicate ArgsValid(args: Json, schema: ArgSchema)
  {
    && args.JObj?
    && args.fields.Keys <= schema.Keys
    && forall k :: k in schema ==> FieldValid(args.fields, k, schema[k])
  }

  /** The five tools that come with a default handler. */
  datatype Tool = ExplainTokenTool | RiskScanTool | SimulateSwapTool | ExplainTransactionTool | HolderSnapshotTool

  function ToolName(t: Tool): (name: string)
    ensures name in HandlerNames && name in ToolNames && name != "neo_glossary"
  {
    match t
    case ExplainTokenTool => "neo_explain_token"
    case RiskScanTool => "neo_risk_scan"
    case SimulateSwapTool => "neo_simulate_swap"
    case ExplainTransactionTool => "neo_explain_transaction"
    case HolderSnapshotTool => "neo_holder_snapshot"
  }

  /** The tool a handler name stands for. */
  function ToolOf(name: string): (t: Tool)
    requires name in HandlerNames
    ensures ToolName(t) == name
  {
    match name
    case "neo_explain_token" => ExplainTokenTool
    case "neo_risk_scan" => RiskScanTool
    case "neo_simulate_swap" => SimulateSwapTool
    case "neo_explain_transaction" => ExplainTransactionTool
    case _ => HolderSnapshotTool
  }

  /** Each tool is registered under its own name. */
  lemma {:induction false} ToolOfName(t: Tool)
    ensures ToolOf(ToolName(t)) == t
  {
  }

  function SchemaOf(t: Tool): ArgSchema
  {
    match t
    case ExplainTokenTool => ExplainTokenArgs
    case RiskScanTool => RiskScanArgs
    case SimulateSwapTool => SimulateSwapArgs
    case ExplainTransactionTool => ExplainTxArgs
    case HolderSnapshotTool => HolderSnapshotArgs
  }

  function Str(args: Json, key: string): string
  {
    if args.JObj? && key in args.fields && args.fields[key].JStr? then args.fields[key].s else ""
  }

  /** `a.chain.toLowerCase() === 'solana'`. */
  predicate IsSolana(chain: string)
  {
    ToLower(chain) == "solana"
  }

  /** `a.rpcUrl ?? DEFAULT_SOLANA_RPC`. */
  function RpcUrl(args: Json): (url: string)
    requires args.JObj?
    ensures "rpcUrl" !in args.fields ==> url == DefaultSolanaRpc
    ensures "rpcUrl" in args.fields && args.fields["rpcUrl"].JStr? ==> url == args.fields["rpcUrl"].s
  {
    if "rpcUrl" in args.fields && args.fields["rpcUrl"].JStr? then args.fields["rpcUrl"].s else DefaultSolanaRpc
  }

  /** An optional number argument, or its default. */
  function NumberOr(args: Json, key: string, default: real): (n: real)
    requires args.JObj?
    ensures key !in args.fields ==> n == default
    ensures key in args.fields && args.fields[key].JNum? ==> n == args.fields[key].n
  {
    if key in args.fields && args.fields[key].JNum? then args.fields[key].n else default
  }

  /** The record a handler returns for a chain other than Solana: the
      identifying inputs, echoed, and the note. */
  function Unsupported(echo: map<string, Json>): Result<Json, Thrown>
  {
    Ok(JObj(echo["note" := JStr(UnsupportedNote)]))
  }

  // ---------------------------------------------------------------------
  // Handlers

  function ExplainToken(svc: Services, args: Json): Result<Json, Thrown>
  {
    if !ArgsValid(args, ExplainTokenArgs) then Err(SchemaErr)
    else
      var chain, address := Str(args, "chain"), Str(args, "address");
      if !IsSolana(chain) then Unsupported(map["chain" := JStr(chain), "address" := JStr(address)])
      else
        match svc.rpc(RpcCall(RpcUrl(args), "getTokenSupply", [JStr(address)]))
        case Err(e) => Err(e)
        case Ok(supply) => Ok(JObj(map["chain" := JStr("solana"), "address" := JStr(address), "tokenSupply" := supply]))
  }

  /** `x?.key`: the member of an object, absent otherwise. */
  function Member(j: Json, key: string): Option<Json>
  {
    if j.JObj? && key in j.fields then Some(j.fields[key]) else None
  }

  /** `Boolean(x)` on a JSON value (`None` is `undefined`). */
  predicate Truthy(x: Option<Json>)
  {
    match x
    case None => false
    case Some(JNull) => false
    case Some(JBool(b)) => b
    case Some(JNum(n)) => n != 0.0
    case Some(JStr(s)) => s != ""
    case Some(_) => true
  }

  /** The heuristic checklist; a member that is `undefined` is left out. */
  function Checklist(supply: Json): (c: Json)
    ensures c.JObj? && "hasSupply" in c.fields && c.fields["hasSupply"] == JBool(Truthy(Member(supply, "value")))
  {
    var value := Member(supply, "value");
    var decimals := if value.Some? then Member(value.value, "decimals") else None;
    var uiAmount := if value.Some? then Member(value.value, "uiAmountString") else None;
    var base := map["hasSupply" := JBool(Truthy(value))];
    var withDecimals := if decimals.Some? then base["decimals" := decimals.value] else base;
    JObj(if uiAmount.Some? then withDecimals["uiAmountString" := uiAmount.value] else withDecimals)
  }

  function RiskScan(svc: Services, args: Json): Result<Json, Thrown>
  {
    if !ArgsValid(args, RiskScanArgs) then Err(SchemaErr)
    else
      var chain, address := Str(args, "chain"), Str(args, "address");
      if !IsSolana(chain) then Unsupported(map["chain" := JStr(chain), "address" := JStr(address)])
      else
        match svc.rpc(RpcCall(RpcUrl(args), "getTokenSupply", [JStr(address)]))
        case Err(e) => Err(e)
        case Ok(supply) =>
          Ok(JObj(map["chain" := JStr("solana"), "address" := JStr(address), "checklist" := Checklist(supply),
                      "disclaimer" := JStr(RiskDisclaimer)]))
  }

  function SimulateSwap(svc: Services, args: Json): Result<Json, Thrown>
  {
    if !ArgsValid(args, SimulateSwapArgs) then Err(SchemaErr)
    else
      var chain, inputMint, outputMint := Str(args, "chain"), Str(args, "inputMint"), Str(args, "outputMint");
      if !IsSolana(chain) then
        Unsupported(map["chain" := JStr(chain), "inputMint" := JStr(inputMint), "outputMint" := JStr(outputMint)])
      else
        svc.quote(QuoteQuery(inputMint, outputMint, Str(args, "amount"), NumberOr(args, "slippageBps", DefaultSlippageBps)))
  }

  function ExplainTransaction(svc: Services, args: Json): Result<Json, Thrown>
  {
    if !ArgsValid(args, ExplainTxArgs) then Err(SchemaErr)
    else
      var chain, signature := Str(args, "chain"), Str(args, "signature");
      if !IsSolana(chain) then Unsupported(map["chain" := JStr(chain), "signature" := JStr(signature)])
      else
        var config := JObj(map["encoding" := JStr("jsonParsed"), "maxSupportedTransactionVersion" := JNum(0.0)]);
        match svc.rpc(RpcCall(RpcUrl(args), "getTransaction", [JStr(signature), config]))
        case Err(e) => Err(e)
        case Ok(tx) => Ok(JObj(map["chain" := JStr("solana"), "signature" := JStr(signature), "transaction" := tx]))
  }

  /** `Array.prototype.slice(0, n)`'s end index: `n` truncated toward zero,
      counted from the end when negative, clamped to the length. */
  function SliceEnd(len: nat, n: real): (r: nat)
    ensures r <= len
    ensures n >= 0.0 ==> r == if Trunc(n) < len then Trunc(n) else len
  {
    var k := Trunc(n);
    if k < 0 then (if len + k < 0 then 0 else len + k)
    else if k < len then k else len
  }

  /** `largest?.value?.slice(0, topN) ?? []`, with a `TypeError` from a
      value that has no `slice` caught as `[]`. */
  function TopHolders(largest: Json, topN: real): (r: Json)
    ensures var v := Member(largest, "value");
            && (v.Some? && v.value.JArr? ==> r.JArr? && r.items <= v.value.items && |r.items| == SliceEnd(|v.value.items|, topN))
            && (v.Some? && v.value.JStr? ==> r.JStr? && r.s <= v.value.s && |r.s| == SliceEnd(|v.value.s|, topN))
            && (v.None? || !(v.value.JArr? || v.value.JStr?) ==> r == JArr([]))
  {
    match Member(largest, "value")
    case Some(JArr(items)) => JArr(items[..SliceEnd(|items|, topN)])
    case Some(JStr(s)) => JStr(s[..SliceEnd(|s|, topN)])
    case _ => JArr([])
  }

  /** The snapshot record once both lookups are done. */
  function Snapshot(address: string, supply: Json, topHolders: Json): Json
  {
    JObj(map["chain" := JStr("solana"), "address" := JStr(address), "tokenSupply" := supply,
             "topHolders" := topHolders, "note" := JStr(SnapshotNote)])
  }

  function HolderSnapshot(svc: Services, args: Json): Result<Json, Thrown>
  {
    if !ArgsValid(args, HolderSnapshotArgs) then Err(SchemaErr)
    else
      var chain, address := Str(args, "chain"), Str(args, "address");
      if !IsSolana(chain) then Unsupported(map["chain" := JStr(chain), "address" := JStr(address)])
      else
        var url := RpcUrl(args);
        match svc.rpc(RpcCall(url, "getTokenSupply", [JStr(address)]))
        case Err(e) => Err(e)
        case Ok(supply) =>
          var topHolders := match svc.rpc(RpcCall(url, "getTokenLargestAccounts", [JStr(address)]))
            case Err(_) => JArr([])
            case Ok(largest) => TopHolders(largest, NumberOr(args, "topN", DefaultTopN));
          Ok(Snapshot(address, supply, topHolders))
  }

  /** `neo_holder_snapshot` as written: `topHolders` starts as `null` and is
      reassigned inside the `try` or by the `catch`. */
  method HolderSnapshotSteps(svc: Services, args: Json) returns (result: Result<Json, Thrown>)
    ensures result == HolderSnapshot(svc, args)
  {
    if !ArgsValid(args, HolderSnapshotArgs) {
      return Err(SchemaErr);
    }
    var chain, address := Str(args, "chain"), Str(args, "address");
    if !IsSolana(chain) {
      return Unsupported(map["chain" := JStr(chain), "address" := JStr(address)]);
    }
    var rpcUrl := RpcUrl(args);
    var supply := svc.rpc(RpcCall(rpcUrl, "getTokenSupply", [JStr(address)]));
    if supply.Err? {
      return Err(supply.error);
    }
    var topHolders := JNull;
    var largest := svc.rpc(RpcCall(rpcUrl, "getTokenLargestAccounts", [JStr(address)]));
    if largest.Ok? {
      topHolders := TopHolders(largest.value, NumberOr(args, "topN", DefaultTopN));
    } else {
      topHolders := JArr([]);
    }
    return Ok(Snapshot(address, supply.value, topHolders));
  }

  /** The default handler of a tool. */
  function Run(t: Tool, svc: Services, args: Json): Result<Json, Thrown>
  {
    match t
    case ExplainTokenTool => ExplainToken(svc, args)
    case RiskScanTool => RiskScan(svc, args)
    case SimulateSwapTool => SimulateSwap(svc, args)
    case ExplainTransactionTool => ExplainTransaction(svc, args)
    case HolderSnapshotTool => HolderSnapshot(svc, args)
  }

  // ---------------------------------------------------------------------
  // The registry

  /** NeoToolRegistry: the advertised tools (by name) and, unless only the
      schemas were asked for, the handlers. */
  datatype ToolRegistry = ToolRegistry(tools: seq<string>, handlers: Option<map<string, Client.Handler>>)

  function Handlers(svc: Services): (h: map<string, Client.Handler>)
    ensures h.Keys == HandlerNames
    ensures forall name, args :: name in HandlerNames ==> h[name](args) == Run(ToolOf(name), svc, args)
  {
    map name | name in HandlerNames :: (args => Run(ToolOf(name), svc, args))
  }

  /** `registerDeFiTools`. */
  function RegisterDeFiTools(schemasOnly: bool, svc: Services): (r: ToolRegistry)
    ensures r.tools == ToolNames
    ensures r.handlers.None? <==> schemasOnly
    ensures r.handlers.Some? ==> r.handlers.value.Keys == HandlerNames
    ensures r.handlers.Some? ==> forall name, args :: name in HandlerNames ==> r.handlers.value[name](args) == Run(ToolOf(name), svc, args)
  {
    if schemasOnly then ToolRegistry(ToolNames, None) else ToolRegistry(ToolNames, Some(Handlers(svc)))
  }

  /** Every advertised tool but `neo_glossary` has a handler. */
  lemma {:induction false} ToolsWithoutHandler()
    ensures |ToolNames| == 6 && |HandlerNames| == 5
    ensures forall name :: name in ToolNames ==> (name in HandlerNames <==> name != "neo_glossary")
  {
    assert HandlerNames == {ToolNames[0], ToolNames[1], ToolNames[2], ToolNames[3], ToolNames[5]};
  }

  /** So a model call to `neo_glossary` against the default registry fails
      as an unknown tool. */
  lemma {:induction false} GlossaryUnknownTool(svc: Services, c: Json, parse: string -> Option<Json>, stringify: Json -> string)
    requires Schemas.ToolCallValid(c) && Client.CallName(c) == "neo_glossary"
    ensures var h := RegisterDeFiTools(false, svc).handlers.value;
            Client.CallTool(c, h, parse, stringify) == Client.Failed(Client.UnknownToolError("neo_glossary"), [])
  {
    ToolsWithoutHandler();
    assert "neo_glossary" == ToolNames[4];
  }

  /** Arguments that fail the strict schema make every handler throw the
      schema error; in particular any key the schema does not list. */
  lemma {:induction false} InvalidArgumentsRejected(svc: Services, t: Tool, args: Json)
    requires !ArgsValid(args, SchemaOf(t))
    ensures Run(t, svc, args) == Err(SchemaErr)
  {
  }

  lemma {:induction false} UnknownKeyRejected(t: Tool, args: Json, key: string)
    requires args.JObj? && key in args.fields && key !in SchemaOf(t).Keys
    ensures !ArgsValid(args, SchemaOf(t))
  {
  }

  /** Required fields must be present and strings. */
  lemma {:induction false} RequiredFieldChecked(t: Tool, args: Json, key: string)
    requires key in SchemaOf(t) && SchemaOf(t)[key] == Required
    requires args.JObj? && (key !in args.fields || !args.fields[key].JStr?)
    ensures !ArgsValid(args, SchemaOf(t))
  {
    assert !FieldValid(args.fields, key, SchemaOf(t)[key]);
  }

  /** For a chain other than Solana (compared case-insensitively) every
      handler answers the note record echoing its inputs, without any RPC or
      quote call: the services make no difference. */
  lemma {:induction false} OtherChainNoNetwork(svc: Services, other: Services, t: Tool, args: Json)
    requires ArgsValid(args, SchemaOf(t)) && !IsSolana(Str(args, "chain"))
    ensures Run(t, svc, args) == Run(t, other, args)
    ensures var r := Run(t, svc, args);
            && r.Ok? && r.value.JObj?
            && r.value.fields.Keys == EchoedKeys(t) + {"note"}
            && r.value.fields["note"] == JStr(UnsupportedNote)
            && forall k :: k in EchoedKeys(t) ==> r.value.fields[k] == JStr(Str(args, k))
  {
  }

  /** The inputs a handler echoes for an unsupported chain. */
  function EchoedKeys(t: Tool): set<string>
  {
    match t
    case SimulateSwapTool => {"chain", "inputMint", "outputMint"}
    case ExplainTransactionTool => {"chain", "signature"}
    case _ => {"chain", "address"}
  }

  /** What the handlers read from their arguments. The chain only counts
      through its lower-cased comparison with "solana" when it is Solana. */
  datatype ArgView = ArgView(valid: bool, chain: string, address: string, signature: string, inputMint: string,
                             outputMint: string, amount: string, rpcUrl: string, slippageBps: real, topN: real)

  function ChainKey(chain: string): string
  {
    if IsSolana(chain) then "solana" else chain
  }

  function View(t: Tool, args: Json): ArgView
  {
    ArgView(ArgsValid(args, SchemaOf(t)), ChainKey(Str(args, "chain")), Str(args, "address"), Str(args, "signature"),
            Str(args, "inputMint"), Str(args, "outputMint"), Str(args, "amount"),
            if args.JObj? then RpcUrl(args) else "",
            if args.JObj? then NumberOr(args, "slippageBps", DefaultSlippageBps) else 0.0,
            if args.JObj? then NumberOr(args, "topN", DefaultTopN) else 0.0)
  }

  /** Arguments that look the same to the handlers get the same answer. */
  lemma {:induction false} RunByView(svc: Services, t: Tool, a: Json, b: Json)
    requires View(t, a) == View(t, b)
    ensures Run(t, svc, a) == Run(t, svc, b)
  {
    ChainKeyDecides(Str(a, "chain"), Str(b, "chain"));
    match t
    case ExplainTokenTool => ExplainTokenByView(svc, a, b);
    case RiskScanTool => RiskScanByView(svc, a, b);
    case SimulateSwapTool => SimulateSwapByView(svc, a, b);
    case ExplainTransactionTool => ExplainTransactionByView(svc, a, b);
    case HolderSnapshotTool => HolderSnapshotByView(svc, a, b);
  }

  lemma {:induction false} ChainKeyDecides(c: string, d: string)
    requires ChainKey(c) == ChainKey(d)
    ensures IsSolana(c) <==> IsSolana(d)
    ensures !IsSolana(c) ==> c == d
  {
    assert ToLower("solana") == "solana";
  }

  lemma {:induction false} ExplainTokenByView(svc: Services, a: Json, b: Json)
    requires View(ExplainTokenTool, a) == View(ExplainTokenTool, b)
    requires IsSolana(Str(a, "chain")) <==> IsSolana(Str(b, "chain"))
    requires !IsSolana(Str(a, "chain")) ==> Str(a, "chain") == Str(b, "chain")
    ensures ExplainToken(svc, a) == ExplainToken(svc, b)
  {
  }

  lemma {:induction false} RiskScanByView(svc: Services, a: Json, b: Json)
    requires View(RiskScanTool, a) == View(RiskScanTool, b)
    requires IsSolana(Str(a, "chain")) <==> IsSolana(Str(b, "chain"))
    requires !IsSolana(Str(a, "chain")) ==> Str(a, "chain") == Str(b, "chain")
    ensures RiskScan(svc, a) == RiskScan(svc, b)
  {
  }

  lemma {:induction false} SimulateSwapByView(svc: Services, a: Json, b: Json)
    requires View(SimulateSwapTool, a) == View(SimulateSwapTool, b)
    requires IsSolana(Str(a, "chain")) <==> IsSolana(Str(b, "chain"))
    requires !IsSolana(Str(a, "chain")) ==> Str(a, "chain") == Str(b, "chain")
    ensures SimulateSwap(svc, a) == SimulateSwap(svc, b)
  {
  }

  lemma {:induction false} ExplainTransactionByView(svc: Services, a: Json, b: Json)
    requires View(ExplainTransactionTool, a) == View(ExplainTransactionTool, b)
    requires IsSolana(Str(a, "chain")) <==> IsSolana(Str(b, "chain"))
    requires !IsSolana(Str(a, "chain")) ==> Str(a, "chain") == Str(b, "chain")
    ensures ExplainTransaction(svc, a) == ExplainTransaction(svc, b)
  {
  }

  lemma {:induction false} HolderSnapshotByView(svc: Services, a: Json, b: Json)
    requires View(HolderSnapshotTool, a) == View(HolderSnapshotTool, b)
    requires IsSolana(Str(a, "chain")) <==> IsSolana(Str(b, "chain"))
    requires !IsSolana(Str(a, "chain")) ==> Str(a, "chain") == Str(b, "chain")
    ensures HolderSnapshot(svc, a) == HolderSnapshot(svc, b)
  {
  }

  /** Any capitalisation of "solana" behaves exactly as "solana". */
  lemma {:induction false} ChainCaseInsensitive(svc: Services, t: Tool, args: Json, chain: string)
    requires args.JObj? && "chain" in args.fields && IsSolana(chain)
    ensures Run(t, svc, JObj(args.fields["chain" := JStr(chain)])) == Run(t, svc, JObj(args.fields["chain" := JStr("solana")]))
  {
    var a, b := JObj(args.fields["chain" := JStr(chain)]), JObj(args.fields["chain" := JStr("solana")]);
    assert ToLower("solana") == "solana";
    SameFieldsValid(t, a, b, "chain");
    RunByView(svc, t, a, b);
  }

  /** Two argument objects that differ only in one string field of the
      schema are valid together. */
  lemma {:induction false} SameFieldsValid(t: Tool, a: Json, b: Json, key: string)
    requires a.JObj? && b.JObj? && a.fields.Keys == b.fields.Keys && key in a.fields
    requires a.fields[key].JStr? && b.fields[key].JStr?
    requires forall k :: k in a.fields && k != key ==> a.fields[k] == b.fields[k]
    ensures ArgsValid(a, SchemaOf(t)) <==> ArgsValid(b, SchemaOf(t))
  {
    forall k | k in SchemaOf(t) ensures FieldValid(a.fields, k, SchemaOf(t)[k]) <==> FieldValid(b.fields, k, SchemaOf(t)[k]) {
    }
  }

  /** Leaving `rpcUrl` out is the same as passing the mainnet endpoint. */
  lemma {:induction false} RpcUrlDefault(svc: Services, t: Tool, args: Json)
    requires t != SimulateSwapTool
    requires args.JObj? && "rpcUrl" !in args.fields
    ensures Run(t, svc, args) == Run(t, svc, JObj(args.fields["rpcUrl" := JStr(DefaultSolanaRpc)]))
  {
    var b := JObj(args.fields["rpcUrl" := JStr(DefaultSolanaRpc)]);
    assert "rpcUrl" in SchemaOf(t) && SchemaOf(t)["rpcUrl"] == OptionalString;
    assert ArgsValid(args, SchemaOf(t)) <==> ArgsValid(b, SchemaOf(t)) by {
      forall k | k in SchemaOf(t) ensures FieldValid(args.fields, k, SchemaOf(t)[k]) <==> FieldValid(b.fields, k, SchemaOf(t)[k]) {
      }
    }
    assert View(t, args) == View(t, b);
    RunByView(svc, t, args, b);
  }

  /** Leaving `slippageBps` out quotes with 50 basis points. */
  lemma {:induction false} SlippageDefault(svc: Services, args: Json)
    requires ArgsValid(args, SimulateSwapArgs) && IsSolana(Str(args, "chain")) && "slippageBps" !in args.fields
    ensures SimulateSwap(svc, args)
            == svc.quote(QuoteQuery(Str(args, "inputMint"), Str(args, "outputMint"), Str(args, "amount"), DefaultSlippageBps))
  {
  }

  /** The snapshot keeps the first `topN` (default 5) largest accounts, all
      of them when there are fewer, and none when that lookup throws; a
      failed supply lookup fails the handler. */
  lemma {:induction false} SnapshotHolders(svc: Services, args: Json, items: seq<Json>)
    requires ArgsValid(args, HolderSnapshotArgs) && IsSolana(Str(args, "chain"))
    ensures var supply := svc.rpc(RpcCall(RpcUrl(args), "getTokenSupply", [JStr(Str(args, "address"))]));
            var largest := svc.rpc(RpcCall(RpcUrl(args), "getTokenLargestAccounts", [JStr(Str(args, "address"))]));
            var topN := NumberOr(args, "topN", DefaultTopN);
            var holders := if largest.Ok? then TopHolders(largest.value, topN) else JArr([]);
            var r := HolderSnapshot(svc, args);
            && (supply.Err? ==> r == Err(supply.error))
            && (supply.Ok? ==> r == Ok(Snapshot(Str(args, "address"), supply.value, holders)))
            && (largest == Ok(JObj(map["value" := JArr(items)])) ==> holders == JArr(items[..SliceEnd(|items|, topN)]))
            && (largest == Ok(JObj(map["value" := JArr(items)])) && "topN" !in args.fields ==>
                  holders == JArr(items[..if |items| < 5 then |items| else 5]))
  {
    var largest := svc.rpc(RpcCall(RpcUrl(args), "getTokenLargestAccounts", [JStr(Str(args, "address"))]));
    if largest == Ok(JObj(map["value" := JArr(items)])) {
      assert Member(largest.value, "value") == Some(JArr(items));
      if "topN" !in args.fields {
        assert Trunc(DefaultTopN) == 5;
      }
    }
  }

  /** `hasSupply` is true exactly when the supply's `value` is present and
      not one of JSON's falsy values (null, false, 0, ""). */
  lemma {:induction false} HasSupplyTruthy(supply: Json)
    ensures var v := Member(supply, "value");
            Checklist(supply).fields["hasSupply"] == JBool(
              v.Some? && v.value != JNull && v.value != JBool(false) && v.value != JNum(0.0) && v.value != JStr(""))
  {
  }
}
