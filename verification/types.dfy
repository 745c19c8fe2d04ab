/** The zod schemas of packages/sdk/src/types.ts as predicates over JSON
    values, and what a successful `parse` returns. zod's default object
    schema accepts unknown keys and drops them from its output ("strip");
    `.strict()` rejects them; `.passthrough()` keeps them. So a parsed
    message keeps its own extra keys only in a response, while the entries of
    `tool_calls`, their `function` objects and the entries of `choices` always
    lose theirs. */
module Schemas {
  import opened Base

  const Roles: set<string> := {"system", "user", "assistant", "tool"}
  const MessageKeys: set<string> := {"role", "content", "name", "tool_call_id", "tool_calls"}
  const RequestKeys: set<string> := {"model", "messages", "tools", "tool_choice", "temperature", "max_tokens", "stream"}
  const ToolCallKeys: set<string> := {"id", "type", "function"}
  const FunctionKeys: set<string> := {"name", "arguments"}
  const ChoiceKeys: set<string> := {"index", "message", "finish_reason"}

  predicate StrField(m: map<string, Json>, key: string)
  {
    key in m && m[key].JStr?
  }

  predicate OptStrField(m: map<string, Json>, key: string)
  {
    key in m ==> m[key].JStr?
  }

  /** The tool-call entry of NeoChatMessageSchema (a non-strict object). */
  predicate ToolCallValid(j: Json)
  {
    && j.JObj?
    && StrField(j.fields, "id")
    && "type" in j.fields && j.fields["type"] == JStr("function")
    && "function" in j.fields && j.fields["function"].JObj?
    && StrField(j.fields["function"].fields, "name")
    && StrField(j.fields["function"].fields, "arguments")
  }

  /** NeoChatMessageSchema; with `strict` false it is the `.passthrough()`
      variant used for responses. */
  predicate MessageValid(j: Json, strict: bool)
  {
    && j.JObj?
    && var m := j.fields;
    && "role" in m && m["role"].JStr? && m["role"].s in Roles
    && ("content" in m ==> m["content"].JStr? || m["content"].JNull?)
    && OptStrField(m, "name")
    && OptStrField(m, "tool_call_id")
    && ("tool_calls" in m ==>
          m["tool_calls"].JArr? && forall i :: 0 <= i < |m["tool_calls"].items| ==> ToolCallValid(m["tool_calls"].items[i]))
    && (strict ==> m.Keys <= MessageKeys)
  }

  /** NeoChatCompletionRequestSchema (strict). `tools` items and `tool_choice`
      accept any value. */
  predicate RequestValid(m: map<string, Json>)
  {
    && m.Keys <= RequestKeys
    && OptStrField(m, "model")
    && "messages" in m && m["messages"].JArr?
    && (forall i :: 0 <= i < |m["messages"].items| ==> MessageValid(m["messages"].items[i], true))
    && ("tools" in m ==> m["tools"].JArr?)
    && ("temperature" in m ==> m["temperature"].JNum? && 0.0 <= m["temperature"].n <= 2.0)
    && ("max_tokens" in m ==> m["max_tokens"].JNum? && IsInteger(m["max_tokens"].n) && m["max_tokens"].n > 0.0)
    && ("stream" in m ==> m["stream"].JBool?)
  }

  /** One entry of `choices` in NeoChatCompletionResponseSchema. */
  predicate ChoiceValid(j: Json)
  {
    && j.JObj?
    && "index" in j.fields && j.fields["index"].JNum?
    && "message" in j.fields && MessageValid(j.fields["message"], false)
    && "finish_reason" in j.fields && (j.fields["finish_reason"].JStr? || j.fields["finish_reason"].JNull?)
  }

  /** NeoChatCompletionResponseSchema (passthrough at the top level). */
  predicate ResponseValid(j: Json)
  {
    && j.JObj?
    && var m := j.fields;
    && StrField(m, "id") && StrField(m, "object")
    && "created" in m && m["created"].JNum?
    && StrField(m, "model")
    && "choices" in m && m["choices"].JArr?
    && (forall i :: 0 <= i < |m["choices"].items| ==> ChoiceValid(m["choices"].items[i]))
    && ("usage" in m ==> m["usage"].JObj?)
  }

  function Restrict(m: map<string, Json>, keys: set<string>): (r: map<string, Json>)
    ensures r.Keys == m.Keys * keys
    ensures forall k :: k in r ==> r[k] == m[k]
  {
    map k | k in m && k in keys :: m[k]
  }

  /** What parsing a valid tool-call entry returns: unknown keys dropped
      from the entry and from its `function` object. */
  function StripToolCall(j: Json): (r: Json)
    requires ToolCallValid(j)
    ensures ToolCallValid(r) && r.fields.Keys == ToolCallKeys
    ensures r.fields["id"] == j.fields["id"]
    ensures r.fields["function"].fields.Keys == FunctionKeys
    ensures r.fields["function"].fields["name"] == j.fields["function"].fields["name"]
    ensures r.fields["function"].fields["arguments"] == j.fields["function"].fields["arguments"]
  {
    var f := j.fields["function"];
    JObj(Restrict(j.fields, ToolCallKeys)["function" := JObj(Restrict(f.fields, FunctionKeys))])
  }

  /** What parsing a valid message returns: every tool-call entry stripped,
      the message's own keys kept. */
  function StripMessage(j: Json, strict: bool): (r: Json)
    requires MessageValid(j, strict)
    ensures MessageValid(r, strict)
    ensures r.fields.Keys == j.fields.Keys
    ensures forall k :: k in j.fields && k != "tool_calls" ==> r.fields[k] == j.fields[k]
    ensures "tool_calls" in j.fields ==> |r.fields["tool_calls"].items| == |j.fields["tool_calls"].items|
  {
    if "tool_calls" in j.fields then
      var calls := j.fields["tool_calls"].items;
      JObj(j.fields["tool_calls" := JArr(seq(|calls|, i requires 0 <= i < |calls| => StripToolCall(calls[i])))])
    else j
  }

  function StripChoice(j: Json): (r: Json)
    requires ChoiceValid(j)
    ensures ChoiceValid(r) && r.fields.Keys == ChoiceKeys
    ensures r.fields["index"] == j.fields["index"] && r.fields["finish_reason"] == j.fields["finish_reason"]
  {
    JObj(Restrict(j.fields, ChoiceKeys)["message" := StripMessage(j.fields["message"], false)])
  }

  /** `NeoChatCompletionResponseSchema.parse` on a valid response. */
  function StripResponse(j: Json): (r: Json)
    requires ResponseValid(j)
    ensures ResponseValid(r)
    ensures r.fields.Keys == j.fields.Keys
    ensures forall k :: k in j.fields && k != "choices" ==> r.fields[k] == j.fields[k]
    ensures |r.fields["choices"].items| == |j.fields["choices"].items|
  {
    var cs := j.fields["choices"].items;
    JObj(j.fields["choices" := JArr(seq(|cs|, i requires 0 <= i < |cs| => StripChoice(cs[i])))])
  }

  /** `NeoChatCompletionRequestSchema.parse` on a valid request. */
  function StripRequest(m: map<string, Json>): (r: map<string, Json>)
    requires RequestValid(m)
    ensures RequestValid(r)
    ensures r.Keys == m.Keys
    ensures forall k :: k in m && k != "messages" ==> r[k] == m[k]
    ensures |r["messages"].items| == |m["messages"].items|
  {
    var ms := m["messages"].items;
    m["messages" := JArr(seq(|ms|, i requires 0 <= i < |ms| => StripMessage(ms[i], true)))]
  }

  /** Parsing twice gives what parsing once gives. */
  lemma {:induction false} StripToolCallIdempotent(j: Json)
    requires ToolCallValid(j)
    ensures StripToolCall(StripToolCall(j)) == StripToolCall(j)
  {
    var r := StripToolCall(j);
    var rr := StripToolCall(r);
    assert rr.fields["function"].fields == r.fields["function"].fields;
    assert rr.fields == r.fields;
  }

  lemma {:induction false} StripMessageIdempotent(j: Json, strict: bool)
    requires MessageValid(j, strict)
    ensures StripMessage(StripMessage(j, strict), strict) == StripMessage(j, strict)
  {
    var r := StripMessage(j, strict);
    if "tool_calls" in j.fields {
      var calls := r.fields["tool_calls"].items;
      forall i | 0 <= i < |calls| ensures StripToolCall(calls[i]) == calls[i] {
        StripToolCallIdempotent(j.fields["tool_calls"].items[i]);
      }
      var rr := StripMessage(r, strict);
      assert rr.fields["tool_calls"].items == calls;
      assert rr.fields == r.fields;
    }
  }

  lemma {:induction false} StripResponseIdempotent(j: Json)
    requires ResponseValid(j)
    ensures StripResponse(StripResponse(j)) == StripResponse(j)
  {
    var r := StripResponse(j);
    var cs := r.fields["choices"].items;
    forall i | 0 <= i < |cs| ensures StripChoice(cs[i]) == cs[i] {
      var c := j.fields["choices"].items[i];
      StripMessageIdempotent(c.fields["message"], false);
      assert StripChoice(cs[i]).fields == cs[i].fields;
    }
    var rr := StripResponse(r);
    assert rr.fields["choices"].items == cs;
    assert rr.fields == r.fields;
  }

  lemma {:induction false} StripRequestIdempotent(m: map<string, Json>)
    requires RequestValid(m)
    ensures StripRequest(StripRequest(m)) == StripRequest(m)
  {
    var r := StripRequest(m);
    var ms := r["messages"].items;
    forall i | 0 <= i < |ms| ensures StripMessage(ms[i], true) == ms[i] {
      StripMessageIdempotent(m["messages"].items[i], true);
    }
    assert StripRequest(r)["messages"].items == ms;
  }

  /** A request with any top-level key outside the seven allowed ones is rejected. */
  lemma {:induction false} UnknownRequestKeyRejected(m: map<string, Json>, k: string)
    requires k in m && k !in RequestKeys
    ensures !RequestValid(m)
  {
  }

  /** The temperature bounds are inclusive: 0 and 2 pass, anything outside fails. */
  lemma {:induction false} TemperatureBounds(m: map<string, Json>, t: real)
    requires RequestValid(m)
    ensures RequestValid(m["temperature" := JNum(t)]) <==> 0.0 <= t <= 2.0
  {
    var m' := m["temperature" := JNum(t)];
    assert m'["messages"] == m["messages"];
    assert forall k :: k in m' && k != "temperature" ==> k in m && m'[k] == m[k];
  }

  /** `max_tokens` must be a positive integer. */
  lemma {:induction false} MaxTokensPositiveInteger(m: map<string, Json>, x: real)
    requires RequestValid(m)
    ensures RequestValid(m["max_tokens" := JNum(x)]) <==> IsInteger(x) && x > 0.0
  {
    var m' := m["max_tokens" := JNum(x)];
    assert m'["messages"] == m["messages"];
    assert forall k :: k in m' && k != "max_tokens" ==> k in m && m'[k] == m[k];
  }

  /** The smallest valid request: an empty message list. */
  lemma {:induction false} EmptyMessagesAccepted()
    ensures RequestValid(map["messages" := JArr([])])
  {
  }
}
