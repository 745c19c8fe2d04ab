/** The system-prompt builders of packages/sdk/src/prompts.ts. The two
    default prompt texts live in the prompts package and are parameters
    here. */
module Prompts {
  import opened Base

  /** BuildNeoSystemPromptOptions; an absent option is `None`. */
  datatype PromptOptions = PromptOptions(chainHint: Option<string>, extraRules: Option<seq<string>>)

  /** The two default prompts the builders start from. */
  datatype PromptTexts = PromptTexts(system: string, holder: string)

  const RulesHeader := "EXTRA RULES:"

  function ChainLine(hint: string): string
  {
    "CHAIN CONTEXT: " + ("Prefer " + hint + "-first") + " details when applicable, but remain chain-agnostic in design."
  }

  function RuleLines(rules: seq<string>): (r: seq<string>)
    ensures |r| == |rules|
    ensures forall i :: 0 <= i < |rules| ==> r[i] == "- " + rules[i]
  {
    seq(|rules|, i requires 0 <= i < |rules| => "- " + rules[i])
  }

  /** The `extra` lines: the chain line for a non-empty hint, then the rules
      header and one line per rule when there are rules. */
  function ChainPart(options: PromptOptions): seq<string>
  {
    if options.chainHint.Some? && options.chainHint.value != "" then [ChainLine(options.chainHint.value)] else []
  }

  function RulesPart(options: PromptOptions): seq<string>
  {
    if options.extraRules.Some? && |options.extraRules.value| > 0 then [RulesHeader] + RuleLines(options.extraRules.value) else []
  }

  function ExtraLines(options: PromptOptions): seq<string>
  {
    ChainPart(options) + RulesPart(options)
  }

  /** The builders' result: the default text alone when there are no extra
      lines, else the text, a blank line, and the extra lines one per line. */
  function Prompt(base: string, options: PromptOptions): string
  {
    var extra := ExtraLines(options);
    if extra == [] then base else base + "\n\n" + Join(extra, "\n")
  }

  /** `t` occurs in `s` at index `i`. */
  predicate OccursAt(s: string, t: string, i: nat)
  {
    i + |t| <= |s| && s[i..i + |t|] == t
  }

  ghost predicate Contains(s: string, t: string)
  {
    exists i: nat :: OccursAt(s, t, i)
  }

  /** The shared body of both builders, as written: `extra` grows by `push`. */
  method BuildPrompt(base: string, options: PromptOptions) returns (prompt: string)
    ensures prompt == Prompt(base, options)
  {
    var extra: seq<string> := [];
    if options.chainHint.Some? && options.chainHint.value != "" {
      extra := extra + [ChainLine(options.chainHint.value)];
    }
    if options.extraRules.Some? && |options.extraRules.value| > 0 {
      extra := extra + [RulesHeader];
      extra := PushRules(extra, options.extraRules.value);
      assert extra == ChainPart(options) + ([RulesHeader] + RuleLines(options.extraRules.value));
    }
    if |extra| == 0 {
      return base;
    }
    return base + "\n\n" + Join(extra, "\n");
  }

  /** `for (const r of extraRules) extra.push(`- ${r}`)`. */
  method PushRules(extra0: seq<string>, rules: seq<string>) returns (extra: seq<string>)
    ensures extra == extra0 + RuleLines(rules)
  {
    extra := extra0;
    for j := 0 to |rules|
      invariant extra == extra0 + RuleLines(rules[..j])
    {
      assert RuleLines(rules[..j + 1]) == RuleLines(rules[..j]) + ["- " + rules[j]];
      extra := extra + ["- " + rules[j]];
    }
    assert rules[..|rules|] == rules;
  }

  /** `buildNeoSystemPrompt`. */
  method BuildNeoSystemPrompt(texts: PromptTexts, options: PromptOptions) returns (prompt: string)
    ensures prompt == Prompt(texts.system, options)
  {
    prompt := BuildPrompt(texts.system, options);
  }

  /** `buildNeoHolderPrompt`: the same assembly on the holder text. */
  method BuildNeoHolderPrompt(texts: PromptTexts, options: PromptOptions) returns (prompt: string)
    ensures prompt == Prompt(texts.holder, options)
  {
    prompt := BuildPrompt(texts.holder, options);
  }

  /** The default text comes back unchanged exactly when there is neither a
      non-empty hint nor a non-empty rule list. */
  lemma {:induction false} PromptUnchanged(base: string, options: PromptOptions)
    ensures Prompt(base, options) == base <==>
              (options.chainHint.None? || options.chainHint.value == "")
              && (options.extraRules.None? || options.extraRules.value == [])
  {
    if ExtraLines(options) != [] {
      assert |Prompt(base, options)| >= |base| + 2;
    }
  }

  /** `Join` starts with its first part, followed by the separator when there is more. */
  lemma {:induction false} JoinHead(parts: seq<string>, sep: string)
    requires parts != []
    ensures |parts| == 1 ==> Join(parts, sep) == parts[0]
    ensures |parts| > 1 ==> Join(parts, sep) == parts[0] + sep + Join(parts[1..], sep)
  {
  }

  /** With a hint, the prompt is the default text, a blank line and the
      chain line before anything else, so it mentions "Prefer <hint>-first". */
  lemma {:induction false} ChainLineFirst(base: string, options: PromptOptions)
    requires options.chainHint.Some? && options.chainHint.value != ""
    ensures var h := options.chainHint.value;
            && Prompt(base, options)[..|base| + 2 + |ChainLine(h)|] == base + "\n\n" + ChainLine(h)
            && Contains(Prompt(base, options), "Prefer " + h + "-first")
  {
    var h := options.chainHint.value;
    var line := ChainLine(h);
    var extra := ExtraLines(options);
    assert extra == [line] + RulesPart(options);
    JoinHead(extra, "\n");
    var p := Prompt(base, options);
    var rest := Join(extra, "\n")[|line|..];
    assert p == (base + "\n\n" + line) + rest;
    MentionsPrefer(base + "\n\n", h, rest);
  }

  lemma {:induction false} MentionsPrefer(front: string, h: string, rest: string)
    ensures var t := "Prefer " + h + "-first";
            OccursAt(front + ChainLine(h) + rest, t, |front| + 15)
  {
    var t := "Prefer " + h + "-first";
    var tail := " details when applicable, but remain chain-agnostic in design.";
    var s := front + ChainLine(h) + rest;
    assert s == (front + "CHAIN CONTEXT: ") + t + (tail + rest);
    assert |front + "CHAIN CONTEXT: "| == |front| + 15;
  }

  /** The rules follow the chain line (if any): the header, then "- r" for
      each rule, in order, and nothing else. */
  lemma {:induction false} RulesInOrder(options: PromptOptions)
    requires options.extraRules.Some? && options.extraRules.value != []
    ensures var part, rules := RulesPart(options), options.extraRules.value;
            && ExtraLines(options) == ChainPart(options) + part
            && |ChainPart(options)| <= 1
            && |part| == 1 + |rules| && part[0] == RulesHeader
            && forall i :: 0 <= i < |rules| ==> part[1 + i] == "- " + rules[i]
  {
    var part, rules := RulesPart(options), options.extraRules.value;
    forall i | 0 <= i < |rules| ensures part[1 + i] == "- " + rules[i] {
      assert part[1 + i] == RuleLines(rules)[i];
    }
  }
}
