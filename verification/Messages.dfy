/**
The two builders of a provider's message list
(crates/bastion-providers/src/lib.rs, crates/bastion-providers/src/gemini.rs).
The raw-JSON builder for Gemini duplicates the shared one; it is proved to
differ from it in `extra_content` only, and to lose nothing of a tool call.
*/
module Messages {
  import opened Events
  import opened JsonValues

  datatype Role = SystemRole | UserRole | AssistantRole | ToolRole

  datatype Part =
    | TextPart(text: string)
    | ToolUse(id: string, name: string, input: Json, extra: Option<Json>)
    | ToolResultPart(toolUseId: string, content: string)

  datatype Content = Plain(text: string) | Parts(parts: seq<Part>)

  datatype Message = Message(role: Role, content: Content)

  /** JSON text, both ways. */
  datatype Codec = Codec(render: Json -> string, parse: string -> Option<Json>)

  /** Each tool input of `parts` survives being rendered and parsed. */
  ghost predicate InputsRoundTrip(codec: Codec, parts: seq<Part>) {
    forall i :: 0 <= i < |parts| && parts[i].ToolUse? ==>
      codec.parse(codec.render(parts[i].input)) == Some(parts[i].input)
  }

  // ---- the shared builder's typed messages, and their wire form

  datatype Call = Call(id: string, name: string, arguments: string)

  datatype Typed =
    | SystemMessage(text: string)
    | UserMessage(text: string)
    | AssistantMessage(said: Option<string>, calls: Option<seq<Call>>)
    | ToolMessage(callId: string, text: string)

  function CallWire(c: Call): Json {
    Obj(map["id" := Str(c.id), "type" := Str("function"),
            "function" := Obj(map["name" := Str(c.name), "arguments" := Str(c.arguments)])])
  }

  function CallWires(calls: seq<Call>): seq<Json> {
    if calls == [] then [] else CallWires(calls[..|calls| - 1]) + [CallWire(calls[|calls| - 1])]
  }

  function RoleText(role: string, text: string): Json {
    Obj(map["role" := Str(role), "content" := Str(text)])
  }

  /** How a typed message is serialized: absent fields are left out. */
  function Wire(m: Typed): Json {
    match m
    case SystemMessage(text) => RoleText("system", text)
    case UserMessage(text) => RoleText("user", text)
    case ToolMessage(id, text) => Obj(map["role" := Str("tool"), "tool_call_id" := Str(id), "content" := Str(text)])
    case AssistantMessage(text, calls) =>
      var base: map<string, Json> := map["role" := Str("assistant")];
      var said := if text.Some? then base["content" := Str(text.value)] else base;
      Obj(if calls.Some? then said["tool_calls" := Arr(CallWires(calls.value))] else said)
  }

  function Wires(messages: seq<Typed>): seq<Json> {
    if messages == [] then [] else Wires(messages[..|messages| - 1]) + [Wire(messages[|messages| - 1])]
  }

  // ---- text

  function Texts(parts: seq<Part>): seq<string> {
    if parts == [] then []
    else
      var rest, last := Texts(parts[..|parts| - 1]), parts[|parts| - 1];
      if last.TextPart? then rest + [last.text] else rest
  }

  /** `texts.join("\n")`. */
  function JoinLines(texts: seq<string>): string {
    if texts == [] then ""
    else if |texts| == 1 then texts[0]
    else JoinLines(texts[..|texts| - 1]) + "\n" + texts[|texts| - 1]
  }

  /** content_text. */
  function ContentText(content: Content): string {
    match content
    case Plain(text) => text
    case Parts(parts) => JoinLines(Texts(parts))
  }

  /** What the assistant branch accumulates: a separator only after some text. */
  function Accumulate(texts: seq<string>): string {
    if texts == [] then ""
    else
      var before := Accumulate(texts[..|texts| - 1]);
      (if before != "" then before + "\n" else "") + texts[|texts| - 1]
  }

  // ---- tool calls

  function Uses(parts: seq<Part>): seq<Part> {
    if parts == [] then []
    else
      var rest, last := Uses(parts[..|parts| - 1]), parts[|parts| - 1];
      if last.ToolUse? then rest + [last] else rest
  }

  function TypedCalls(codec: Codec, parts: seq<Part>): seq<Call> {
    if parts == [] then []
    else
      var rest, last := TypedCalls(codec, parts[..|parts| - 1]), parts[|parts| - 1];
      if last.ToolUse? then rest + [Call(last.id, last.name, codec.render(last.input))] else rest
  }

  function GeminiCall(codec: Codec, use: Part): Json
    requires use.ToolUse?
  {
    var plain := CallWire(Call(use.id, use.name, codec.render(use.input)));
    if use.extra.Some? then Obj(plain.fields["extra_content" := use.extra.value]) else plain
  }

  function GeminiCalls(codec: Codec, parts: seq<Part>): seq<Json> {
    if parts == [] then []
    else
      var rest, last := GeminiCalls(codec, parts[..|parts| - 1]), parts[|parts| - 1];
      if last.ToolUse? then rest + [GeminiCall(codec, last)] else rest
  }

  function PartsOf(content: Content): seq<Part> {
    if content.Parts? then content.parts else []
  }

  function AssistantText(content: Content): string {
    if content.Parts? then Accumulate(Texts(content.parts)) else content.text
  }

  // ---- one message

  function TypedAssistant(codec: Codec, content: Content): Typed {
    var text, calls := AssistantText(content), TypedCalls(codec, PartsOf(content));
    AssistantMessage(if text == "" && calls != [] then None else Some(text), if calls == [] then None else Some(calls))
  }

  function GeminiAssistant(codec: Codec, content: Content): Json {
    var text, calls := AssistantText(content), GeminiCalls(codec, PartsOf(content));
    var base: map<string, Json> := map["role" := Str("assistant")];
    var said := if text != "" || calls == [] then base["content" := Str(text)] else base;
    Obj(if calls != [] then said["tool_calls" := Arr(calls)] else said)
  }

  function ResultMessages(parts: seq<Part>): seq<Typed> {
    if parts == [] then []
    else
      var rest, last := ResultMessages(parts[..|parts| - 1]), parts[|parts| - 1];
      if last.ToolResultPart? then rest + [ToolMessage(last.toolUseId, last.content)] else rest
  }

  function TypedOf(codec: Codec, m: Message): seq<Typed> {
    match m.role
    case SystemRole => [SystemMessage(ContentText(m.content))]
    case UserRole => [UserMessage(ContentText(m.content))]
    case AssistantRole => [TypedAssistant(codec, m.content)]
    case ToolRole =>
      if m.content.Parts? then ResultMessages(m.content.parts) else [UserMessage(ContentText(m.content))]
  }

  function GeminiOf(codec: Codec, m: Message): seq<Json> {
    match m.role
    case SystemRole => [RoleText("system", ContentText(m.content))]
    case UserRole => [RoleText("user", ContentText(m.content))]
    case AssistantRole => [GeminiAssistant(codec, m.content)]
    case ToolRole =>
      if m.content.Parts? then Wires(ResultMessages(m.content.parts)) else [RoleText("user", ContentText(m.content))]
  }

  // ---- the whole list

  function OpenAi(codec: Codec, system: string, messages: seq<Message>): seq<Typed> {
    if messages == [] then if system != "" then [SystemMessage(system)] else []
    else OpenAi(codec, system, messages[..|messages| - 1]) + TypedOf(codec, messages[|messages| - 1])
  }

  function Gemini(codec: Codec, system: string, messages: seq<Message>): seq<Json> {
    if messages == [] then if system != "" then [RoleText("system", system)] else []
    else Gemini(codec, system, messages[..|messages| - 1]) + GeminiOf(codec, messages[|messages| - 1])
  }

  // ---- the builders as they run

  /** build_openai_messages. */
  method BuildOpenAiMessages(codec: Codec, system: string, messages: seq<Message>) returns (out: seq<Typed>)
    ensures out == OpenAi(codec, system, messages)
  {
    out := if system != "" then [SystemMessage(system)] else [];
    for i := 0 to |messages|
      invariant out == OpenAi(codec, system, messages[..i])
    {
      assert messages[..i + 1][..i] == messages[..i];
      var content := messages[i].content;
      match messages[i].role {
        case SystemRole => out := out + [SystemMessage(ContentText(content))];
        case UserRole => out := out + [UserMessage(ContentText(content))];
        case AssistantRole =>
          var text, calls := "", [];
          if content.Parts? {
            text, calls := CollectTyped(codec, content.parts);
          } else {
            text := content.text;
          }
          out := out + [AssistantMessage(if text == "" && calls != [] then None else Some(text),
                                         if calls == [] then None else Some(calls))];
        case ToolRole =>
          if content.Parts? {
            var results := CollectResults(content.parts);
            out := out + results;
          } else {
            out := out + [UserMessage(ContentText(content))];
          }
      }
    }
    assert messages[..|messages|] == messages;
  }

  method CollectTyped(codec: Codec, parts: seq<Part>) returns (text: string, calls: seq<Call>)
    ensures text == Accumulate(Texts(parts)) && calls == TypedCalls(codec, parts)
  {
    text, calls := "", [];
    for i := 0 to |parts|
      invariant text == Accumulate(Texts(parts[..i])) && calls == TypedCalls(codec, parts[..i])
    {
      assert parts[..i + 1][..i] == parts[..i];
      match parts[i] {
        case TextPart(t) =>
          assert (Texts(parts[..i]) + [t])[..|Texts(parts[..i])|] == Texts(parts[..i]);
          if text != "" {
            text := text + "\n";
          }
          text := text + t;
        case ToolUse(id, name, input, _) => calls := calls + [Call(id, name, codec.render(input))];
        case ToolResultPart(_, _) =>
      }
    }
    assert parts[..|parts|] == parts;
  }

  method CollectResults(parts: seq<Part>) returns (out: seq<Typed>)
    ensures out == ResultMessages(parts)
  {
    out := [];
    for i := 0 to |parts|
      invariant out == ResultMessages(parts[..i])
    {
      assert parts[..i + 1][..i] == parts[..i];
      if parts[i].ToolResultPart? {
        out := out + [ToolMessage(parts[i].toolUseId, parts[i].content)];
      }
    }
    assert parts[..|parts|] == parts;
  }

  /** build_gemini_messages. */
  method BuildGeminiMessages(codec: Codec, system: string, messages: seq<Message>) returns (out: seq<Json>)
    ensures out == Gemini(codec, system, messages)
  {
    out := if system != "" then [RoleText("system", system)] else [];
    for i := 0 to |messages|
      invariant out == Gemini(codec, system, messages[..i])
    {
      assert messages[..i + 1][..i] == messages[..i];
      var content := messages[i].content;
      match messages[i].role {
        case SystemRole => out := out + [RoleText("system", ContentText(content))];
        case UserRole => out := out + [RoleText("user", ContentText(content))];
        case AssistantRole =>
          var text, calls := "", [];
          if content.Parts? {
            text, calls := CollectGemini(codec, content.parts);
          } else {
            text := content.text;
          }
          var entry: map<string, Json> := map["role" := Str("assistant")];
          if text != "" || calls == [] {
            entry := entry["content" := Str(text)];
          }
          if calls != [] {
            entry := entry["tool_calls" := Arr(calls)];
          }
          out := out + [Obj(entry)];
        case ToolRole =>
          if content.Parts? {
            var results := CollectResultWires(content.parts);
            out := out + results;
          } else {
            out := out + [RoleText("user", ContentText(content))];
          }
      }
    }
    assert messages[..|messages|] == messages;
  }

  method CollectGemini(codec: Codec, parts: seq<Part>) returns (text: string, calls: seq<Json>)
    ensures text == Accumulate(Texts(parts)) && calls == GeminiCalls(codec, parts)
  {
    text, calls := "", [];
    for i := 0 to |parts|
      invariant text == Accumulate(Texts(parts[..i])) && calls == GeminiCalls(codec, parts[..i])
    {
      assert parts[..i + 1][..i] == parts[..i];
      match parts[i] {
        case TextPart(t) =>
          assert (Texts(parts[..i]) + [t])[..|Texts(parts[..i])|] == Texts(parts[..i]);
          if text != "" {
            text := text + "\n";
          }
          text := text + t;
        case ToolUse(id, name, input, extra) =>
          var call := map["id" := Str(id), "type" := Str("function"),
            "function" := Obj(map["name" := Str(name), "arguments" := Str(codec.render(input))])];
          if extra.Some? {
            call := call["extra_content" := extra.value];
          }
          calls := calls + [Obj(call)];
        case ToolResultPart(_, _) =>
      }
    }
    assert parts[..|parts|] == parts;
  }

  method CollectResultWires(parts: seq<Part>) returns (out: seq<Json>)
    ensures out == Wires(ResultMessages(parts))
  {
    out := [];
    for i := 0 to |parts|
      invariant out == Wires(ResultMessages(parts[..i]))
    {
      assert parts[..i + 1][..i] == parts[..i];
      if parts[i].ToolResultPart? {
        var before := ResultMessages(parts[..i]);
        assert (before + [ToolMessage(parts[i].toolUseId, parts[i].content)])[..|before|] == before;
        out := out + [Obj(map["role" := Str("tool"), "tool_call_id" := Str(parts[i].toolUseId),
                              "content" := Str(parts[i].content)])];
      }
    }
    assert parts[..|parts|] == parts;
  }

  // ---- the two lists agree

  function EraseKey(v: Json): Json {
    if v.Obj? then Obj(v.fields - {"extra_content"}) else v
  }

  function EraseKeys(items: seq<Json>): seq<Json> {
    if items == [] then [] else EraseKeys(items[..|items| - 1]) + [EraseKey(items[|items| - 1])]
  }

  /** A message without the `extra_content` of its tool calls. */
  function EraseExtra(v: Json): Json {
    if v.Obj? && "tool_calls" in v.fields && v.fields["tool_calls"].Arr?
    then Obj(v.fields["tool_calls" := Arr(EraseKeys(v.fields["tool_calls"].items))])
    else v
  }

  function EraseAll(messages: seq<Json>): seq<Json> {
    if messages == [] then [] else EraseAll(messages[..|messages| - 1]) + [EraseExtra(messages[|messages| - 1])]
  }

  lemma {:induction false} EraseAllAppend(a: seq<Json>, b: seq<Json>)
    ensures EraseAll(a + b) == EraseAll(a) + EraseAll(b)
  {
    if b == [] {
      assert a + b == a;
    } else {
      EraseAllAppend(a, b[..|b| - 1]);
      assert (a + b)[..|a + b| - 1] == a + b[..|b| - 1];
    }
  }

  lemma {:induction false} WiresAppend(a: seq<Typed>, b: seq<Typed>)
    ensures Wires(a + b) == Wires(a) + Wires(b)
  {
    if b == [] {
      assert a + b == a;
    } else {
      WiresAppend(a, b[..|b| - 1]);
      assert (a + b)[..|a + b| - 1] == a + b[..|b| - 1];
    }
  }

  lemma EraseOne(v: Json)
    ensures EraseAll([v]) == [EraseExtra(v)]
  {
    assert [v][..0] == [];
  }

  lemma WireOne(m: Typed)
    ensures Wires([m]) == [Wire(m)]
  {
    assert [m][..0] == [];
  }

  lemma ErasedCall(codec: Codec, use: Part)
    requires use.ToolUse?
    ensures EraseKey(GeminiCall(codec, use)) == CallWire(Call(use.id, use.name, codec.render(use.input)))
  {
    var plain := CallWire(Call(use.id, use.name, codec.render(use.input)));
    assert plain.fields - {"extra_content"} == plain.fields;
    if use.extra.Some? {
      assert plain.fields["extra_content" := use.extra.value] - {"extra_content"} == plain.fields;
    }
  }

  lemma {:induction false} ErasedCalls(codec: Codec, parts: seq<Part>)
    ensures EraseKeys(GeminiCalls(codec, parts)) == CallWires(TypedCalls(codec, parts))
    ensures GeminiCalls(codec, parts) == [] <==> TypedCalls(codec, parts) == []
  {
    if parts != [] {
      var before, last := parts[..|parts| - 1], parts[|parts| - 1];
      ErasedCalls(codec, before);
      if last.ToolUse? {
        ErasedCall(codec, last);
        var g, c := GeminiCalls(codec, before), TypedCalls(codec, before);
        assert (g + [GeminiCall(codec, last)])[..|g|] == g;
        assert (c + [Call(last.id, last.name, codec.render(last.input))])[..|c|] == c;
      }
    }
  }

  lemma ErasedAssistant(codec: Codec, content: Content)
    ensures EraseExtra(GeminiAssistant(codec, content)) == Wire(TypedAssistant(codec, content))
  {
    ErasedCalls(codec, PartsOf(content));
    hide GeminiCalls, TypedCalls, AssistantText, CallWires, EraseKeys;
    assert EraseExtra(GeminiAssistant(codec, content)).fields == Wire(TypedAssistant(codec, content)).fields;
  }

  lemma {:induction false} ErasedResults(messages: seq<Typed>)
    requires forall i :: 0 <= i < |messages| ==> !messages[i].AssistantMessage?
    ensures EraseAll(Wires(messages)) == Wires(messages)
  {
    if messages != [] {
      ErasedResults(messages[..|messages| - 1]);
      var w := Wires(messages[..|messages| - 1]);
      assert (w + [Wire(messages[|messages| - 1])])[..|w|] == w;
    }
  }

  lemma {:induction false} ResultsNotAssistant(parts: seq<Part>)
    ensures forall i :: 0 <= i < |ResultMessages(parts)| ==> ResultMessages(parts)[i].ToolMessage?
  {
    if parts != [] {
      ResultsNotAssistant(parts[..|parts| - 1]);
    }
  }

  lemma ErasedOf(codec: Codec, m: Message)
    ensures EraseAll(GeminiOf(codec, m)) == Wires(TypedOf(codec, m))
  {
    hide GeminiAssistant, TypedAssistant;
    match m.role
    case SystemRole =>
      EraseOne(RoleText("system", ContentText(m.content)));
      WireOne(SystemMessage(ContentText(m.content)));
    case AssistantRole =>
      ErasedAssistant(codec, m.content);
      EraseOne(GeminiAssistant(codec, m.content));
      WireOne(TypedAssistant(codec, m.content));
    case UserRole =>
      EraseOne(RoleText("user", ContentText(m.content)));
      WireOne(UserMessage(ContentText(m.content)));
    case ToolRole =>
      if m.content.Parts? {
        ResultsNotAssistant(m.content.parts);
        ErasedResults(ResultMessages(m.content.parts));
      } else {
        EraseOne(RoleText("user", ContentText(m.content)));
        WireOne(UserMessage(ContentText(m.content)));
      }
  }

  /** For every history, the Gemini list without `extra_content` is the shared list's wire form. */
  lemma {:induction false} BuildersAgree(codec: Codec, system: string, messages: seq<Message>)
    ensures EraseAll(Gemini(codec, system, messages)) == Wires(OpenAi(codec, system, messages))
  {
    if messages == [] {
      EraseOne(RoleText("system", system));
      WireOne(SystemMessage(system));
    } else {
      hide GeminiOf, TypedOf;
      var before, last := messages[..|messages| - 1], messages[|messages| - 1];
      BuildersAgree(codec, system, before);
      ErasedOf(codec, last);
      EraseAllAppend(Gemini(codec, system, before), GeminiOf(codec, last));
      WiresAppend(OpenAi(codec, system, before), TypedOf(codec, last));
    }
  }

  // ---- ids keep their order and multiplicity

  function CallIds(calls: seq<Call>): seq<string> {
    seq(|calls|, i requires 0 <= i < |calls| => calls[i].id)
  }

  /** The ids a message carries: of tool results, or of tool calls. */
  function SentIds(m: Typed, results: bool): seq<string> {
    match m
    case AssistantMessage(_, calls) => if !results && calls.Some? then CallIds(calls.value) else []
    case ToolMessage(id, _) => if results then [id] else []
    case _ => []
  }

  function AllSentIds(messages: seq<Typed>, results: bool): seq<string> {
    if messages == [] then []
    else AllSentIds(messages[..|messages| - 1], results) + SentIds(messages[|messages| - 1], results)
  }

  function PartIds(parts: seq<Part>, results: bool): seq<string> {
    if parts == [] then []
    else
      var rest, last := PartIds(parts[..|parts| - 1], results), parts[|parts| - 1];
      if results && last.ToolResultPart? then rest + [last.toolUseId]
      else if !results && last.ToolUse? then rest + [last.id]
      else rest
  }

  /** The ids of a message of the history: assistants call, tools answer. */
  function MessageIds(m: Message, results: bool): seq<string> {
    if m.role == if results then ToolRole else AssistantRole then PartIds(PartsOf(m.content), results) else []
  }

  function HistoryIds(messages: seq<Message>, results: bool): seq<string> {
    if messages == [] then []
    else HistoryIds(messages[..|messages| - 1], results) + MessageIds(messages[|messages| - 1], results)
  }

  lemma AllSentIdsLast(init: seq<Typed>, last: Typed, results: bool)
    ensures AllSentIds(init + [last], results) == AllSentIds(init, results) + SentIds(last, results)
  {
    hide SentIds;
    assert (init + [last])[..|init|] == init;
  }

  lemma AllSentIdsNone(results: bool)
    ensures AllSentIds([], results) == []
  {
  }

  lemma {:induction false} AllSentIdsAppend(a: seq<Typed>, b: seq<Typed>, results: bool)
    ensures AllSentIds(a + b, results) == AllSentIds(a, results) + AllSentIds(b, results)
  {
    hide AllSentIds, SentIds;
    if b == [] {
      AllSentIdsNone(results);
      assert a + b == a;
    } else {
      var init, last := b[..|b| - 1], b[|b| - 1];
      AllSentIdsAppend(a, init, results);
      AllSentIdsLast(a + init, last, results);
      AllSentIdsLast(init, last, results);
      assert b == init + [last] && a + b == a + init + [last];
    }
  }

  lemma {:induction false} CallIdsOf(codec: Codec, parts: seq<Part>)
    ensures CallIds(TypedCalls(codec, parts)) == PartIds(parts, false)
  {
    if parts != [] {
      CallIdsOf(codec, parts[..|parts| - 1]);
    }
  }

  lemma {:induction false} ResultIdsOf(parts: seq<Part>, results: bool)
    ensures AllSentIds(ResultMessages(parts), results) == if results then PartIds(parts, true) else []
  {
    if parts != [] {
      var before, last := parts[..|parts| - 1], parts[|parts| - 1];
      ResultIdsOf(before, results);
      if last.ToolResultPart? {
        AllSentIdsAppend(ResultMessages(before), [ToolMessage(last.toolUseId, last.content)], results);
        SentIdsOne(ToolMessage(last.toolUseId, last.content), results);
      }
    }
  }

  lemma SentIdsOne(m: Typed, results: bool)
    ensures AllSentIds([m], results) == SentIds(m, results)
  {
    assert [m][..0] == [];
    assert AllSentIds([m], results) == AllSentIds([], results) + SentIds(m, results);
  }

  lemma IdsOfOne(codec: Codec, m: Message, results: bool)
    ensures AllSentIds(TypedOf(codec, m), results) == MessageIds(m, results)
  {
    CallIdsOf(codec, PartsOf(m.content));
    if m.role == ToolRole && m.content.Parts? {
      ResultIdsOf(m.content.parts, results);
    } else {
      SentIdsOne(TypedOf(codec, m)[0], results);
      assert TypedOf(codec, m) == [TypedOf(codec, m)[0]];
    }
  }

  /** Every tool call and every tool result of the history is sent once, in order, and no other. */
  lemma {:induction false} IdsKept(codec: Codec, system: string, messages: seq<Message>, results: bool)
    ensures AllSentIds(OpenAi(codec, system, messages), results) == HistoryIds(messages, results)
  {
    if messages == [] {
      SentIdsOne(SystemMessage(system), results);
    } else {
      hide TypedOf, MessageIds;
      var before, last := messages[..|messages| - 1], messages[|messages| - 1];
      IdsKept(codec, system, before, results);
      AllSentIdsAppend(OpenAi(codec, system, before), TypedOf(codec, last), results);
      IdsOfOne(codec, last, results);
    }
  }

  /** The ids a message of the raw list carries. */
  function JsonIds(v: Json, results: bool): seq<string> {
    if results then
      var id := AsText(Get(v, "tool_call_id"));
      if id.Some? then [id.value] else []
    else JsonCallIds(Or(AsItems(Get(v, "tool_calls")), []))
  }

  function JsonCallIds(items: seq<Json>): seq<string> {
    if items == [] then []
    else
      var rest, id := JsonCallIds(items[..|items| - 1]), AsText(Get(items[|items| - 1], "id"));
      if id.Some? then rest + [id.value] else rest
  }

  function AllJsonIds(messages: seq<Json>, results: bool): seq<string> {
    if messages == [] then []
    else AllJsonIds(messages[..|messages| - 1], results) + JsonIds(messages[|messages| - 1], results)
  }

  lemma {:induction false} CallWireIds(calls: seq<Call>)
    ensures JsonCallIds(CallWires(calls)) == CallIds(calls)
  {
    if calls != [] {
      var before, last := calls[..|calls| - 1], calls[|calls| - 1];
      CallWireIds(before);
      assert (CallWires(before) + [CallWire(last)])[..|CallWires(before)|] == CallWires(before);
      assert CallIds(calls) == CallIds(before) + [last.id];
    }
  }

  lemma WireIds(m: Typed, results: bool)
    ensures JsonIds(Wire(m), results) == SentIds(m, results)
  {
    if m.AssistantMessage? && m.calls.Some? {
      CallWireIds(m.calls.value);
    }
  }

  lemma {:induction false} AllWireIds(messages: seq<Typed>, results: bool)
    ensures AllJsonIds(Wires(messages), results) == AllSentIds(messages, results)
  {
    if messages != [] {
      hide Wire, JsonIds, SentIds;
      var before, last := messages[..|messages| - 1], messages[|messages| - 1];
      AllWireIds(before, results);
      WireIds(last, results);
      assert (Wires(before) + [Wire(last)])[..|Wires(before)|] == Wires(before);
    }
  }

  lemma {:induction false} ErasedCallIds(items: seq<Json>)
    ensures JsonCallIds(EraseKeys(items)) == JsonCallIds(items)
  {
    if items != [] {
      var before, last := items[..|items| - 1], items[|items| - 1];
      ErasedCallIds(before);
      assert (EraseKeys(before) + [EraseKey(last)])[..|EraseKeys(before)|] == EraseKeys(before);
      assert AsText(Get(EraseKey(last), "id")) == AsText(Get(last, "id"));
    }
  }

  lemma ErasedIds(v: Json, results: bool)
    ensures JsonIds(EraseExtra(v), results) == JsonIds(v, results)
  {
    if v.Obj? && "tool_calls" in v.fields && v.fields["tool_calls"].Arr? {
      ErasedCallIds(v.fields["tool_calls"].items);
    }
  }

  lemma {:induction false} AllErasedIds(messages: seq<Json>, results: bool)
    ensures AllJsonIds(EraseAll(messages), results) == AllJsonIds(messages, results)
  {
    if messages != [] {
      hide EraseExtra, JsonIds;
      var before, last := messages[..|messages| - 1], messages[|messages| - 1];
      AllErasedIds(before, results);
      ErasedIds(last, results);
      assert (EraseAll(before) + [EraseExtra(last)])[..|EraseAll(before)|] == EraseAll(before);
    }
  }

  /** The same of the Gemini list, read out of the raw messages. */
  lemma GeminiIdsKept(codec: Codec, system: string, messages: seq<Message>, results: bool)
    ensures AllJsonIds(Gemini(codec, system, messages), results) == HistoryIds(messages, results)
  {
    hide EraseAll, AllJsonIds, Gemini, OpenAi, Wires, AllSentIds, HistoryIds;
    BuildersAgree(codec, system, messages);
    AllErasedIds(Gemini(codec, system, messages), results);
    AllWireIds(OpenAi(codec, system, messages), results);
    IdsKept(codec, system, messages, results);
  }

  // ---- parsing what was sent

  /** A tool call as the provider returns it. */
  datatype ParsedCall = ParsedCall(id: string, name: string, input: Json, extra: Option<Json>)

  function ParseCall(codec: Codec, v: Json): Option<ParsedCall> {
    var id, name := AsText(Get(v, "id")), AsText(Then(Get(v, "function"), "name"));
    if id.None? || name.None? then None
    else
      var text := AsText(Then(Get(v, "function"), "arguments"));
      var parsed := if text.Some? then codec.parse(text.value) else None;
      Some(ParsedCall(id.value, name.value, Or(parsed, Obj(map[])), Get(v, "extra_content")))
  }

  function ParseCalls(codec: Codec, items: seq<Json>): seq<ParsedCall> {
    if items == [] then []
    else
      var rest, last := ParseCalls(codec, items[..|items| - 1]), ParseCall(codec, items[|items| - 1]);
      if last.Some? then rest + [last.value] else rest
  }

  /** parse_gemini_tool_calls: the calls of the first choice's message. */
  function ParseGeminiToolCalls(codec: Codec, response: Json): seq<ParsedCall> {
    var choices := AsItems(Get(response, "choices"));
    if choices.None? || choices.value == [] then []
    else ParseCalls(codec, Or(AsItems(Then(Get(choices.value[0], "message"), "tool_calls")), []))
  }

  function Original(uses: seq<Part>): seq<ParsedCall>
    requires forall i :: 0 <= i < |uses| ==> uses[i].ToolUse?
  {
    seq(|uses|, i requires 0 <= i < |uses| => ParsedCall(uses[i].id, uses[i].name, uses[i].input, uses[i].extra))
  }

  lemma {:induction false} UsesAreUses(parts: seq<Part>)
    ensures forall i :: 0 <= i < |Uses(parts)| ==> Uses(parts)[i].ToolUse?
  {
    if parts != [] {
      UsesAreUses(parts[..|parts| - 1]);
    }
  }

  lemma CallParses(codec: Codec, use: Part)
    requires use.ToolUse? && codec.parse(codec.render(use.input)) == Some(use.input)
    ensures ParseCall(codec, GeminiCall(codec, use)) == Some(ParsedCall(use.id, use.name, use.input, use.extra))
  {
  }

  lemma {:induction false} CallsParse(codec: Codec, parts: seq<Part>)
    requires InputsRoundTrip(codec, parts)
    ensures (forall i :: 0 <= i < |Uses(parts)| ==> Uses(parts)[i].ToolUse?)
      && ParseCalls(codec, GeminiCalls(codec, parts)) == Original(Uses(parts))
  {
    hide GeminiCall, ParseCall;
    UsesAreUses(parts);
    if parts != [] {
      var before, last := parts[..|parts| - 1], parts[|parts| - 1];
      CallsParse(codec, before);
      if last.ToolUse? {
        CallParses(codec, last);
        var g := GeminiCalls(codec, before);
        assert (g + [GeminiCall(codec, last)])[..|g|] == g;
      }
    }
  }

  /** The response whose only choice is `message`. */
  function ResponseWith(message: Json): Json {
    Obj(map["choices" := Arr([Obj(map["message" := message])])])
  }

  /** An assistant message sent to Gemini parses back to its tool calls, ids, inputs and extras included. */
  lemma SentCallsParseBack(codec: Codec, parts: seq<Part>)
    requires InputsRoundTrip(codec, parts)
    ensures (forall i :: 0 <= i < |Uses(parts)| ==> Uses(parts)[i].ToolUse?)
      && ParseGeminiToolCalls(codec, ResponseWith(GeminiAssistant(codec, Parts(parts)))) == Original(Uses(parts))
  {
    hide GeminiCalls, Uses, AssistantText;
    CallsParse(codec, parts);
    var calls, entry := GeminiCalls(codec, parts), GeminiAssistant(codec, Parts(parts));
    assert Get(ResponseWith(entry), "choices") == Some(Arr([Obj(map["message" := entry])]));
    assert Get(entry, "tool_calls") == if calls == [] then None else Some(Arr(calls));
  }

  // ---- the two ways of joining text

  /** Leading empty texts leave no separator in an assistant message; elsewhere they do. */
  lemma {:induction false} AccumulateExact(texts: seq<string>)
    ensures Accumulate(texts) == JoinLines(texts) <==> |texts| <= 1 || texts[0] != ""
    ensures texts != [] && texts[0] != "" ==> Accumulate(texts) != ""
    ensures |Accumulate(texts)| <= |JoinLines(texts)|
  {
    if |texts| > 1 {
      var before := texts[..|texts| - 1];
      AccumulateExact(before);
      assert before[0] == texts[0];
      if texts[0] == "" {
        ShorterWhenEmpty(texts);
      }
    }
  }

  lemma {:induction false} ShorterWhenEmpty(texts: seq<string>)
    requires |texts| > 1 && texts[0] == ""
    ensures |Accumulate(texts)| < |JoinLines(texts)|
  {
    var before := texts[..|texts| - 1];
    if |texts| == 2 {
      assert before == [""];
      EmptyFirst();
      assert Accumulate(texts) == texts[1];
      assert JoinLines(texts) == "" + "\n" + texts[1];
    } else {
      ShorterWhenEmpty(before);
    }
  }

  lemma EmptyFirst()
    ensures Accumulate([""]) == "" && JoinLines([""]) == ""
  {
    assert [""][..0] == [];
    assert Accumulate([]) == "";
  }
}
