/**
What each message of a history is sent as, part by part, and how the Gemini
list reads: the texts, the tool calls and the tool results arrive whole and in
order.
*/
module MessageTexts {
  import opened Events
  import opened Filters
  import opened JsonValues
  import opened Messages

  // ---- joined texts

  /** The texts in order, with one line break between neighbours. */
  function Interleaved(texts: seq<string>): string {
    if texts == [] then "" else if |texts| == 1 then texts[0] else texts[0] + "\n" + Interleaved(texts[1..])
  }

  /** The pieces between line breaks. */
  function Pieces(s: string): (r: seq<string>)
    ensures |r| >= 1
  {
    if s == "" then [""]
    else
      var rest := Pieces(s[1..]);
      if s[0] == '\n' then [""] + rest else [[s[0]] + rest[0]] + rest[1..]
  }

  ghost predicate OneLine(texts: seq<string>) {
    forall i :: 0 <= i < |texts| ==> '\n' !in texts[i]
  }

  lemma {:induction false} PiecesHead(text: string, rest: string)
    requires '\n' !in text
    ensures Pieces(text) == [text] && Pieces(text + "\n" + rest) == [text] + Pieces(rest)
  {
    if text == "" {
      assert text + "\n" + rest == "\n" + rest;
      assert ("\n" + rest)[1..] == rest;
    } else {
      PiecesHead(text[1..], rest);
      assert (text + "\n" + rest)[1..] == text[1..] + "\n" + rest;
      assert text == [text[0]] + text[1..];
    }
  }

  /** Texts of one line each are got back by splitting. */
  lemma {:induction false} PiecesOfInterleaved(texts: seq<string>)
    requires texts != [] && OneLine(texts)
    ensures Pieces(Interleaved(texts)) == texts
  {
    if |texts| == 1 {
      PiecesHead(texts[0], "");
    } else {
      PiecesOfInterleaved(texts[1..]);
      PiecesHead(texts[0], Interleaved(texts[1..]));
    }
  }

  lemma {:induction false} InterleavedLast(texts: seq<string>, last: string)
    requires texts != []
    ensures Interleaved(texts + [last]) == Interleaved(texts) + "\n" + last
  {
    if |texts| == 1 {
      assert (texts + [last])[1..] == [last];
    } else {
      assert (texts + [last])[1..] == texts[1..] + [last];
      InterleavedLast(texts[1..], last);
    }
  }

  lemma {:induction false} JoinIsInterleaved(texts: seq<string>)
    ensures JoinLines(texts) == Interleaved(texts)
  {
    if |texts| > 1 {
      var init := texts[..|texts| - 1];
      JoinIsInterleaved(init);
      InterleavedLast(init, texts[|texts| - 1]);
      assert texts == init + [texts[|texts| - 1]];
    }
  }

  /** The texts from the first one that is not empty. */
  function FromFirstText(texts: seq<string>): seq<string> {
    if texts != [] && texts[0] == "" then FromFirstText(texts[1..]) else texts
  }

  lemma {:induction false} FromFirstLast(texts: seq<string>, last: string)
    ensures FromFirstText(texts + [last]) ==
      if FromFirstText(texts) == [] && last == "" then [] else FromFirstText(texts) + [last]
  {
    if texts == [] {
      assert texts + [last] == [last] && [last][1..] == [];
    } else {
      assert (texts + [last])[1..] == texts[1..] + [last];
      if texts[0] == "" {
        FromFirstLast(texts[1..], last);
      }
    }
  }

  lemma {:induction false} FromFirstNotEmpty(texts: seq<string>)
    ensures FromFirstText(texts) != [] ==> FromFirstText(texts)[0] != "" && Interleaved(FromFirstText(texts)) != ""
  {
    if texts != [] && texts[0] == "" {
      FromFirstNotEmpty(texts[1..]);
    }
  }

  /** An assistant's text is its texts from the first that is not empty. */
  lemma {:induction false} AccumulateIsInterleaved(texts: seq<string>)
    ensures Accumulate(texts) == Interleaved(FromFirstText(texts))
  {
    if texts != [] {
      var init, last := texts[..|texts| - 1], texts[|texts| - 1];
      AccumulateIsInterleaved(init);
      FromFirstNotEmpty(init);
      FromFirstLast(init, last);
      assert texts == init + [last];
      if FromFirstText(init) != [] {
        InterleavedLast(FromFirstText(init), last);
      }
    }
  }

  // ---- the parts a message is made of

  ghost function IsText(parts: seq<Part>): nat -> bool {
    (i: nat) => i < |parts| && parts[i].TextPart?
  }

  ghost function IsUse(parts: seq<Part>): nat -> bool {
    (i: nat) => i < |parts| && parts[i].ToolUse?
  }

  ghost function IsResult(parts: seq<Part>): nat -> bool {
    (i: nat) => i < |parts| && parts[i].ToolResultPart?
  }

  /** `texts` are the text parts, in order. */
  ghost predicate TextsOf(parts: seq<Part>, texts: seq<string>) {
    exists at: seq<nat> :: Picks(at, |parts|, IsText(parts)) && TextsAt(parts, at, texts)
  }

  ghost predicate TextsAt(parts: seq<Part>, at: seq<nat>, texts: seq<string>) {
    |texts| == |at| && forall k :: 0 <= k < |texts| ==> at[k] < |parts| && parts[at[k]] == TextPart(texts[k])
  }

  ghost predicate CallsOf(codec: Codec, parts: seq<Part>, calls: seq<Call>) {
    exists at: seq<nat> :: Picks(at, |parts|, IsUse(parts)) && CallsAt(codec, parts, at, calls)
  }

  ghost predicate CallsAt(codec: Codec, parts: seq<Part>, at: seq<nat>, calls: seq<Call>) {
    && |calls| == |at|
    && forall k :: 0 <= k < |calls| ==>
         && at[k] < |parts| && parts[at[k]].ToolUse?
         && calls[k] == Call(parts[at[k]].id, parts[at[k]].name, codec.render(parts[at[k]].input))
  }

  ghost predicate ResultsOf(parts: seq<Part>, out: seq<Typed>) {
    exists at: seq<nat> :: Picks(at, |parts|, IsResult(parts)) && ResultsAt(parts, at, out)
  }

  ghost predicate ResultsAt(parts: seq<Part>, at: seq<nat>, out: seq<Typed>) {
    && |out| == |at|
    && forall k :: 0 <= k < |out| ==>
         && at[k] < |parts| && parts[at[k]].ToolResultPart?
         && out[k] == ToolMessage(parts[at[k]].toolUseId, parts[at[k]].content)
  }

  lemma {:induction false} TextsPicked(parts: seq<Part>, n: nat) returns (at: seq<nat>)
    requires n <= |parts|
    ensures Picks(at, n, IsText(parts)) && TextsAt(parts, at, Texts(parts[..n]))
  {
    hide Picks, TextsAt, Texts;
    if n == 0 {
      at := [];
      PicksNone(IsText(parts));
      TextsAtNone(parts);
    } else {
      at := TextsPicked(parts, n - 1);
      PicksNext(at, n - 1, IsText(parts));
      TextsAtNext(parts, at, n - 1);
      if parts[n - 1].TextPart? {
        at := at + [n - 1];
      }
    }
  }

  lemma TextsAtNone(parts: seq<Part>)
    ensures TextsAt(parts, [], Texts(parts[..0]))
  {
  }

  lemma TextsAtNext(parts: seq<Part>, at: seq<nat>, n: nat)
    requires n < |parts| && TextsAt(parts, at, Texts(parts[..n]))
    ensures TextsAt(parts, if parts[n].TextPart? then at + [n] else at, Texts(parts[..n + 1]))
  {
    assert parts[..n + 1][..n] == parts[..n];
  }


  lemma {:induction false} CallsPicked(codec: Codec, parts: seq<Part>, n: nat) returns (at: seq<nat>)
    requires n <= |parts|
    ensures Picks(at, n, IsUse(parts)) && CallsAt(codec, parts, at, TypedCalls(codec, parts[..n]))
  {
    hide Picks, CallsAt, TypedCalls;
    if n == 0 {
      at := [];
      PicksNone(IsUse(parts));
      CallsAtNone(codec, parts);
    } else {
      at := CallsPicked(codec, parts, n - 1);
      PicksNext(at, n - 1, IsUse(parts));
      CallsAtNext(codec, parts, at, n - 1);
      if parts[n - 1].ToolUse? {
        at := at + [n - 1];
      }
    }
  }

  lemma CallsAtNone(codec: Codec, parts: seq<Part>)
    ensures CallsAt(codec, parts, [], TypedCalls(codec, parts[..0]))
  {
  }

  lemma CallsAtNext(codec: Codec, parts: seq<Part>, at: seq<nat>, n: nat)
    requires n < |parts| && CallsAt(codec, parts, at, TypedCalls(codec, parts[..n]))
    ensures CallsAt(codec, parts, if parts[n].ToolUse? then at + [n] else at, TypedCalls(codec, parts[..n + 1]))
  {
    assert parts[..n + 1][..n] == parts[..n];
  }


  lemma {:induction false} ResultsPicked(parts: seq<Part>, n: nat) returns (at: seq<nat>)
    requires n <= |parts|
    ensures Picks(at, n, IsResult(parts)) && ResultsAt(parts, at, ResultMessages(parts[..n]))
  {
    hide Picks, ResultsAt, ResultMessages;
    if n == 0 {
      at := [];
      PicksNone(IsResult(parts));
      ResultsAtNone(parts);
    } else {
      at := ResultsPicked(parts, n - 1);
      PicksNext(at, n - 1, IsResult(parts));
      ResultsAtNext(parts, at, n - 1);
      if parts[n - 1].ToolResultPart? {
        at := at + [n - 1];
      }
    }
  }

  lemma ResultsAtNone(parts: seq<Part>)
    ensures ResultsAt(parts, [], ResultMessages(parts[..0]))
  {
  }

  lemma ResultsAtNext(parts: seq<Part>, at: seq<nat>, n: nat)
    requires n < |parts| && ResultsAt(parts, at, ResultMessages(parts[..n]))
    ensures ResultsAt(parts, if parts[n].ToolResultPart? then at + [n] else at, ResultMessages(parts[..n + 1]))
  {
    assert parts[..n + 1][..n] == parts[..n];
  }


  // ---- what one message is sent as

  /** A message's own text, or its text parts, one line break between neighbours. */
  ghost predicate TextOf(content: Content, text: string) {
    match content
    case Plain(own) => text == own
    case Parts(parts) => exists texts :: TextsOf(parts, texts) && text == Interleaved(texts)
  }

  /** An assistant's: texts before the first that is not empty leave no line break. */
  ghost predicate SpokenText(content: Content, text: string) {
    match content
    case Plain(own) => text == own
    case Parts(parts) => exists texts :: TextsOf(parts, texts) && text == Interleaved(FromFirstText(texts))
  }

  ghost predicate CallsIn(codec: Codec, content: Content, calls: seq<Call>) {
    match content
    case Plain(_) => calls == []
    case Parts(parts) => CallsOf(codec, parts, calls)
  }

  ghost predicate Sends(codec: Codec, m: Message, out: seq<Typed>) {
    match m.role
    case SystemRole => |out| == 1 && out[0].SystemMessage? && TextOf(m.content, out[0].text)
    case UserRole => |out| == 1 && out[0].UserMessage? && TextOf(m.content, out[0].text)
    case AssistantRole =>
      && |out| == 1 && out[0].AssistantMessage?
      && exists text, calls ::
           && SpokenText(m.content, text) && CallsIn(codec, m.content, calls)
           && out[0].said == (if text == "" && calls != [] then None else Some(text))
           && out[0].calls == (if calls == [] then None else Some(calls))
    case ToolRole =>
      match m.content
      case Plain(own) => out == [UserMessage(own)]
      case Parts(parts) => ResultsOf(parts, out)
  }

  lemma ContentTextOf(content: Content)
    ensures TextOf(content, ContentText(content))
  {
    if content.Parts? {
      var parts := content.parts;
      assert parts[..|parts|] == parts;
      var at := TextsPicked(parts, |parts|);
      assert TextsOf(parts, Texts(parts));
      JoinIsInterleaved(Texts(parts));
    }
  }

  lemma AssistantTextOf(content: Content)
    ensures SpokenText(content, AssistantText(content))
  {
    if content.Parts? {
      var parts := content.parts;
      assert parts[..|parts|] == parts;
      var at := TextsPicked(parts, |parts|);
      assert TextsOf(parts, Texts(parts));
      AccumulateIsInterleaved(Texts(parts));
    }
  }

  lemma CallsInContent(codec: Codec, content: Content)
    ensures CallsIn(codec, content, TypedCalls(codec, PartsOf(content)))
  {
    if content.Parts? {
      var parts := content.parts;
      assert parts[..|parts|] == parts;
      var at := CallsPicked(codec, parts, |parts|);
    }
  }

  lemma MessageSends(codec: Codec, m: Message)
    ensures Sends(codec, m, TypedOf(codec, m))
  {
    hide TextOf, SpokenText, CallsIn, ContentText, AssistantText, TypedCalls;
    match m.role
    case SystemRole => ContentTextOf(m.content);
    case UserRole => ContentTextOf(m.content);
    case AssistantRole =>
      AssistantTextOf(m.content);
      CallsInContent(codec, m.content);
    case ToolRole => ToolSends(codec, m);
  }

  lemma ToolSends(codec: Codec, m: Message)
    requires m.role == ToolRole
    ensures Sends(codec, m, TypedOf(codec, m))
  {
    if m.content.Parts? {
      var parts := m.content.parts;
      assert parts[..|parts|] == parts;
      var at := ResultsPicked(parts, |parts|);
    }
  }

  /**
  The shared list: the system prompt, if there is one, then what each message
  of the history is sent as, in order.
  */
  lemma {:induction false} HistorySent(codec: Codec, system: string, messages: seq<Message>)
    returns (segments: seq<seq<Typed>>)
    ensures |segments| == |messages|
    ensures OpenAi(codec, system, messages) ==
      (if system == "" then [] else [SystemMessage(system)]) + Flat(segments)
    ensures forall k :: 0 <= k < |messages| ==> Sends(codec, messages[k], segments[k])
  {
    hide Sends, TypedOf;
    if messages == [] {
      segments := [];
    } else {
      var n := |messages| - 1;
      var init := HistorySent(codec, system, messages[..n]);
      MessageSends(codec, messages[n]);
      segments := init + [TypedOf(codec, messages[n])];
      FlatLast(init, TypedOf(codec, messages[n]));
    }
  }

  /** Splitting a sent text at its line breaks gives the text parts back, when each is one line. */
  lemma SentTextSplits(parts: seq<Part>, text: string, texts: seq<string>)
    requires TextOf(Parts(parts), text) && TextsOf(parts, texts) && texts != [] && OneLine(texts)
    ensures Pieces(text) == texts
  {
    hide TextsOf, Interleaved, Pieces, OneLine;
    var same :| TextsOf(parts, same) && text == Interleaved(same);
    OneTextList(parts, same, texts);
    PiecesOfInterleaved(texts);
  }

  lemma OneTextList(parts: seq<Part>, a: seq<string>, b: seq<string>)
    requires TextsOf(parts, a) && TextsOf(parts, b)
    ensures a == b
  {
    hide Picks;
    var i: seq<nat> :| Picks(i, |parts|, IsText(parts)) && TextsAt(parts, i, a);
    var j: seq<nat> :| Picks(j, |parts|, IsText(parts)) && TextsAt(parts, j, b);
    PicksUnique(i, j, |parts|, IsText(parts));
    assert forall k :: 0 <= k < |a| ==> TextPart(a[k]) == TextPart(b[k]);
  }

  // ---- how the raw list reads

  /** Message `v` of a raw list says what `m` says. */
  ghost predicate ReadsAs(v: Json, m: Typed) {
    match m
    case SystemMessage(text) => AsText(Get(v, "role")) == Some("system") && AsText(Get(v, "content")) == Some(text)
    case UserMessage(text) => AsText(Get(v, "role")) == Some("user") && AsText(Get(v, "content")) == Some(text)
    case ToolMessage(id, text) =>
      && AsText(Get(v, "role")) == Some("tool") && AsText(Get(v, "tool_call_id")) == Some(id)
      && AsText(Get(v, "content")) == Some(text)
    case AssistantMessage(said, calls) =>
      && AsText(Get(v, "role")) == Some("assistant") && AsText(Get(v, "content")) == said
      && if calls.None? then Get(v, "tool_calls").None?
         else AsItems(Get(v, "tool_calls")).Some? && CallsRead(AsItems(Get(v, "tool_calls")).value, calls.value)
  }

  ghost predicate CallsRead(items: seq<Json>, calls: seq<Call>) {
    |items| == |calls| && forall i :: 0 <= i < |calls| ==> CallReads(items[i], calls[i])
  }

  ghost predicate CallReads(v: Json, c: Call) {
    && AsText(Get(v, "id")) == Some(c.id) && AsText(Get(v, "type")) == Some("function")
    && AsText(Then(Get(v, "function"), "name")) == Some(c.name)
    && AsText(Then(Get(v, "function"), "arguments")) == Some(c.arguments)
  }

  lemma {:induction false} CallWiresRead(items: seq<Json>, calls: seq<Call>)
    requires EraseKeys(items) == CallWires(calls)
    ensures CallsRead(items, calls)
  {
    if items != [] && calls != [] {
      Snoc(EraseKeys(items[..|items| - 1]), EraseKey(items[|items| - 1]),
           CallWires(calls[..|calls| - 1]), CallWire(calls[|calls| - 1]));
      CallWiresRead(items[..|items| - 1], calls[..|calls| - 1]);
      ErasedReads(items[|items| - 1], calls[|calls| - 1]);
      hide CallReads, EraseKey;
    }
  }

  lemma ErasedReads(v: Json, c: Call)
    requires EraseKey(v) == CallWire(c)
    ensures CallReads(v, c)
  {
    assert forall key :: key != "extra_content" ==> Get(v, key) == Get(EraseKey(v), key);
  }

  lemma WireReads(v: Json, m: Typed)
    requires EraseExtra(v) == Wire(m)
    ensures ReadsAs(v, m)
  {
    hide CallsRead, EraseKeys, CallWires;
    assert forall key :: key != "tool_calls" ==> Get(v, key) == Get(EraseExtra(v), key);
    assert Get(v, "tool_calls").Some? <==> Get(EraseExtra(v), "tool_calls").Some?;
    assert Get(v, "role") == Get(Wire(m), "role") && Get(v, "content") == Get(Wire(m), "content");
    assert Get(v, "tool_call_id") == Get(Wire(m), "tool_call_id");
    if m.AssistantMessage? && m.calls.Some? {
      assert EraseExtra(v).fields["tool_calls"] == Arr(CallWires(m.calls.value));
      assert EraseExtra(v).fields["tool_calls"] == Arr(EraseKeys(v.fields["tool_calls"].items));
      CallWiresRead(v.fields["tool_calls"].items, m.calls.value);
    }
  }

  lemma {:induction false} ErasedEach(list: seq<Json>, typed: seq<Typed>)
    requires EraseAll(list) == Wires(typed)
    ensures |list| == |typed| && forall i :: 0 <= i < |list| ==> EraseExtra(list[i]) == Wire(typed[i])
  {
    hide EraseExtra, Wire;
    if list != [] && typed != [] {
      Snoc(EraseAll(list[..|list| - 1]), EraseExtra(list[|list| - 1]),
           Wires(typed[..|typed| - 1]), Wire(typed[|typed| - 1]));
      ErasedEach(list[..|list| - 1], typed[..|typed| - 1]);
    }
  }

  /** The Gemini list says, message by message, what the shared list says. */
  lemma GeminiReads(codec: Codec, system: string, messages: seq<Message>)
    ensures var raw, typed := Gemini(codec, system, messages), OpenAi(codec, system, messages);
      |raw| == |typed| && forall i :: 0 <= i < |raw| ==> ReadsAs(raw[i], typed[i])
  {
    hide Gemini, OpenAi, ReadsAs, EraseAll, Wires, EraseExtra, Wire;
    var raw, typed := Gemini(codec, system, messages), OpenAi(codec, system, messages);
    BuildersAgree(codec, system, messages);
    ErasedEach(raw, typed);
    forall i | 0 <= i < |raw|
      ensures ReadsAs(raw[i], typed[i])
    {
      WireReads(raw[i], typed[i]);
    }
  }

  // ---- the calls a response carries

  ghost function IsCall(items: seq<Json>): nat -> bool {
    (i: nat) =>
      i < |items| && AsText(Get(items[i], "id")).Some? && AsText(Then(Get(items[i], "function"), "name")).Some?
  }

  /** Arguments that are no text, or no JSON, become an empty object: the call is not lost. */
  ghost predicate ParsedAs(codec: Codec, v: Json, c: ParsedCall) {
    && AsText(Get(v, "id")) == Some(c.id) && AsText(Then(Get(v, "function"), "name")) == Some(c.name)
    && Get(v, "extra_content") == c.extra
    && match AsText(Then(Get(v, "function"), "arguments"))
       case None => c.input == Obj(map[])
       case Some(text) => c.input == match codec.parse(text)
         case None => Obj(map[])
         case Some(input) => input
  }

  ghost predicate ParsedAt(codec: Codec, items: seq<Json>, at: seq<nat>, calls: seq<ParsedCall>) {
    |calls| == |at| && forall k :: 0 <= k < |calls| ==> at[k] < |items| && ParsedAs(codec, items[at[k]], calls[k])
  }

  /** Exactly the items with an id and a name are calls, in order. */
  lemma {:induction false} CallsParsed(codec: Codec, items: seq<Json>, n: nat) returns (at: seq<nat>)
    requires n <= |items|
    ensures Picks(at, n, IsCall(items)) && ParsedAt(codec, items, at, ParseCalls(codec, items[..n]))
  {
    hide Picks, ParsedAt, ParseCalls, ParseCall;
    if n == 0 {
      at := [];
      PicksNone(IsCall(items));
      ParsedAtNone(codec, items);
    } else {
      at := CallsParsed(codec, items, n - 1);
      PicksNext(at, n - 1, IsCall(items));
      ParsedAtNext(codec, items, at, n - 1);
      if IsCall(items)(n - 1) {
        at := at + [n - 1];
      }
    }
  }

  lemma ParsedAtNone(codec: Codec, items: seq<Json>)
    ensures ParsedAt(codec, items, [], ParseCalls(codec, items[..0]))
  {
  }

  lemma ParsedAtNext(codec: Codec, items: seq<Json>, at: seq<nat>, n: nat)
    requires n < |items| && ParsedAt(codec, items, at, ParseCalls(codec, items[..n]))
    ensures ParsedAt(codec, items, if IsCall(items)(n) then at + [n] else at, ParseCalls(codec, items[..n + 1]))
  {
    hide ParsedAs, ParseCall;
    assert items[..n + 1][..n] == items[..n];
    OneParsed(codec, items[n]);
  }

  lemma OneParsed(codec: Codec, v: Json)
    ensures ParseCall(codec, v).Some? <==>
      AsText(Get(v, "id")).Some? && AsText(Then(Get(v, "function"), "name")).Some?
    ensures ParseCall(codec, v).Some? ==> ParsedAs(codec, v, ParseCall(codec, v).value)
  {
  }

  /** A response's calls are those of its first choice's message, in order. */
  lemma ResponseCalls(codec: Codec, message: Json, others: seq<Json>, items: seq<Json>) returns (at: seq<nat>)
    requires Get(message, "tool_calls") == Some(Arr(items))
    ensures var response := Obj(map["choices" := Arr([Obj(map["message" := message])] + others)]);
      ParsedAt(codec, items, at, ParseGeminiToolCalls(codec, response))
    ensures Picks(at, |items|, IsCall(items))
  {
    hide ParsedAt, Picks, ParseCalls;
    at := CallsParsed(codec, items, |items|);
    assert items[..|items|] == items;
    var first := Obj(map["message" := message]);
    assert ([first] + others)[0] == first;
  }
}
