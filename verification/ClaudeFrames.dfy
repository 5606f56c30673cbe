/**
How the Claude adapter reads one parsed stdout frame
(crates/bastion-agent-runtime/src/claude_code.rs): its fields, and what an edit
tool's input says about the file it writes.
*/
module ClaudeFrames {
  import opened Characters
  import opened Events
  import opened JsonValues
  import opened ClaudeState
  import LineCounts
  import Paths

  /** The session's workspace root, and how a JSON value is rendered as text. */
  datatype Reader = Reader(root: Paths.Path, render: Json -> string)

  /** str_field. */
  function StrField(v: Json, key: string): string { Or(AsText(Get(v, key)), "") }

  function Field(v: Json, key: string): Json { Or(Get(v, key), Null) }

  function ContentBlocks(frame: Json): seq<Json> {
    Or(AsItems(Then(Get(frame, "message"), "content")), [])
  }

  // ---- edit tools

  predicate IsEditTool(tool: string) {
    tool in {"Write", "Edit", "MultiEdit", "NotebookEdit"}
  }

  /** edit_path: absolute as given, or under the root. */
  function EditPath(tool: string, input: Json, root: Paths.Path): Option<Paths.Path> {
    var raw := AsText(if Get(input, "file_path").Some? then Get(input, "file_path") else Get(input, "notebook_path"));
    if !IsEditTool(tool) || raw.None? then None else Some(Paths.EditPath(Paths.Components(raw.value), root))
  }

  function Pair(v: Json): (Option<string>, string) {
    (AsText(Get(v, "old_string")), StrField(v, "new_string"))
  }

  function Pairs(edits: seq<Json>): seq<(Option<string>, string)> {
    seq(|edits|, i requires 0 <= i < |edits| => Pair(edits[i]))
  }

  /** edit_pairs. */
  function EditPairs(tool: string, input: Json): seq<(Option<string>, string)> {
    if tool == "Write" then [(None, StrField(input, "content"))]
    else if tool == "Edit" then [Pair(input)]
    else if tool == "MultiEdit" then Pairs(Or(AsItems(Get(input, "edits")), []))
    else if tool == "NotebookEdit" then [(None, StrField(input, "new_source"))]
    else []
  }

  /** The text of a path shown to the owner. */
  function Shown(path: Paths.Path, root: Paths.Path): string {
    Paths.DisplayClean(path, root);
    Paths.Text(Paths.DisplayPath(path, root))
  }

  /** edit_counts: one entry per pair, counting every line on both sides. */
  function EditCounts(tool: string, input: Json, root: Paths.Path): seq<FileDiff> {
    match EditPath(tool, input, root)
    case None => []
    case Some(path) =>
      var pairs := EditPairs(tool, input);
      seq(|pairs|, i requires 0 <= i < |pairs| =>
        var counts := LineCounts.AcpCounts(pairs[i].0, pairs[i].1);
        FileDiff(Shown(path, root), counts.0, counts.1))
  }

  /** edit_target. */
  function EditTarget(tool: string, input: Json, root: Paths.Path): Option<string> {
    match EditPath(tool, input, root)
    case None => None
    case Some(path) =>
      Paths.ResolveClean([], path);
      Some(Paths.Text(Paths.Normalized(path)))
  }

  // ---- the line an approver reads

  const DETAIL_LIMIT := 2000

  function Utf8Length(c: char): nat {
    if c < '\U{80}' then 1 else if c < '\U{800}' then 2 else if c < '\U{10000}' then 3 else 4
  }

  function Utf8Size(s: string): nat {
    if s == "" then 0 else Utf8Size(s[..|s| - 1]) + Utf8Length(s[|s| - 1])
  }

  /** truncate: cut at a character boundary to at most `limit` bytes. */
  function Truncate(s: string, limit: nat): string {
    if Utf8Size(s) <= limit then s else Truncate(s[..|s| - 1], limit)
  }

  /** The cut text fits, and no longer beginning of the text does. */
  lemma {:induction false} TruncateLongest(s: string, limit: nat)
    ensures Truncate(s, limit) <= s && Utf8Size(Truncate(s, limit)) <= limit
    ensures forall n :: 0 <= n <= |s| && Utf8Size(s[..n]) <= limit ==> n <= |Truncate(s, limit)|
  {
    if Utf8Size(s) > limit {
      var init := s[..|s| - 1];
      TruncateLongest(init, limit);
      assert s[..|s|] == s;
      assert forall n :: 0 <= n < |s| ==> s[..n] == init[..n];
    }
  }

  /** permission_detail: what the tool acts on, else its description, else its whole input. */
  function PermissionDetail(reader: Reader, tool: string, input: Json, description: Option<string>): string {
    var named :=
      if tool in {"Bash", "PowerShell"} then AsText(Get(input, "command"))
      else if IsEditTool(tool) then
        if AsText(Get(input, "file_path")).Some? then AsText(Get(input, "file_path"))
        else AsText(Get(input, "notebook_path"))
      else if tool == "WebFetch" then AsText(Get(input, "url"))
      else if tool == "WebSearch" then AsText(Get(input, "query"))
      else None;
    var subject :=
      if named.Some? then named.value
      else if description.Some? && !Blank(description.value) then description.value
      else reader.render(input);
    Truncate(tool + ": " + subject, DETAIL_LIMIT)
  }

  // ---- frames

  function DecodeAssistantBlock(reader: Reader, block: Json): Block {
    match AsText(Get(block, "type"))
    case None => OtherBlock
    case Some(kind) =>
      if kind == "text" then TextBlock(StrField(block, "text"))
      else if kind == "thinking" then ThinkingBlock(StrField(block, "thinking"))
      else if kind == "tool_use" then
        var name, input := StrField(block, "name"), Field(block, "input");
        var tool := ToolUse(name, EditCounts(name, input, reader.root), EditTarget(name, input, reader.root));
        ToolUseBlock(StrField(block, "id"), reader.render(input), tool)
      else OtherBlock
  }

  function DecodeUserBlock(reader: Reader, block: Json): Block {
    if AsText(Get(block, "type")) != Some("tool_result") then OtherBlock
    else ToolResultBlock(StrField(block, "tool_use_id"), reader.render(Field(block, "content")),
                         Or(AsBool(Get(block, "is_error")), false))
  }

  function DecodeControl(reader: Reader, request: Json): ControlRequest {
    if StrField(request, "subtype") == "can_use_tool" then
      var tool, input := StrField(request, "tool_name"), Field(request, "input");
      CanUseTool(tool, reader.render(input),
                 PermissionDetail(reader, tool, input, AsText(Get(request, "description"))))
    else OtherControl(AsText(Get(request, "subtype")))
  }

  function DecodeResult(frame: Json): Frame {
    var usage, subtype := Field(frame, "usage"), StrField(frame, "subtype");
    var errors := Or(AsItems(Get(frame, "errors")), []);
    var reason := if errors != [] then AsText(Some(errors[0])) else None;
    ResultFrame(
      Or(AsNat(Get(usage, "input_tokens")), 0) + Or(AsNat(Get(usage, "cache_read_input_tokens")), 0) +
      Or(AsNat(Get(usage, "cache_creation_input_tokens")), 0),
      Or(AsNat(Get(usage, "output_tokens")), 0),
      subtype == "success" && !Or(AsBool(Get(frame, "is_error")), false),
      Or(reason, subtype))
  }

  function Decode(reader: Reader, frame: Json): Frame {
    match AsText(Get(frame, "type"))
    case None => OtherFrame
    case Some(kind) =>
      var blocks := ContentBlocks(frame);
      if kind == "system" && AsText(Get(frame, "subtype")) == Some("init") then
        InitFrame(StrField(frame, "permissionMode"), StrField(frame, "apiKeySource"))
      else if kind == "assistant" then
        AssistantFrame(seq(|blocks|, i requires 0 <= i < |blocks| => DecodeAssistantBlock(reader, blocks[i])))
      else if kind == "user" then
        UserFrame(seq(|blocks|, i requires 0 <= i < |blocks| => DecodeUserBlock(reader, blocks[i])))
      else if kind == "control_request" then
        ControlFrame(StrField(frame, "request_id"), DecodeControl(reader, Field(frame, "request")))
      else if kind == "result" then DecodeResult(frame)
      else OtherFrame
  }

  // ---- what an edit's events say

  ghost predicate GoodRoot(root: Paths.Path) {
    Paths.Absolute(root) && Paths.GoodNames(root)
  }

  /**
  The path a `Diff` event shows and the file read for the artifact are one:
  the shown path, taken from the root, resolves to the target; and it is shown
  relative exactly when the target lies strictly inside the root.
  */
  lemma ShownIsTarget(tool: string, input: Json, root: Paths.Path, i: nat)
    requires GoodRoot(root) && i < |EditCounts(tool, input, root)|
    ensures EditTarget(tool, input, root).Some?
    ensures var shown := Paths.Components(EditCounts(tool, input, root)[i].path);
      var target := Paths.Components(EditTarget(tool, input, root).value);
      && Paths.Normalized(Paths.Joined(root, shown)) == target
      && (!Paths.Absolute(shown) <==> Paths.Normalized(root) < target)
  {
    hide Paths.Components, Paths.EditPath, EditPairs, LineCounts.AcpCounts, GoodRoot;
    var raw := AsText(if Get(input, "file_path").Some? then Get(input, "file_path") else Get(input, "notebook_path"));
    ShownLeadsBack(Paths.Components(raw.value), root) by {
      Paths.ComponentsGood(raw.value);
    }
    hide Paths.Text, Paths.Joined, Paths.DisplayPath, Paths.Normalized;
  }

  /** What is shown of an edited path, as text, leads to where the edit resolves. */
  lemma ShownLeadsBack(raw: Paths.Path, root: Paths.Path)
    requires GoodRoot(root) && Paths.GoodNames(raw)
    ensures var path := Paths.EditPath(raw, root);
      var shown, target := Paths.Components(Shown(path, root)), Paths.Components(Paths.Text(Paths.Normalized(path)));
      && Paths.Normalized(Paths.Joined(root, shown)) == target
      && (!Paths.Absolute(shown) <==> Paths.Normalized(root) < target)
  {
    var path := Paths.EditPath(raw, root);
    Paths.DisplayExact(raw, root);
    Paths.EditGoodNames(raw, root);
    Paths.ResolveClean([], path);
    hide Paths.Text, Paths.Components, Paths.EditPath, Paths.Joined;
    Paths.TextComponents(Paths.DisplayPath(path, root));
    Paths.TextComponents(Paths.Normalized(path));
  }

  // ---- the line counts of each edit tool

  /** An object with these text fields and others. */
  ghost predicate Has(v: Json, key: string, text: string) {
    Get(v, key) == Some(Str(text))
  }

  /** An edit adds the lines of its new text and removes those of its old one; a write only adds. */
  lemma CountsOfEdit(input: Json, root: Paths.Path, path: string, before: string, after: string)
    requires Has(input, "file_path", path)
    ensures Has(input, "old_string", before) && Has(input, "new_string", after) ==>
      var counts := EditCounts("Edit", input, root);
      |counts| == 1 && counts[0].added == |LineCounts.Lines(after)| && counts[0].removed == |LineCounts.Lines(before)|
    ensures Has(input, "content", after) ==>
      var counts := EditCounts("Write", input, root);
      |counts| == 1 && counts[0].added == |LineCounts.Lines(after)| && counts[0].removed == 0
    ensures EditCounts("Read", input, root) == []
  {
  }

  /** A notebook may be named either way; its new source only adds. */
  lemma CountsOfNotebook(input: Json, root: Paths.Path, path: string, source: string)
    requires Has(input, "file_path", path) || (Get(input, "file_path").None? && Has(input, "notebook_path", path))
    requires Has(input, "new_source", source)
    ensures var counts := EditCounts("NotebookEdit", input, root);
      && |counts| == 1 && counts[0].added == |LineCounts.Lines(source)| && counts[0].removed == 0
      && counts[0].path == Shown(Paths.EditPath(Paths.Components(path), root), root)
  {
    hide Shown;
  }

  /** Several edits in one are those edits one by one, of the one file. */
  lemma MultiEditIsEdits(input: Json, edits: seq<Json>, root: Paths.Path, path: string)
    requires Has(input, "file_path", path) && Get(input, "edits") == Some(Arr(edits))
    ensures |EditCounts("MultiEdit", input, root)| == |edits|
    ensures forall i :: 0 <= i < |edits| && edits[i].Obj? ==>
      EditCounts("Edit", Obj(edits[i].fields["file_path" := Str(path)]), root) ==
        [EditCounts("MultiEdit", input, root)[i]]
  {
    forall i | 0 <= i < |edits| && edits[i].Obj?
      ensures EditCounts("Edit", Obj(edits[i].fields["file_path" := Str(path)]), root) ==
        [EditCounts("MultiEdit", input, root)[i]]
    {
      var one := Obj(edits[i].fields["file_path" := Str(path)]);
      assert Get(one, "file_path") == Some(Str(path));
      assert Get(one, "old_string") == Get(edits[i], "old_string");
      assert Get(one, "new_string") == Get(edits[i], "new_string");
      assert Pair(one) == Pair(edits[i]);
    }
  }

  // ---- what the approver reads

  /** For an edit, the line names the path that resolves to the file that would be written. */
  lemma DetailNamesTarget(reader: Reader, tool: string, input: Json, description: Option<string>)
    returns (raw: string)
    requires GoodRoot(reader.root) && EditTarget(tool, input, reader.root).Some?
    ensures PermissionDetail(reader, tool, input, description) == Truncate(tool + ": " + raw, 2000)
    ensures Paths.Normalized(Paths.EditPath(Paths.Components(raw), reader.root)) ==
      Paths.Components(EditTarget(tool, input, reader.root).value)
  {
    raw := AsText(if Get(input, "file_path").Some? then Get(input, "file_path") else Get(input, "notebook_path")).value;
    hide Truncate;
    var path := Paths.EditPath(Paths.Components(raw), reader.root);
    Paths.ComponentsGood(raw);
    Paths.EditGoodNames(Paths.Components(raw), reader.root);
    Paths.ResolveClean([], path);
    Paths.TextComponents(Paths.Normalized(path));
  }

  /** Elsewhere it is the command, the address or the query; failing that, what the harness says of it. */
  lemma DetailShows(reader: Reader, tool: string, input: Json, text: string, description: Option<string>)
    ensures (tool == "Bash" || tool == "PowerShell") && Has(input, "command", text) ==>
      PermissionDetail(reader, tool, input, description) == Truncate(tool + ": " + text, 2000)
    ensures (tool == "WebFetch" && Has(input, "url", text)) || (tool == "WebSearch" && Has(input, "query", text)) ==>
      PermissionDetail(reader, tool, input, description) == Truncate(tool + ": " + text, 2000)
    ensures !IsEditTool(tool) && tool !in {"Bash", "PowerShell", "WebFetch", "WebSearch"} ==>
      PermissionDetail(reader, tool, input, description) ==
      Truncate(tool + ": " + if description.Some? && !Blank(description.value) then description.value
                             else reader.render(input), 2000)
  {
    hide Truncate;
  }

  // ---- the frames on the wire

  function Fields(kind: string, more: map<string, Json>): Json {
    Obj(more["type" := Str(kind)])
  }

  /** What an `assistant` block is read as. */
  lemma AssistantBlocksRead(reader: Reader, text: string, id: string, name: string, input: Json)
    ensures DecodeAssistantBlock(reader, Fields("text", map["text" := Str(text)])) == TextBlock(text)
    ensures DecodeAssistantBlock(reader, Fields("thinking", map["thinking" := Str(text)])) == ThinkingBlock(text)
    ensures
      DecodeAssistantBlock(reader, Fields("tool_use", map["id" := Str(id), "name" := Str(name), "input" := input])) ==
      ToolUseBlock(id, reader.render(input),
                   ToolUse(name, EditCounts(name, input, reader.root), EditTarget(name, input, reader.root)))
  {
    hide EditCounts, EditTarget;
  }

  lemma ToolResultRead(reader: Reader, id: string, content: Json, isError: bool)
    ensures
      var block := Fields("tool_result", map["tool_use_id" := Str(id), "content" := content,
                                             "is_error" := Bool(isError)]);
      DecodeUserBlock(reader, block) == ToolResultBlock(id, reader.render(content), isError)
    ensures
      DecodeUserBlock(reader, Fields("tool_result", map["tool_use_id" := Str(id), "content" := content])) ==
      ToolResultBlock(id, reader.render(content), false)
  {
  }

  /** Blocks are read one by one, in order. */
  lemma BlocksRead(reader: Reader, blocks: seq<Json>)
    ensures var body: map<string, Json> := map["message" := Obj(map["content" := Arr(blocks)])];
      var assistant, user := Decode(reader, Fields("assistant", body)), Decode(reader, Fields("user", body));
      && assistant.AssistantFrame? && |assistant.blocks| == |blocks|
      && (forall i :: 0 <= i < |blocks| ==> assistant.blocks[i] == DecodeAssistantBlock(reader, blocks[i]))
      && user.UserFrame? && |user.blocks| == |blocks|
      && (forall i :: 0 <= i < |blocks| ==> user.blocks[i] == DecodeUserBlock(reader, blocks[i]))
  {
    hide DecodeAssistantBlock, DecodeUserBlock;
  }

  lemma ControlsRead(reader: Reader, requestId: string, tool: string, input: Json, description: string, subtype: string)
    requires subtype != "can_use_tool"
    ensures
      var request := Obj(map["subtype" := Str("can_use_tool"), "tool_name" := Str(tool), "input" := input,
                             "description" := Str(description)]);
      Decode(reader, Fields("control_request", map["request_id" := Str(requestId), "request" := request])) ==
      ControlFrame(requestId, CanUseTool(tool, reader.render(input),
                                         PermissionDetail(reader, tool, input, Some(description))))
    ensures
      var request := Obj(map["subtype" := Str(subtype)]);
      Decode(reader, Fields("control_request", map["request_id" := Str(requestId), "request" := request])) ==
      ControlFrame(requestId, OtherControl(Some(subtype)))
  {
    hide PermissionDetail;
  }

  /** A `result` frame counts all its input tokens together. */
  lemma UsageRead(reader: Reader, input: nat, cached: nat, created: nat, output: nat, more: map<string, Json>)
    requires input < 0x1_0000_0000_0000_0000 && cached < 0x1_0000_0000_0000_0000
    requires created < 0x1_0000_0000_0000_0000 && output < 0x1_0000_0000_0000_0000
    ensures
      var usage := Obj(map["input_tokens" := Int(input), "cache_read_input_tokens" := Int(cached),
                           "cache_creation_input_tokens" := Int(created), "output_tokens" := Int(output)]);
      var frame := Decode(reader, Fields("result", more["usage" := usage]));
      && frame.ResultFrame? && frame.inputTokens == input + cached + created && frame.outputTokens == output
  {
  }

  /** It succeeds when it says so and no error; the first error is the reason, else its subtype. */
  lemma ResultsRead(reader: Reader, subtype: string, error: string, others: seq<Json>)
    ensures var frame := Decode(reader, Fields("result", map["subtype" := Str(subtype)]));
      frame.ResultFrame? && (frame.success <==> subtype == "success") && frame.reason == subtype
    ensures
      var frame := Decode(reader, Fields("result", map["subtype" := Str(subtype), "is_error" := Bool(true),
                                                       "errors" := Arr([Str(error)] + others)]));
      frame.ResultFrame? && !frame.success && frame.reason == error
  {
  }

  lemma InitRead(reader: Reader, mode: string, credential: string)
    ensures
      Decode(reader, Fields("system", map["subtype" := Str("init"), "permissionMode" := Str(mode),
                                          "apiKeySource" := Str(credential)])) == InitFrame(mode, credential)
  {
  }
}
