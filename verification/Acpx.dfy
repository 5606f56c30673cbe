/**
The acpx frame interpreter and prompt reader
(crates/bastion-agent-runtime/src/acpx.rs). The interpreter joins frames
through what it remembers; it is proved to remember exactly what the frame
history says. The reader ends each task once, last, whatever stops it.
*/
module Acpx {
  import opened Events
  import opened JsonValues
  import LineCounts
  import Conformance

  /** What the adapter takes from outside: JSON rendering, and paths relative to the workspace. */
  datatype World = World(render: Json -> string, relative: string -> string)

  datatype Interpreter = Interpreter(promptId: Option<int>, nextPermId: nat, ended: bool, files: map<string, string>)

  const FRESH: Interpreter := Interpreter(None, 0, false, map[])

  /** What one frame does: the new state, the events, and a touched file to publish. */
  datatype LineOutcome = LineOutcome(after: Interpreter, events: seq<Event>, artifact: Option<string>)

  // ---- reading a frame

  function Method(v: Json): Option<string> { AsText(Get(v, "method")) }

  function FrameId(v: Json): Option<int> { AsInt(Get(v, "id")) }

  function Update(v: Json): Option<Json> { Then(Get(v, "params"), "update") }

  function ToolName(update: Json): string {
    var title := AsText(Get(update, "title"));
    if title.Some? then title.value
    else Or(AsText(Then(Then(Get(update, "_meta"), "claudeCode"), "toolName")), "tool")
  }

  function PrintOr(w: World, v: Option<Json>): string {
    if v.Some? then w.render(v.value) else ""
  }

  predicate Contains(s: string, part: string) {
    exists i :: 0 <= i <= |s| && part <= s[i..]
  }

  function Lower(s: string): string {
    seq(|s|, i requires 0 <= i < |s| => if 'A' <= s[i] <= 'Z' then s[i] - 'A' + 'a' else s[i])
  }

  predicate AuthLike(message: string) {
    var lower := Lower(message);
    || Contains(lower, "auth") || Contains(lower, "login") || Contains(lower, "unauthorized")
    || Contains(lower, "401") || Contains(lower, "credential")
  }

  // ---- what each kind of frame does

  /** A frame that answers the prompt request, once its id is known. */
  predicate Terminal(promptId: Option<int>, v: Json) {
    promptId.Some? && FrameId(v) == promptId && (Get(v, "result").Some? || Get(v, "error").Some?)
  }

  function TerminalOutcome(v: Json): TaskOutcome {
    if Get(v, "result").Some? then
      var reason := Or(AsText(Then(Get(v, "result"), "stopReason")), "");
      if reason == "end_turn" then Success
      else if reason == "cancelled" then Cancelled
      else Failed("stopReason=" + reason)
    else
      var message := Or(AsText(Then(Get(v, "error"), "message")), "unknown error");
      Failed(if AuthLike(message) then "authentication error reported by harness" else message)
  }

  function UsageEvents(t: TaskId, v: Json): seq<Event> {
    var usage := Then(Get(v, "result"), "usage");
    if usage.None? then []
    else [Usage(t, Or(AsNat(Get(usage.value, "inputTokens")), 0), Or(AsNat(Get(usage.value, "outputTokens")), 0))]
  }

  /** The tool call and file a frame ties together, if it does. */
  function Remembered(update: Json): Option<(string, string)> {
    var id, path := AsText(Get(update, "toolCallId")), AsText(Then(Get(update, "rawInput"), "file_path"));
    if id.Some? && path.Some? then Some((id.value, path.value)) else None
  }

  function Remember(files: map<string, string>, update: Json): map<string, string> {
    match Remembered(update)
    case None => files
    case Some(entry) => files[entry.0 := entry.1]
  }

  function DiffEvents(t: TaskId, contents: seq<Json>): seq<Event> {
    if contents == [] then []
    else
      var entry, rest := contents[|contents| - 1], DiffEvents(t, contents[..|contents| - 1]);
      if AsText(Get(entry, "type")) == Some("diff") then rest + [DiffEvent(t, entry)] else rest
  }

  function DiffEvent(t: TaskId, entry: Json): Event {
    var before, after := AsText(Get(entry, "oldText")), Or(AsText(Get(entry, "newText")), "");
    var counts := LineCounts.Differences(before, after);
    Diff(t, Or(AsText(Get(entry, "path")), ""), counts.0, counts.1)
  }

  function ResultEvents(w: World, t: TaskId, update: Json): seq<Event> {
    var status := AsText(Get(update, "status"));
    if status == Some("completed") || status == Some("failed")
    then [ToolResult(t, ToolName(update), PrintOr(w, Get(update, "rawOutput")), status == Some("failed"))]
    else []
  }

  function Candidate(files: map<string, string>, update: Json): Option<string> {
    var id := AsText(Get(update, "toolCallId"));
    if AsText(Get(update, "status")) == Some("completed") && id.Some? && id.value in files
    then Some(files[id.value]) else None
  }

  function ReadUpdate(w: World, t: TaskId, s: Interpreter, update: Json): LineOutcome {
    match AsText(Get(update, "sessionUpdate"))
    case None => LineOutcome(s, [], None)
    case Some(kind) =>
      if kind == "agent_message_chunk" then
        var text := AsText(Then(Get(update, "content"), "text"));
        LineOutcome(s, if text.Some? && text.value != "" then [MessageDelta(t, text.value)] else [], None)
      else if kind == "tool_call" then
        LineOutcome(s.(files := Remember(s.files, update)),
                    [ToolCall(t, ToolName(update), PrintOr(w, Get(update, "rawInput")))], None)
      else if kind == "tool_call_update" then
        var files := Remember(s.files, update);
        LineOutcome(s.(files := files),
                    DiffEvents(t, Or(AsItems(Get(update, "content")), [])) + ResultEvents(w, t, update),
                    Candidate(files, update))
      else LineOutcome(s, [], None)
  }

  function OnPermission(t: TaskId, s: Interpreter, params: Json): LineOutcome {
    var call := Get(params, "toolCall");
    var kind := Or(AsText(Then(call, "kind")), "");
    var action :=
      if kind == "edit" then WriteFile else if kind == "execute" then RunCommand else PermissionAction.Other(kind);
    LineOutcome(s.(nextPermId := s.nextPermId + 1),
                [PermissionRequest(t, s.nextPermId, action, Or(AsText(Then(call, "title")), "permission request"))],
                None)
  }

  /** on_value. */
  function ReadValue(w: World, t: TaskId, s: Interpreter, v: Json): LineOutcome {
    if s.ended then LineOutcome(s, [], None)
    else
      var known := if s.promptId.None? && Method(v) == Some("session/prompt")
        then s.(promptId := FrameId(v)) else s;
      if Terminal(known.promptId, v) then
        LineOutcome(known.(ended := true), UsageEvents(t, v) + [Ended(t, TerminalOutcome(v))], None)
      else if Method(v) == Some("session/update") then
        if Update(v).None? then LineOutcome(known, [], None) else ReadUpdate(w, t, known, Update(v).value)
      else if Method(v) == Some("session/request_permission") && Get(v, "params").Some? then
        OnPermission(t, known, Get(v, "params").value)
      else LineOutcome(known, [], None)
  }

  // ---- the interpreter as an object

  class FrameInterpreter {
    const task: TaskId
    const world: World
    var promptId: Option<int>
    var nextPermId: nat
    var ended: bool
    var toolFilePaths: map<string, string>

    constructor (task: TaskId, world: World)
      ensures this.task == task && this.world == world && State() == FRESH
    {
      this.task, this.world := task, world;
      promptId, nextPermId, ended, toolFilePaths := None, 0, false, map[];
    }

    function State(): Interpreter
      reads this
    {
      Interpreter(promptId, nextPermId, ended, toolFilePaths)
    }

    method OnValue(v: Json) returns (events: seq<Event>, artifact: Option<string>)
      modifies this
      ensures LineOutcome(State(), events, artifact) == ReadValue(world, task, old(State()), v)
    {
      events, artifact := [], None;
      if ended {
        return;
      }
      var method_ := Method(v);
      if promptId.None? && method_ == Some("session/prompt") {
        promptId := FrameId(v);
      }
      if promptId.Some? && FrameId(v) == promptId {
        var result, error := Get(v, "result"), Get(v, "error");
        if result.Some? {
          events := UsageEvents(task, v);
        }
        if result.Some? || error.Some? {
          assert result.None? ==> UsageEvents(task, v) == [];
          events := events + [Ended(task, TerminalOutcome(v))];
          ended := true;
          return;
        }
      }
      if method_ == Some("session/update") {
        var update := Update(v);
        if update.Some? {
          events, artifact := OnUpdate(update.value);
        }
        return;
      }
      if method_ == Some("session/request_permission") {
        var params := Get(v, "params");
        if params.Some? {
          events := OnPermission(task, State(), params.value).events;
          nextPermId := nextPermId + 1;
        }
      }
    }

    method OnUpdate(update: Json) returns (events: seq<Event>, artifact: Option<string>)
      modifies this`toolFilePaths
      ensures LineOutcome(State(), events, artifact) == ReadUpdate(world, task, old(State()), update)
    {
      events, artifact := [], None;
      var kind := AsText(Get(update, "sessionUpdate"));
      if kind == Some("agent_message_chunk") {
        var text := AsText(Then(Get(update, "content"), "text"));
        if text.Some? && text.value != "" {
          events := [MessageDelta(task, text.value)];
        }
      } else if kind == Some("tool_call") {
        RememberFilePath(update);
        events := [ToolCall(task, ToolName(update), PrintOr(world, Get(update, "rawInput")))];
      } else if kind == Some("tool_call_update") {
        RememberFilePath(update);
        events := EmitDiffs(Or(AsItems(Get(update, "content")), []));
        var status := AsText(Get(update, "status"));
        if status == Some("completed") || status == Some("failed") {
          var output := PrintOr(world, Get(update, "rawOutput"));
          events := events + [ToolResult(task, ToolName(update), output, status == Some("failed"))];
        }
        if status == Some("completed") {
          var id := AsText(Get(update, "toolCallId"));
          if id.Some? && id.value in toolFilePaths {
            artifact := Some(toolFilePaths[id.value]);
          }
        }
      }
    }

    method EmitDiffs(contents: seq<Json>) returns (events: seq<Event>)
      ensures events == DiffEvents(task, contents)
    {
      events := [];
      for i := 0 to |contents|
        invariant events == DiffEvents(task, contents[..i])
      {
        assert contents[..i + 1][..i] == contents[..i];
        if AsText(Get(contents[i], "type")) == Some("diff") {
          var before := AsText(Get(contents[i], "oldText"));
          var after := Or(AsText(Get(contents[i], "newText")), "");
          var added, removed := LineCounts.LineDiffCounts(before, after);
          events := events + [Diff(task, Or(AsText(Get(contents[i], "path")), ""), added, removed)];
        }
      }
      assert contents[..|contents|] == contents;
    }

    method RememberFilePath(update: Json)
      modifies this`toolFilePaths
      ensures toolFilePaths == Remember(old(toolFilePaths), update)
    {
      var id, path := AsText(Get(update, "toolCallId")), AsText(Then(Get(update, "rawInput"), "file_path"));
      if id.None? || path.None? {
        return;
      }
      toolFilePaths := toolFilePaths[id.value := path.value];
    }
  }

  // ---- the interpreter remembers what the history says

  function Fold(w: World, t: TaskId, frames: seq<Json>): Interpreter {
    if frames == [] then FRESH
    else ReadValue(w, t, Fold(w, t, frames[..|frames| - 1]), frames[|frames| - 1]).after
  }

  /** The id of the first `session/prompt` request that has an integer id. */
  function PromptId(frames: seq<Json>): Option<int> {
    if frames == [] then None
    else if Method(frames[0]) == Some("session/prompt") && FrameId(frames[0]).Some? then FrameId(frames[0])
    else PromptId(frames[1..])
  }

  predicate AsksPermission(v: Json) {
    Method(v) == Some("session/request_permission") && Get(v, "params").Some?
  }

  function PermissionCount(frames: seq<Json>): nat {
    if frames == [] then 0
    else PermissionCount(frames[..|frames| - 1]) + if AsksPermission(frames[|frames| - 1]) then 1 else 0
  }

  /** The tool call and file a frame ties together when it is one of the tool-call updates. */
  function Tie(v: Json): Option<(string, string)> {
    if Method(v) != Some("session/update") || Update(v).None? then None
    else
      var kind := AsText(Get(Update(v).value, "sessionUpdate"));
      if kind == Some("tool_call") || kind == Some("tool_call_update") then Remembered(Update(v).value) else None
  }

  /** The file most recently tied to a tool call. */
  function LastPath(frames: seq<Json>, id: string): Option<string> {
    if frames == [] then None
    else
      var tie := Tie(frames[|frames| - 1]);
      if tie.Some? && tie.value.0 == id then Some(tie.value.1) else LastPath(frames[..|frames| - 1], id)
  }

  /** The frame at `k` answers the prompt that the frames up to it made. */
  predicate EndsAt(frames: seq<Json>, k: nat)
    requires k < |frames|
  {
    Terminal(PromptId(frames[..k + 1]), frames[k])
  }

  ghost predicate Quiet(frames: seq<Json>) {
    forall k :: 0 <= k < |frames| ==> !EndsAt(frames, k)
  }

  lemma {:induction false} PromptIdExtend(frames: seq<Json>, v: Json)
    ensures PromptId(frames + [v]) ==
      if PromptId(frames).Some? then PromptId(frames)
      else if Method(v) == Some("session/prompt") then FrameId(v) else None
  {
    if frames == [] {
      assert frames + [v] == [v] && [v][1..] == [];
    } else {
      PromptIdExtend(frames[1..], v);
      assert (frames + [v])[1..] == frames[1..] + [v];
    }
  }

  lemma QuietPrefix(frames: seq<Json>)
    requires frames != [] && Quiet(frames)
    ensures Quiet(frames[..|frames| - 1])
  {
    var before := frames[..|frames| - 1];
    forall k | 0 <= k < |before|
      ensures !EndsAt(before, k)
    {
      assert before[..k + 1] == frames[..k + 1];
      assert !EndsAt(frames, k);
    }
  }

  /** Until a frame answers the prompt, every field is a function of the frame history. */
  lemma {:induction false} StateFromHistory(w: World, t: TaskId, frames: seq<Json>)
    requires Quiet(frames)
    ensures var s := Fold(w, t, frames);
      && !s.ended && s.promptId == PromptId(frames) && s.nextPermId == PermissionCount(frames)
      && forall id :: (if id in s.files then Some(s.files[id]) else None) == LastPath(frames, id)
  {
    if frames != [] {
      var before, v := frames[..|frames| - 1], frames[|frames| - 1];
      QuietPrefix(frames);
      StateFromHistory(w, t, before);
      assert frames == before + [v];
      PromptIdExtend(before, v);
      assert !EndsAt(frames, |frames| - 1) && frames[..|frames|] == frames;
      OnQuietFrame(w, t, Fold(w, t, before), v);
    }
  }

  lemma OnQuietFrame(w: World, t: TaskId, s: Interpreter, v: Json)
    requires !s.ended
    requires !Terminal(if s.promptId.None? && Method(v) == Some("session/prompt") then FrameId(v) else s.promptId, v)
    ensures var s' := ReadValue(w, t, s, v).after;
      && !s'.ended && s'.nextPermId == s.nextPermId + (if AsksPermission(v) then 1 else 0)
      && s'.promptId == (if s.promptId.None? && Method(v) == Some("session/prompt") then FrameId(v) else s.promptId)
      && s'.files == if Tie(v).Some? then s.files[Tie(v).value.0 := Tie(v).value.1] else s.files
  {
  }

  /** A completed tool call publishes the file its own frames named last, however long ago. */
  lemma ArtifactFromHistory(w: World, t: TaskId, frames: seq<Json>, v: Json)
    requires Quiet(frames + [v]) && Method(v) == Some("session/update") && Update(v).Some?
    ensures var out, update := ReadValue(w, t, Fold(w, t, frames), v), Update(v).value;
      out.artifact ==
        if && AsText(Get(update, "sessionUpdate")) == Some("tool_call_update")
           && AsText(Get(update, "status")) == Some("completed") && AsText(Get(update, "toolCallId")).Some?
        then LastPath(frames + [v], AsText(Get(update, "toolCallId")).value)
        else None
  {
    var all := frames + [v];
    assert all[..|all| - 1] == frames;
    QuietPrefix(all);
    StateFromHistory(w, t, frames);
    StateFromHistory(w, t, all);
    PromptIdExtend(frames, v);
    assert !EndsAt(all, |frames|) && all[..|all|] == all;
  }

  // ---- the prompt reader

  /** What the reader's select loop meets next. `content` is the touched file, if it can be read. */
  datatype Input =
    | Frame(value: Json, content: Option<string>)
    | Malformed
    | Closed
    | Deadline

  function Premature(cancelled: bool, garbage: bool): TaskOutcome {
    if cancelled then Cancelled
    else if garbage then Failed("malformed frame on transport")
    else Failed("acpx process ended without a terminal frame (crash or premature exit)")
  }

  function ArtifactEvents(w: World, t: TaskId, candidate: Option<string>, content: Option<string>): seq<Event> {
    if candidate.Some? && content.Some? then [Artifact(t, w.relative(candidate.value), content.value)] else []
  }

  /**
  Everything the reader of task `t` sends from state `s` on; when the inputs run
  out the stream is closed. `cancelled` and `garbage` are the flags as it ends.
  */
  function Output(w: World, t: TaskId, s: Interpreter, inputs: seq<Input>, cancelled: bool, garbage: bool): seq<Event>
    decreases |inputs|
  {
    if inputs == [] then [Ended(t, Premature(cancelled, garbage))]
    else match inputs[0]
      case Deadline => [Ended(t, TimedOut)]
      case Malformed => [Ended(t, Premature(cancelled, true))]
      case Closed => [Ended(t, Premature(cancelled, garbage))]
      case Frame(value, content) =>
        var line := ReadValue(w, t, s, value);
        var sent := line.events + ArtifactEvents(w, t, line.artifact, content);
        if line.after.ended then sent else sent + Output(w, t, line.after, inputs[1..], cancelled, garbage)
  }

  /** One structured line: its events, then the touched file if it can be read. */
  method HandleFrame(interp: FrameInterpreter, value: Json, content: Option<string>) returns (sent: seq<Event>)
    modifies interp
    ensures var line := ReadValue(interp.world, interp.task, old(interp.State()), value);
      && interp.State() == line.after
      && sent == line.events + ArtifactEvents(interp.world, interp.task, line.artifact, content)
  {
    hide ReadValue;
    var candidate;
    sent, candidate := interp.OnValue(value);
    if candidate.Some? && content.Some? {
      sent := sent + [Artifact(interp.task, interp.world.relative(candidate.value), content.value)];
    }
  }

  /** run_prompt_reader. */
  method RunPromptReader(w: World, task: TaskId, inputs: seq<Input>, cancelRequested: bool, garbageBefore: bool)
    returns (sent: seq<Event>, garbage: bool)
    ensures sent == Output(w, task, FRESH, inputs, cancelRequested, garbageBefore)
    ensures EndsOnce(sent, task)
  {
    hide Output, ReadValue, ArtifactEvents, EndsOnce;
    ReaderEndsOnce(w, task, FRESH, inputs, cancelRequested, garbageBefore);
    var interp := new FrameInterpreter(task, w);
    var ended := false;
    sent, garbage := [], garbageBefore;
    var i := 0;
    assert inputs[0..] == inputs;
    while i < |inputs|
      invariant 0 <= i <= |inputs| && fresh(interp) && interp.task == task && interp.world == w
      invariant !ended && garbage == garbageBefore
      invariant Output(w, task, FRESH, inputs, cancelRequested, garbageBefore) ==
        sent + Output(w, task, interp.State(), inputs[i..], cancelRequested, garbageBefore)
    {
      if !inputs[i].Frame? {
        OutputAtStop(w, task, interp.State(), inputs, i, cancelRequested, garbageBefore);
      }
      match inputs[i] {
        case Deadline =>
          sent := sent + [Ended(task, TimedOut)];
          ended := true;
          break;
        case Malformed =>
          garbage := true;
          break;
        case Closed =>
          break;
        case Frame(value, content) =>
          OutputAtFrame(w, task, interp.State(), inputs, i, cancelRequested, garbageBefore);
          var events := HandleFrame(interp, value, content);
          Regroup(sent, events, if interp.State().ended then [] else
            Output(w, task, interp.State(), inputs[i + 1..], cancelRequested, garbageBefore));
          sent := sent + events;
          if interp.ended {
            ended := true;
            break;
          }
      }
      i := i + 1;
    }
    if i == |inputs| {
      OutputAtStop(w, task, interp.State(), inputs, i, cancelRequested, garbageBefore);
    }
    if !ended {
      sent := sent + [Ended(task, Premature(cancelRequested, garbage))];
    }
  }

  lemma OutputAtFrame(w: World, t: TaskId, s: Interpreter, inputs: seq<Input>, i: nat, cancelled: bool, garbage: bool)
    requires i < |inputs| && inputs[i].Frame?
    ensures var line := ReadValue(w, t, s, inputs[i].value);
      Output(w, t, s, inputs[i..], cancelled, garbage) ==
        line.events + ArtifactEvents(w, t, line.artifact, inputs[i].content) +
        if line.after.ended then [] else Output(w, t, line.after, inputs[i + 1..], cancelled, garbage)
  {
    hide ReadValue, ArtifactEvents;
    assert inputs[i..][0] == inputs[i] && inputs[i..][1..] == inputs[i + 1..];
  }

  lemma OutputAtStop(w: World, t: TaskId, s: Interpreter, inputs: seq<Input>, i: nat, cancelled: bool, garbage: bool)
    requires i <= |inputs| && (i < |inputs| ==> !inputs[i].Frame?)
    ensures Output(w, t, s, inputs[i..], cancelled, garbage) ==
      [Ended(t, if i < |inputs| && inputs[i].Deadline? then TimedOut
                else Premature(cancelled, garbage || (i < |inputs| && inputs[i].Malformed?)))]
  {
    hide ReadValue, ArtifactEvents, Premature;
    assert i < |inputs| ==> inputs[i..][0] == inputs[i];
  }

  lemma Regroup(a: seq<Event>, b: seq<Event>, c: seq<Event>)
    ensures a + (b + c) == a + b + c
  {
  }

  /** Exactly one `Ended`, and it is the last of the task's events. */
  ghost predicate EndsOnce(events: seq<Event>, t: TaskId) {
    Burst(events, t) && events != [] && events[|events| - 1].Ended?
  }

  lemma OnValueEvents(w: World, t: TaskId, s: Interpreter, v: Json)
    requires !s.ended
    ensures var line := ReadValue(w, t, s, v);
      && (line.after.ended ==> EndsOnce(line.events, t) && line.artifact.None?)
      && (!line.after.ended ==> forall i :: 0 <= i < |line.events| ==>
            EventTask(line.events[i]) == Some(t) && !line.events[i].Ended?)
  {
    if Update(v).Some? {
      DiffEventsOfTask(t, Or(AsItems(Get(Update(v).value, "content")), []));
    }
  }

  lemma {:induction false} DiffEventsOfTask(t: TaskId, contents: seq<Json>)
    ensures forall i :: 0 <= i < |DiffEvents(t, contents)| ==>
      EventTask(DiffEvents(t, contents)[i]) == Some(t) && !DiffEvents(t, contents)[i].Ended?
  {
    if contents != [] {
      DiffEventsOfTask(t, contents[..|contents| - 1]);
    }
  }

  /** Whatever stops the reader and whenever: one `Ended`, last. */
  lemma {:induction false} ReaderEndsOnce(w: World, t: TaskId, s: Interpreter, inputs: seq<Input>,
                                          cancelled: bool, garbage: bool)
    requires !s.ended
    ensures EndsOnce(Output(w, t, s, inputs, cancelled, garbage), t)
    decreases |inputs|
  {
    hide ReadValue, ArtifactEvents;
    if inputs != [] && inputs[0].Frame? {
      var line := ReadValue(w, t, s, inputs[0].value);
      if !line.after.ended {
        ReaderEndsOnce(w, t, line.after, inputs[1..], cancelled, garbage);
      }
      hide EndsOnce;
      FrameEndsOnce(w, t, s, inputs[0].value, inputs[0].content,
                    Output(w, t, line.after, inputs[1..], cancelled, garbage));
    }
  }

  /** What a frame sends ends the task, or leaves that to what follows. */
  lemma FrameEndsOnce(w: World, t: TaskId, s: Interpreter, v: Json, content: Option<string>, rest: seq<Event>)
    requires !s.ended
    requires !ReadValue(w, t, s, v).after.ended ==> EndsOnce(rest, t)
    ensures var line := ReadValue(w, t, s, v);
      var sent := line.events + ArtifactEvents(w, t, line.artifact, content);
      EndsOnce(if line.after.ended then sent else sent + rest, t)
  {
    hide ReadValue, ArtifactEvents;
    OnValueEvents(w, t, s, v);
    var line := ReadValue(w, t, s, v);
    ArtifactOfTask(w, t, line.artifact, content);
    if !line.after.ended {
      Precede(line.events + ArtifactEvents(w, t, line.artifact, content), rest, t);
    }
  }

  lemma ArtifactOfTask(w: World, t: TaskId, candidate: Option<string>, content: Option<string>)
    ensures forall i :: 0 <= i < |ArtifactEvents(w, t, candidate, content)| ==>
      EventTask(ArtifactEvents(w, t, candidate, content)[i]) == Some(t)
      && !ArtifactEvents(w, t, candidate, content)[i].Ended?
    ensures candidate.None? ==> ArtifactEvents(w, t, candidate, content) == []
  {
  }

  lemma Precede(head: seq<Event>, tail: seq<Event>, t: TaskId)
    requires forall i :: 0 <= i < |head| ==> EventTask(head[i]) == Some(t) && !head[i].Ended?
    requires EndsOnce(tail, t)
    ensures EndsOnce(head + tail, t)
  {
  }

  // ---- the outcome, from the inputs alone

  function Frames(inputs: seq<Input>): seq<Json>
    requires forall i :: 0 <= i < |inputs| ==> inputs[i].Frame?
  {
    seq(|inputs|, i requires 0 <= i < |inputs| => inputs[i].value)
  }

  /** The first `k` inputs are frames that do not answer the prompt. */
  ghost predicate Undecided(inputs: seq<Input>, k: nat) {
    k <= |inputs| && (forall i :: 0 <= i < k ==> inputs[i].Frame?) && Quiet(Frames(inputs[..k]))
  }

  /** Input `k` is the first that ends the task. */
  ghost predicate Decides(inputs: seq<Input>, k: nat) {
    && Undecided(inputs, k)
    && (k < |inputs| && inputs[k].Frame? ==> EndsAt(Frames(inputs[..k + 1]), k))
  }

  function OutcomeAt(inputs: seq<Input>, k: nat, cancelled: bool, garbage: bool): TaskOutcome
    requires k <= |inputs|
  {
    if k == |inputs| then Premature(cancelled, garbage)
    else match inputs[k]
      case Deadline => TimedOut
      case Malformed => Premature(cancelled, true)
      case Closed => Premature(cancelled, garbage)
      case Frame(value, _) => TerminalOutcome(value)
  }

  /**
  The outcome is that of the first deciding input: an answer to the prompt
  counts from the prompt's own frame on, and nothing after it does.
  */
  lemma OutcomeOfFirstCause(w: World, t: TaskId, inputs: seq<Input>, k: nat, cancelled: bool, garbage: bool)
    requires Decides(inputs, k)
    ensures LastIs(Output(w, t, FRESH, inputs, cancelled, garbage),
                   Ended(t, OutcomeAt(inputs, k, cancelled, garbage)))
  {
    hide Decides, OutcomeAt, Output, LastIs;
    assert Frames(inputs[..0]) == [] && inputs[0..] == inputs;
    OutcomeFrom(w, t, inputs, 0, k, cancelled, garbage);
  }

  /** Every input sequence has a deciding point. */
  lemma {:induction false} FirstCause(inputs: seq<Input>, i: nat) returns (k: nat)
    requires Undecided(inputs, i)
    ensures i <= k && Decides(inputs, k)
    decreases |inputs| - i
  {
    if i == |inputs| || !inputs[i].Frame? || EndsAt(Frames(inputs[..i + 1]), i) {
      k := i;
    } else {
      var some, more := Frames(inputs[..i]), Frames(inputs[..i + 1]);
      forall j | 0 <= j <= i
        ensures !EndsAt(more, j)
      {
        if j < i {
          assert some[..j + 1] == more[..j + 1];
          assert !EndsAt(some, j);
        }
      }
      k := FirstCause(inputs, i + 1);
    }
  }

  lemma UndecidedPrefix(inputs: seq<Input>, i: nat, k: nat)
    requires Undecided(inputs, k) && i <= k
    ensures Undecided(inputs, i)
  {
    var all, some := Frames(inputs[..k]), Frames(inputs[..i]);
    forall j | 0 <= j < i
      ensures !EndsAt(some, j)
    {
      assert some[..j + 1] == all[..j + 1];
      assert !EndsAt(all, j);
    }
  }

  lemma {:induction false} OutcomeFrom(w: World, t: TaskId, inputs: seq<Input>, i: nat, k: nat,
                                       cancelled: bool, garbage: bool)
    requires Decides(inputs, k) && i <= k
    requires forall j :: 0 <= j < i ==> inputs[j].Frame?
    ensures LastIs(Output(w, t, Fold(w, t, Frames(inputs[..i])), inputs[i..], cancelled, garbage),
                   Ended(t, OutcomeAt(inputs, k, cancelled, garbage)))
    decreases k - i
  {
    hide OutcomeAt, Output, Fold, EndsAt, LastIs, Quiet;
    if i < k {
      assert Undecided(inputs, k);
      OutcomeFrom(w, t, inputs, i + 1, k, cancelled, garbage);
      OutcomeLater(w, t, inputs, i, cancelled, garbage, Ended(t, OutcomeAt(inputs, k, cancelled, garbage))) by {
        UndecidedPrefix(inputs, i + 1, k);
      }
    } else {
      OutcomeNow(w, t, inputs, k, cancelled, garbage);
    }
  }

  ghost predicate LastIs(events: seq<Event>, e: Event) {
    events != [] && events[|events| - 1] == e
  }

  lemma FoldExtend(w: World, t: TaskId, inputs: seq<Input>, i: nat)
    requires i < |inputs| && forall j :: 0 <= j <= i ==> inputs[j].Frame?
    ensures Frames(inputs[..i + 1]) == Frames(inputs[..i]) + [inputs[i].value]
    ensures Fold(w, t, Frames(inputs[..i + 1])) ==
      ReadValue(w, t, Fold(w, t, Frames(inputs[..i])), inputs[i].value).after
  {
    hide ReadValue;
    var more := Frames(inputs[..i + 1]);
    assert more[..|more| - 1] == Frames(inputs[..i]);
  }

  /** A frame that does not end the task leaves the last event to the rest. */
  lemma OutcomeLater(w: World, t: TaskId, inputs: seq<Input>, i: nat, cancelled: bool, garbage: bool, last: Event)
    requires i < |inputs| && Undecided(inputs, i + 1)
    requires LastIs(Output(w, t, Fold(w, t, Frames(inputs[..i + 1])), inputs[i + 1..], cancelled, garbage), last)
    ensures LastIs(Output(w, t, Fold(w, t, Frames(inputs[..i])), inputs[i..], cancelled, garbage), last)
  {
    hide ReadValue, Output, ArtifactEvents;
    FoldExtend(w, t, inputs, i);
    StateFromHistory(w, t, Frames(inputs[..i + 1]));
    OutputAtFrame(w, t, Fold(w, t, Frames(inputs[..i])), inputs, i, cancelled, garbage);
  }

  /** The deciding input, or the end of the stream. */
  lemma OutcomeNow(w: World, t: TaskId, inputs: seq<Input>, k: nat, cancelled: bool, garbage: bool)
    requires Decides(inputs, k)
    ensures LastIs(Output(w, t, Fold(w, t, Frames(inputs[..k])), inputs[k..], cancelled, garbage),
                   Ended(t, OutcomeAt(inputs, k, cancelled, garbage)))
  {
    hide ReadValue, Premature, Fold, TerminalOutcome;
    if k < |inputs| && inputs[k].Frame? {
      hide Output, EndsAt;
      FoldExtend(w, t, inputs, k);
      LastFrame(w, t, Frames(inputs[..k]), inputs[k].value);
      OutputAtFrame(w, t, Fold(w, t, Frames(inputs[..k])), inputs, k, cancelled, garbage);
    }
  }

  lemma LastFrame(w: World, t: TaskId, frames: seq<Json>, v: Json)
    requires Quiet(frames) && EndsAt(frames + [v], |frames|)
    ensures var line := ReadValue(w, t, Fold(w, t, frames), v);
      line.after.ended && LastIs(line.events, Ended(t, TerminalOutcome(v))) && line.artifact.None?
  {
    StateFromHistory(w, t, frames);
    PromptIdExtend(frames, v);
    assert (frames + [v])[..|frames| + 1] == frames + [v];
  }

  // ---- several readers at once

  /** `trace` interleaves prefixes of the given events of distinct tasks. */
  ghost predicate Interleaves(trace: seq<Event>, outputs: map<TaskId, seq<Event>>) {
    forall t: TaskId :: Conformance.OfTask(trace, t) <= if t in outputs then outputs[t] else []
  }

  /** Any interleaving of such bursts passes the conformance checker. */
  lemma BurstsConform(trace: seq<Event>, outputs: map<TaskId, seq<Event>>)
    requires Interleaves(trace, outputs)
    requires forall t :: t in outputs ==> EndsOnce(outputs[t], t)
    ensures NoPostTerminal(trace)
  {
    forall t: TaskId
      ensures NoPostTerminal(Conformance.OfTask(trace, t))
    {
      var mine := Conformance.OfTask(trace, t);
      if t in outputs {
        assert forall i :: 0 <= i < |mine| ==> mine[i] == outputs[t][i];
      }
    }
    assert Conformance.EachTaskAccepted(trace);
    Conformance.Compositional(trace);
  }

  /** What a prompt reader is given: its input, and the flags as it ends. */
  datatype Feed = Feed(inputs: seq<Input>, cancelled: bool, garbage: bool)

  /** `trace` interleaves prefixes of what the prompt readers of the fed tasks send. */
  ghost predicate SentByReaders(trace: seq<Event>, w: World, feeds: map<TaskId, Feed>) {
    forall t: TaskId :: Conformance.OfTask(trace, t) <=
      if t in feeds then Output(w, t, FRESH, feeds[t].inputs, feeds[t].cancelled, feeds[t].garbage) else []
  }

  /**
  Prompt readers of distinct tasks, each on whatever input, interleaved in
  whatever way and stopped anywhere: the checker accepts, and a task whose
  reader finished has ended exactly once.
  */
  lemma ReadersConform(trace: seq<Event>, w: World, feeds: map<TaskId, Feed>)
    requires SentByReaders(trace, w, feeds)
    ensures NoPostTerminal(trace)
    ensures forall t :: t in feeds && Finished(trace, w, feeds, t) ==> EndedCount(trace, t) == 1
  {
    hide Output;
    var outputs: map<TaskId, seq<Event>> := map t | t in feeds ::
      Output(w, t, FRESH, feeds[t].inputs, feeds[t].cancelled, feeds[t].garbage);
    forall t | t in feeds
      ensures EndsOnce(outputs[t], t)
    {
      ReaderEndsOnce(w, t, FRESH, feeds[t].inputs, feeds[t].cancelled, feeds[t].garbage);
    }
    BurstsConform(trace, outputs);
    forall t | t in feeds && Finished(trace, w, feeds, t)
      ensures EndedCount(trace, t) == 1
    {
      assert outputs[t][|outputs[t]| - 1].Ended?;
      assert EndedIn(outputs[t], t);
      Conformance.OfTaskEnded(trace, t);
      EndedAtMostOnce(trace, t);
    }
  }

  /** Everything the reader of `t` sends is in the trace. */
  ghost predicate Finished(trace: seq<Event>, w: World, feeds: map<TaskId, Feed>, t: TaskId)
    requires t in feeds
  {
    Conformance.OfTask(trace, t) == Output(w, t, FRESH, feeds[t].inputs, feeds[t].cancelled, feeds[t].garbage)
  }
}
