/**
What a Claude session remembers of tool uses, and what it sends for them, said
from the history of its frames
(crates/bastion-agent-runtime/src/claude_code.rs): a tool result is reported
with the name, the edits and the file of the tool use it answers.
*/
module ClaudeTools {
  import opened Characters
  import opened Events
  import opened Filters
  import opened ClaudeState
  import opened ClaudeSystem
  import opened ClaudeEffects

  // ---- the history

  /** What one block, or one `result` frame, does to the tool uses in flight. */
  datatype Mark = Opens(id: string, tool: ToolUse) | Closes(id: string) | ClosesAll | Nothing

  /** A tool use counts in an `assistant` frame, its result in a `user` frame. */
  function BlockMark(assistant: bool, b: Block): Mark {
    if assistant && b.ToolUseBlock? then Opens(b.id, b.tool)
    else if !assistant && b.ToolResultBlock? then Closes(b.toolUseId)
    else Nothing
  }

  function BlockMarks(assistant: bool, blocks: seq<Block>): seq<Mark> {
    seq(|blocks|, i requires 0 <= i < |blocks| => BlockMark(assistant, blocks[i]))
  }

  function FrameMarks(f: Frame): seq<Mark> {
    match f
    case AssistantFrame(blocks) => BlockMarks(true, blocks)
    case UserFrame(blocks) => BlockMarks(false, blocks)
    case ResultFrame(_, _, _, _) => [ClosesAll]
    case _ => []
  }

  function Marks(frames: seq<Frame>): seq<Mark> {
    if frames == [] then [] else Marks(frames[..|frames| - 1]) + FrameMarks(frames[|frames| - 1])
  }

  predicate Touches(m: Mark, id: string) {
    m.ClosesAll? || ((m.Opens? || m.Closes?) && m.id == id)
  }

  /** Mark `k` opens tool use `id` as `tool`, and no later one speaks of it. */
  ghost predicate OpenedAt(marks: seq<Mark>, id: string, tool: ToolUse, k: int) {
    && 0 <= k < |marks| && marks[k] == Opens(id, tool)
    && forall j :: k < j < |marks| ==> !Touches(marks[j], id)
  }

  ghost predicate Open(marks: seq<Mark>, id: string, tool: ToolUse) {
    exists k :: OpenedAt(marks, id, tool, k)
  }

  /** The tool uses remembered are exactly those opened and not closed since, as they were opened last. */
  ghost predicate Remembers(tools: map<string, ToolUse>, marks: seq<Mark>) {
    forall id, tool :: Open(marks, id, tool) <==> id in tools && tools[id] == tool
  }

  lemma OpenNext(marks: seq<Mark>, m: Mark, id: string, tool: ToolUse)
    ensures Open(marks + [m], id, tool) <==> m == Opens(id, tool) || (!Touches(m, id) && Open(marks, id, tool))
  {
    var all := marks + [m];
    assert all[|marks|] == m;
    assert forall j :: 0 <= j < |marks| ==> all[j] == marks[j];
    if m == Opens(id, tool) {
      assert OpenedAt(all, id, tool, |marks|);
    }
    if !Touches(m, id) && Open(marks, id, tool) {
      var k :| OpenedAt(marks, id, tool, k);
      assert OpenedAt(all, id, tool, k);
    }
    if k :| OpenedAt(all, id, tool, k) {
      assert k < |marks| ==> OpenedAt(marks, id, tool, k);
    }
  }

  function AfterMark(tools: map<string, ToolUse>, m: Mark): map<string, ToolUse> {
    match m
    case Opens(id, tool) => tools[id := tool]
    case Closes(id) => tools - {id}
    case ClosesAll => map[]
    case Nothing => tools
  }

  lemma RemembersNext(tools: map<string, ToolUse>, marks: seq<Mark>, m: Mark)
    requires Remembers(tools, marks)
    ensures Remembers(AfterMark(tools, m), marks + [m])
  {
    hide Open;
    forall id, tool
      ensures Open(marks + [m], id, tool) <==> id in AfterMark(tools, m) && AfterMark(tools, m)[id] == tool
    {
      OpenNext(marks, m, id, tool);
    }
  }

  lemma {:induction false} RemembersOpened(tools: map<string, ToolUse>, marks: seq<Mark>, blocks: seq<Block>)
    requires Remembers(tools, marks)
    ensures Remembers(ToolsOpened(tools, blocks), marks + BlockMarks(true, blocks))
  {
    hide Remembers;
    if blocks == [] {
      assert marks + BlockMarks(true, blocks) == marks;
    } else {
      var n := |blocks| - 1;
      RemembersOpened(tools, marks, blocks[..n]);
      RemembersNext(ToolsOpened(tools, blocks[..n]), marks + BlockMarks(true, blocks[..n]), BlockMark(true, blocks[n]));
      assert marks + BlockMarks(true, blocks) ==
        marks + BlockMarks(true, blocks[..n]) + [BlockMark(true, blocks[n])];
    }
  }

  lemma {:induction false} RemembersClosed(tools: map<string, ToolUse>, marks: seq<Mark>, blocks: seq<Block>)
    requires Remembers(tools, marks)
    ensures Remembers(ToolsClosed(tools, blocks), marks + BlockMarks(false, blocks))
  {
    hide Remembers;
    if blocks == [] {
      assert marks + BlockMarks(false, blocks) == marks;
    } else {
      var n := |blocks| - 1;
      RemembersClosed(tools, marks, blocks[..n]);
      RemembersNext(ToolsClosed(tools, blocks[..n]), marks + BlockMarks(false, blocks[..n]),
                    BlockMark(false, blocks[n]));
      assert marks + BlockMarks(false, blocks) ==
        marks + BlockMarks(false, blocks[..n]) + [BlockMark(false, blocks[n])];
    }
  }

  /** Every frame of the current task keeps it so. */
  lemma DispatchRemembers(s: State, marks: seq<Mark>, t: TaskId, f: Frame, now: nat, mode: string,
                          disk: map<string, string>)
    requires Remembers(s.tools, marks)
    ensures Remembers(Dispatch(s, t, f, now, mode, disk).state.tools, marks + FrameMarks(f))
  {
    hide Remembers, ToolsOpened, ToolsClosed, AssistantEvents, ResultEvents, InitWarnings;
    match f
    case AssistantFrame(blocks) => RemembersOpened(s.tools, marks, blocks);
    case UserFrame(blocks) => RemembersClosed(s.tools, marks, blocks);
    case ResultFrame(_, _, _, _) => RemembersNext(s.tools, marks, ClosesAll);
    case _ => assert marks + FrameMarks(f) == marks;
  }

  // ---- over every run

  /** `step` is a frame handled as the current task's own. */
  ghost predicate Handles(s: Sys, step: Step) {
    step.ReaderDispatch? && s.reader.Holding? && s.st.current.Some? && s.st.skipResults == 0
  }

  /** The frames handled in a run, in order. */
  ghost function Handled(cfg: Config, steps: seq<Step>): seq<Frame> {
    if steps == [] then []
    else
      var n := |steps| - 1;
      var before := Run(Init(cfg), steps[..n]);
      if before.Some? && Handles(before.value, steps[n])
      then Handled(cfg, steps[..n]) + [before.value.reader.frame] else Handled(cfg, steps[..n])
  }

  lemma OtherStepsForget(s: Sys, step: Step)
    requires Apply(s, step).Some? && !Handles(s, step)
    ensures Apply(s, step).value.st.tools == s.st.tools
  {
    StepEffect(s, step);
    OtherEffectsForget(s, step);
    hide Apply, EffectOf, Handles;
  }

  lemma OtherEffectsForget(s: Sys, step: Step)
    requires Apply(s, step).Some? && !Handles(s, step)
    ensures EffectOf(s, step).state.tools == s.st.tools
  {
    hide Dispatch;
    if step.CancelKill? || step.CancelForce? || step.WatchForce? || step.ReaderStop? {
      hide Apply, Submit, SubmitFailed, Respond, DispatchIdle, StopBegin, CancelMark;
    } else {
      hide Finish, KillNow, StopForce, ReaderExit, Lists;
    }
  }

  /** After every run the session remembers exactly what the handled frames say. */
  lemma {:induction false} ToolsFromHistory(cfg: Config, steps: seq<Step>, s: Sys)
    requires Run(Init(cfg), steps) == Some(s)
    ensures Remembers(s.st.tools, Marks(Handled(cfg, steps)))
  {
    hide Apply, Init, Remembers;
    if steps == [] {
      NothingRemembered(cfg);
    } else {
      var n := |steps| - 1;
      var before := Run(Init(cfg), steps[..n]).value;
      ToolsFromHistory(cfg, steps[..n], before);
      if Handles(before, steps[n]) {
        HandledRemembers(before, steps[n], Marks(Handled(cfg, steps[..n])));
        var frames := Handled(cfg, steps[..n]);
        assert (frames + [before.reader.frame])[..|frames|] == frames;
      } else {
        OtherStepsForget(before, steps[n]);
      }
    }
  }

  lemma NothingRemembered(cfg: Config)
    ensures Remembers(Init(cfg).st.tools, Marks([]))
  {
  }

  lemma HandledRemembers(s: Sys, step: Step, marks: seq<Mark>)
    requires Handles(s, step) && Apply(s, step).Some? && Remembers(s.st.tools, marks)
    ensures Remembers(Apply(s, step).value.st.tools, marks + FrameMarks(s.reader.frame))
  {
    hide Remembers, Dispatch, FrameMarks;
    DispatchRemembers(s.st, marks, s.st.current.value, s.reader.frame, s.now, s.cfg.mode, step.disk);
  }

  // ---- what is sent for a block

  /** A tool result with what is known of its tool use: its name, and, if it succeeded, its edits and its file. */
  ghost predicate Reports(events: seq<Event>, t: TaskId, b: Block, tool: ToolUse, disk: map<string, string>)
    requires b.ToolResultBlock?
  {
    var n := |tool.diffs|;
    && events != [] && events[0] == ToolResult(t, tool.name, b.content, b.isError)
    && (b.isError ==> |events| == 1)
    && (!b.isError ==>
          && |events| == 1 + n + (if tool.target.Some? && tool.target.value in disk then 1 else 0)
          && (forall i :: 0 <= i < n ==>
                events[1 + i] == Diff(t, tool.diffs[i].path, tool.diffs[i].added, tool.diffs[i].removed))
          && (tool.target.Some? && tool.target.value in disk ==>
                events[1 + n] == Artifact(t, tool.target.value, disk[tool.target.value])))
  }

  /** What block `b` of a `user` frame is to be answered with, after `marks`. */
  ghost predicate Answers(events: seq<Event>, t: TaskId, b: Block, marks: seq<Mark>, disk: map<string, string>) {
    if !b.ToolResultBlock? then events == []
    else
      && (forall tool :: Open(marks, b.toolUseId, tool) ==> Reports(events, t, b, tool, disk))
      && ((forall tool :: !Open(marks, b.toolUseId, tool)) ==> events == [ToolResult(t, "", b.content, b.isError)])
  }

  lemma OneAnswer(t: TaskId, b: Block, tools: map<string, ToolUse>, marks: seq<Mark>, disk: map<string, string>)
    requires Remembers(tools, marks)
    ensures Answers(ResultEvent(t, b, tools, disk), t, b, marks, disk)
  {
    hide Open, Reports;
    if b.ToolResultBlock? && b.toolUseId in tools {
      KnownResult(t, b, tools, disk);
      assert Open(marks, b.toolUseId, tools[b.toolUseId]);
    }
  }

  lemma KnownResult(t: TaskId, b: Block, tools: map<string, ToolUse>, disk: map<string, string>)
    requires b.ToolResultBlock? && b.toolUseId in tools
    ensures Reports(ResultEvent(t, b, tools, disk), t, b, tools[b.toolUseId], disk)
  {
    hide Reports, DiffEvents;
    var tool, events := tools[b.toolUseId], ResultEvent(t, b, tools, disk);
    if b.isError {
      FailureReports(t, b, tool, disk);
      assert events == [ToolResult(t, tool.name, b.content, true)];
    } else {
      var diffs := DiffEvents(t, tool.diffs);
      var file := if tool.target.Some? && tool.target.value in disk
        then [Artifact(t, tool.target.value, disk[tool.target.value])] else [];
      Parts(events, ToolResult(t, tool.name, b.content, false), diffs, file);
      hide ResultEvent;
      SuccessReports(t, b, tool, events, file, disk);
    }
  }

  lemma SuccessReports(t: TaskId, b: Block, tool: ToolUse, events: seq<Event>, file: seq<Event>,
                       disk: map<string, string>)
    requires b.ToolResultBlock? && !b.isError
    requires file == if tool.target.Some? && tool.target.value in disk
      then [Artifact(t, tool.target.value, disk[tool.target.value])] else []
    requires |events| == 1 + |tool.diffs| + |file| && events[0] == ToolResult(t, tool.name, b.content, false)
    requires forall i :: 0 <= i < |tool.diffs| ==> events[1 + i] == DiffEvents(t, tool.diffs)[i]
    requires forall i :: 0 <= i < |file| ==> events[1 + |tool.diffs| + i] == file[i]
    ensures Reports(events, t, b, tool, disk)
  {
    forall i | 0 <= i < |tool.diffs|
      ensures events[1 + i] == Diff(t, tool.diffs[i].path, tool.diffs[i].added, tool.diffs[i].removed)
    {
      assert events[1 + i] == DiffEvents(t, tool.diffs)[i];
    }
    assert file != [] ==> events[1 + |tool.diffs| + 0] == file[0];
  }

  lemma FailureReports(t: TaskId, b: Block, tool: ToolUse, disk: map<string, string>)
    requires b.ToolResultBlock? && b.isError
    ensures Reports([ToolResult(t, tool.name, b.content, true)], t, b, tool, disk)
  {
  }

  lemma {:induction false} BlockAnswers(t: TaskId, blocks: seq<Block>, tools: map<string, ToolUse>, marks: seq<Mark>,
                                        disk: map<string, string>) returns (parts: seq<seq<Event>>)
    requires Remembers(tools, marks)
    ensures |parts| == |blocks| && Flat(parts) == ResultEvents(t, blocks, tools, disk)
    ensures forall j :: 0 <= j < |blocks| ==>
      Answers(parts[j], t, blocks[j], marks + BlockMarks(false, blocks[..j]), disk)
  {
    hide Remembers, Answers, ResultEvent;
    if blocks == [] {
      parts := [];
    } else {
      var n := |blocks| - 1;
      var init := BlockAnswers(t, blocks[..n], tools, marks, disk);
      var before := ToolsClosed(tools, blocks[..n]);
      RemembersClosed(tools, marks, blocks[..n]);
      OneAnswer(t, blocks[n], before, marks + BlockMarks(false, blocks[..n]), disk);
      parts := init + [ResultEvent(t, blocks[n], before, disk)];
      FlatLast(init, ResultEvent(t, blocks[n], before, disk));
      assert forall j :: 0 <= j < n ==> blocks[..n][..j] == blocks[..j];
    }
  }

  /** What block `b` of an `assistant` frame says. */
  ghost predicate Says(events: seq<Event>, t: TaskId, b: Block) {
    match b
    case TextBlock(text) => events == if text == "" then [] else [MessageDelta(t, text)]
    case ThinkingBlock(thinking) =>
      events == if forall i :: 0 <= i < |thinking| ==> IsWhitespace(thinking[i]) then [] else [Thinking(t, thinking)]
    case ToolUseBlock(_, input, tool) => events == [ToolCall(t, tool.name, input)]
    case _ => events == []
  }

  lemma {:induction false} BlockSays(t: TaskId, blocks: seq<Block>) returns (parts: seq<seq<Event>>)
    ensures |parts| == |blocks| && Flat(parts) == AssistantEvents(t, blocks)
    ensures forall j :: 0 <= j < |blocks| ==> Says(parts[j], t, blocks[j])
  {
    if blocks == [] {
      parts := [];
    } else {
      var n := |blocks| - 1;
      var init := BlockSays(t, blocks[..n]);
      parts := init + [AssistantEvent(t, blocks[n])];
      FlatLast(init, AssistantEvent(t, blocks[n]));
    }
  }

  /**
  Over every run: the events a handled frame adds to the trace. A `user`
  frame's are, block by block, the tool results with the name, edits and file
  of the tool use that the frames handled before, and the blocks before it in
  this frame, left open under its id; an `assistant` frame's are what its
  blocks say.
  */
  lemma HandledFrameSends(cfg: Config, steps: seq<Step>, s: Sys, disk: map<string, string>)
    returns (parts: seq<seq<Event>>)
    requires Run(Init(cfg), steps) == Some(s) && Handles(s, ReaderDispatch(disk))
    requires s.reader.frame.UserFrame? || s.reader.frame.AssistantFrame?
    ensures var t, blocks := s.st.current.value, s.reader.frame.blocks;
      && Apply(s, ReaderDispatch(disk)).value.trace == s.trace + Flat(parts) && |parts| == |blocks|
      && (s.reader.frame.AssistantFrame? ==> forall j :: 0 <= j < |blocks| ==> Says(parts[j], t, blocks[j]))
      && (s.reader.frame.UserFrame? ==> forall j :: 0 <= j < |blocks| ==>
            Answers(parts[j], t, blocks[j], Marks(Handled(cfg, steps)) + BlockMarks(false, blocks[..j]), disk))
  {
    hide Run, Remembers, Answers, Says, Flat, AssistantEvents, ResultEvents, ToolsOpened, ToolsClosed;
    if s.reader.frame.UserFrame? {
      ToolsFromHistory(cfg, steps, s);
      parts := BlockAnswers(s.st.current.value, s.reader.frame.blocks, s.st.tools, Marks(Handled(cfg, steps)), disk);
    } else {
      parts := BlockSays(s.st.current.value, s.reader.frame.blocks);
    }
  }

  /** An `init` frame is warned of exactly when its mode or its credential is not the expected one. */
  lemma InitSays(t: TaskId, expected: string, mode: string, credential: string)
    ensures var events := InitWarnings(t, expected, mode, credential);
      var modeOk := mode == "" || mode == expected || (expected == "default" && mode == "manual");
      && |events| == (if modeOk then 0 else 1) + (if credential == "" || credential == "none" then 0 else 1)
      && (forall i :: 0 <= i < |events| ==> events[i].Warning? && events[i].task == t)
      && (!modeOk ==> events[0].detail == "claude reports permission mode '" + mode + "'")
      && (credential != "" && credential != "none" ==>
            events[|events| - 1].detail == "claude authenticated with '" + credential + "'")
  {
  }
}
