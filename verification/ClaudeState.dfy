/**
The mutex-guarded state of one Claude Code session
(crates/bastion-agent-runtime/src/claude_code.rs): what each critical section
does to it, which events it sends and which replies it queues. Instants are
readings of one clock, in ticks. ClaudeSession.dfy proves the imperative
critical sections against these functions; ClaudeSystem.dfy runs them
concurrently.
*/
module ClaudeState {
  import opened Characters
  import opened Events

  /** `Halted` is the `Cancelled` status of the source (a task outcome has that name too). */
  datatype SessionStatus = Idle | Running | Halted | Crashed

  datatype FileDiff = FileDiff(path: string, added: nat, removed: nat)

  /** What is remembered of a tool use until its result arrives. */
  datatype ToolUse = ToolUse(name: string, diffs: seq<FileDiff>, target: Option<string>)

  /** One content block of an `assistant` or `user` frame. */
  datatype Block =
    | TextBlock(text: string)
    | ThinkingBlock(thinking: string)
    | ToolUseBlock(id: string, input: string, tool: ToolUse)
    | ToolResultBlock(toolUseId: string, content: string, isError: bool)
    | OtherBlock

  datatype ControlRequest =
    | CanUseTool(tool: string, input: string, detail: string)
    | OtherControl(subtype: Option<string>)

  /** One stdout frame, decoded. */
  datatype Frame =
    | InitFrame(mode: string, credential: string)
    | AssistantFrame(blocks: seq<Block>)
    | UserFrame(blocks: seq<Block>)
    | ControlFrame(requestId: string, request: ControlRequest)
    | ResultFrame(inputTokens: nat, outputTokens: nat, success: bool, reason: string)
    | OtherFrame

  datatype Verdict = Allowed(input: string) | Denied(interrupt: bool) | Unsupported(subtype: string)

  /** A `control_response` frame. */
  datatype Reply = Reply(requestId: string, verdict: Verdict)

  datatype PendingPermission = PendingPermission(requestId: string, input: string)

  datatype DenyScope = Instance | Turn

  datatype Decision = Allow | Deny(scope: DenyScope)

  datatype State = State(
    status: SessionStatus,
    current: Option<TaskId>,
    ending: Option<TaskOutcome>,
    skipResults: nat,
    pending: map<nat, PendingPermission>,
    nextPermission: nat,
    activeBefore: nat,
    activeSince: Option<nat>,
    earlyExit: bool,
    closing: bool,
    tools: map<string, ToolUse>)

  const INITIAL_STATE := State(Idle, None, None, 0, map[], 0, 0, None, false, false, map[])

  /** The outcome of one critical section. */
  datatype Effect = Effect(state: State, events: seq<Event>, replies: seq<Reply>)

  // ---- finish_task

  function Finish(s: State, t: TaskId, natural: TaskOutcome): Effect {
    Effect(
      s.(current := None, ending := None, pending := map[], activeSince := None, activeBefore := 0,
         status := if s.status == Running then Idle else s.status),
      [Ended(t, if s.ending.Some? then s.ending.value else natural)], [])
  }

  // ---- submit

  datatype Gate = Admitted(effect: Effect) | Killed | AlreadyCrashed | Busy

  const HINT_WARNING := "model_hint was not applied"

  function Submit(s: State, t: TaskId, now: nat, hint: bool): Gate {
    if s.closing then Killed
    else if s.status == Crashed then AlreadyCrashed
    else if s.current.Some? then Busy
    else Admitted(Effect(
      s.(current := Some(t), ending := None, activeBefore := 0, activeSince := Some(now), status := Running),
      if hint then [Warning(t, HINT_WARNING)] else [], []))
  }

  function SubmitFailed(s: State, t: TaskId): State {
    if s.current == Some(t) then s.(current := None, activeSince := None, status := Crashed) else s
  }

  // ---- cancel and stop_task

  function CancelMark(s: State): State {
    if s.status != Crashed then s.(status := Halted) else s
  }

  function KillNow(s: State, t: TaskId): Effect {
    var closed := s.(closing := true);
    if s.current == Some(t) then Finish(closed, t, Cancelled) else Effect(closed, [], [])
  }

  /** `order` lists the keys of `pending` in the order the map drains them. */
  ghost predicate Lists(order: seq<nat>, pending: map<nat, PendingPermission>) {
    && (forall i :: 0 <= i < |order| ==> order[i] in pending)
    && (forall i, j :: 0 <= i < j < |order| ==> order[i] != order[j])
    && (forall id :: id in pending ==> id in order)
  }

  function Denials(order: seq<nat>, pending: map<nat, PendingPermission>): (r: seq<Reply>)
    requires forall i :: 0 <= i < |order| ==> order[i] in pending
    ensures |r| == |order|
    ensures forall i :: 0 <= i < |r| ==> r[i] == Reply(pending[order[i]].requestId, Denied(true))
  {
    seq(|order|, i requires 0 <= i < |order| => Reply(pending[order[i]].requestId, Denied(true)))
  }

  /** The first critical section of stop_task, when `t` is still current. */
  function StopBegin(s: State, outcome: TaskOutcome, order: seq<nat>): Effect
    requires forall i :: 0 <= i < |order| ==> order[i] in s.pending
  {
    Effect(s.(ending := Some(outcome), pending := map[]), [], Denials(order, s.pending))
  }

  /** The last critical section of stop_task, after the grace period. */
  function StopForce(s: State, t: TaskId, outcome: TaskOutcome): Effect {
    if s.current == Some(t)
    then Finish(s.(skipResults := s.skipResults + 1), t, outcome)
    else Effect(s, [], [])
  }

  // ---- the reader's exit

  function ReaderExit(s: State, reason: string): Effect {
    var drained := s.(pending := map[], earlyExit := true);
    if s.closing then Effect(drained, [], [])
    else if s.current.Some? then
      var ended := Finish(drained, s.current.value, Failed(reason));
      ended.(state := ended.state.(status := Crashed))
    else Effect(drained.(status := Crashed), [], [])
  }

  // ---- dispatch of a frame to the current task

  function InitWarnings(t: TaskId, expected: string, mode: string, credential: string): seq<Event> {
    var modeOk := if expected == "default" then mode == "default" || mode == "manual" else mode == expected;
    (if mode != "" && !modeOk then [Warning(t, "claude reports permission mode '" + mode + "'")] else []) +
    (if credential != "" && credential != "none"
     then [Warning(t, "claude authenticated with '" + credential + "'")] else [])
  }

  function AssistantEvents(t: TaskId, blocks: seq<Block>): seq<Event> {
    if blocks == [] then []
    else AssistantEvents(t, blocks[..|blocks| - 1]) + AssistantEvent(t, blocks[|blocks| - 1])
  }

  function AssistantEvent(t: TaskId, b: Block): seq<Event> {
    match b
    case TextBlock(text) => if text == "" then [] else [MessageDelta(t, text)]
    case ThinkingBlock(thinking) => if Blank(thinking) then [] else [Thinking(t, thinking)]
    case ToolUseBlock(_, input, tool) => [ToolCall(t, tool.name, input)]
    case _ => []
  }

  function ToolsOpened(tools: map<string, ToolUse>, blocks: seq<Block>): map<string, ToolUse> {
    if blocks == [] then tools
    else
      var b, before := blocks[|blocks| - 1], ToolsOpened(tools, blocks[..|blocks| - 1]);
      if b.ToolUseBlock? then before[b.id := b.tool] else before
  }

  function ToolsClosed(tools: map<string, ToolUse>, blocks: seq<Block>): map<string, ToolUse> {
    if blocks == [] then tools
    else
      var b, before := blocks[|blocks| - 1], ToolsClosed(tools, blocks[..|blocks| - 1]);
      if b.ToolResultBlock? then before - {b.toolUseId} else before
  }

  function DiffEvents(t: TaskId, diffs: seq<FileDiff>): (r: seq<Event>)
    ensures |r| == |diffs|
    ensures forall i :: 0 <= i < |r| ==> r[i] == Diff(t, diffs[i].path, diffs[i].added, diffs[i].removed)
  {
    seq(|diffs|, i requires 0 <= i < |diffs| => Diff(t, diffs[i].path, diffs[i].added, diffs[i].removed))
  }

  /** `disk` maps the paths readable inside the workspace to their contents. */
  function ResultEvent(t: TaskId, b: Block, tools: map<string, ToolUse>, disk: map<string, string>): seq<Event> {
    match b
    case ToolResultBlock(id, content, isError) =>
      if id in tools then
        var tool := tools[id];
        [ToolResult(t, tool.name, content, isError)] +
        (if isError then []
         else DiffEvents(t, tool.diffs) +
              (if tool.target.Some? && tool.target.value in disk
               then [Artifact(t, tool.target.value, disk[tool.target.value])] else []))
      else [ToolResult(t, "", content, isError)]
    case _ => []
  }

  function ResultEvents(t: TaskId, blocks: seq<Block>, tools: map<string, ToolUse>,
                        disk: map<string, string>): seq<Event>
  {
    if blocks == [] then []
    else
      var n := |blocks| - 1;
      ResultEvents(t, blocks[..n], tools, disk) + ResultEvent(t, blocks[n], ToolsClosed(tools, blocks[..n]), disk)
  }

  function ActionOf(tool: string): PermissionAction {
    if tool in {"Write", "Edit", "MultiEdit", "NotebookEdit"} then WriteFile
    else if tool in {"Bash", "BashOutput", "KillShell", "KillBash", "PowerShell"} then RunCommand
    else if tool in {"WebFetch", "WebSearch"} then Network
    else UseTool
  }

  /** Stops the running stretch of the watchdog clock. */
  function PauseClock(s: State, now: nat): State {
    if s.activeSince.Some? && s.activeSince.value <= now
    then s.(activeBefore := s.activeBefore + (now - s.activeSince.value), activeSince := None)
    else s.(activeSince := None)
  }

  function RaisePermission(s: State, t: TaskId, requestId: string, request: ControlRequest, now: nat): Effect
    requires request.CanUseTool?
  {
    var id := s.nextPermission;
    Effect(
      PauseClock(s, now).(nextPermission := id + 1,
                          pending := s.pending[id := PendingPermission(requestId, request.input)]),
      [PermissionRequest(t, id, ActionOf(request.tool), request.detail)], [])
  }

  function FinishByResult(s: State, t: TaskId, f: Frame): Effect
    requires f.ResultFrame?
  {
    var ended := Finish(s.(tools := map[]), t, if f.success then Success else Failed(f.reason));
    ended.(events := [Usage(t, f.inputTokens, f.outputTokens)] + ended.events)
  }

  /** The subtype an unsupported request is rejected under. */
  function Named(request: ControlRequest, missing: string): string
    requires request.OtherControl?
  {
    if request.subtype.Some? then request.subtype.value else missing
  }

  /** One frame handled as a frame of the current task `t`. */
  function Dispatch(s: State, t: TaskId, f: Frame, now: nat, mode: string, disk: map<string, string>): Effect {
    match f
    case InitFrame(reported, credential) => Effect(s, InitWarnings(t, mode, reported, credential), [])
    case AssistantFrame(blocks) =>
      Effect(s.(tools := ToolsOpened(s.tools, blocks)), AssistantEvents(t, blocks), [])
    case UserFrame(blocks) =>
      Effect(s.(tools := ToolsClosed(s.tools, blocks)), ResultEvents(t, blocks, s.tools, disk), [])
    case ControlFrame(requestId, request) =>
      if request.CanUseTool? then RaisePermission(s, t, requestId, request, now)
      else Effect(s, [], [Reply(requestId, Unsupported(Named(request, "")))])
    case ResultFrame(_, _, _, _) => FinishByResult(s, t, f)
    case OtherFrame => Effect(s, [], [])
  }

  /** A frame that dispatch found no task for, after the lock was retaken. */
  function DispatchIdle(s: State, f: Frame): Effect {
    match f
    case ResultFrame(_, _, _, _) =>
      if s.skipResults > 0 then Effect(s.(skipResults := s.skipResults - 1), [], [])
      else if s.current.None? then Effect(s.(earlyExit := true), [], [])
      else Effect(s, [], [])
    case ControlFrame(requestId, request) =>
      Effect(s, [], [Reply(requestId, if request.CanUseTool? then Denied(true)
                                      else Unsupported(Named(request, "unknown")))])
    case _ => Effect(s, [], [])
  }

  // ---- respond_permission

  /** Only meaningful for a pending `id`. */
  function Respond(s: State, id: nat, decision: Decision, now: nat): Effect
    requires id in s.pending
  {
    var p := s.pending[id];
    var left := s.pending - {id};
    var turn := decision == Deny(Turn);
    Effect(
      s.(pending := left,
         ending := if turn then Some(Cancelled) else s.ending,
         activeSince := if left == map[] && s.current.Some? then Some(now) else s.activeSince),
      [],
      [Reply(p.requestId, if decision == Allow then Allowed(p.input) else Denied(turn))])
  }

  // ---- every section sends one task's burst

  ghost predicate Plain(events: seq<Event>, t: TaskId) {
    forall i :: 0 <= i < |events| ==> EventTask(events[i]) == Some(t) && !events[i].Ended?
  }

  lemma {:induction false} AssistantPlain(t: TaskId, blocks: seq<Block>)
    ensures Plain(AssistantEvents(t, blocks), t)
  {
    if blocks != [] {
      var n := |blocks| - 1;
      AssistantPlain(t, blocks[..n]);
      PlainAppend(AssistantEvents(t, blocks[..n]), AssistantEvent(t, blocks[n]), t);
    }
  }

  lemma PlainAppend(a: seq<Event>, b: seq<Event>, t: TaskId)
    requires Plain(a, t) && Plain(b, t)
    ensures Plain(a + b, t)
  {
  }

  lemma ResultEventPlain(t: TaskId, b: Block, tools: map<string, ToolUse>, disk: map<string, string>)
    ensures Plain(ResultEvent(t, b, tools, disk), t)
  {
    if b.ToolResultBlock? && b.toolUseId in tools {
      var tool := tools[b.toolUseId];
      var file :=
        if tool.target.Some? && tool.target.value in disk
        then [Artifact(t, tool.target.value, disk[tool.target.value])] else [];
      PlainAppend(DiffEvents(t, tool.diffs), file, t);
      PlainAppend([ToolResult(t, tool.name, b.content, b.isError)],
                  if b.isError then [] else DiffEvents(t, tool.diffs) + file, t);
    }
  }

  lemma {:induction false} ResultPlain(t: TaskId, blocks: seq<Block>, tools: map<string, ToolUse>,
                                       disk: map<string, string>)
    ensures Plain(ResultEvents(t, blocks, tools, disk), t)
  {
    if blocks != [] {
      var n := |blocks| - 1;
      ResultPlain(t, blocks[..n], tools, disk);
      ResultEventPlain(t, blocks[n], ToolsClosed(tools, blocks[..n]), disk);
      PlainAppend(ResultEvents(t, blocks[..n], tools, disk),
                  ResultEvent(t, blocks[n], ToolsClosed(tools, blocks[..n]), disk), t);
    }
  }

  /**
  Frame by frame: only a `result` ends the task (with the forced outcome when
  there is one), and everything the frame sends belongs to `t`.
  */
  lemma DispatchShape(s: State, t: TaskId, f: Frame, now: nat, mode: string, disk: map<string, string>)
    ensures var e := Dispatch(s, t, f, now, mode, disk);
      && Burst(e.events, t)
      && (f.ResultFrame? ==>
            e.state.current.None? && |e.events| == 2 && e.events[0] == Usage(t, f.inputTokens, f.outputTokens) &&
            e.events[1] == Ended(t, if s.ending.Some? then s.ending.value
                                    else if f.success then Success else Failed(f.reason)))
      && (!f.ResultFrame? ==> e.state.current == s.current && e.state.ending == s.ending && Plain(e.events, t))
  {
    hide Finish, FinishByResult, AssistantEvents, ResultEvents, ToolsOpened, ToolsClosed;
    match f
    case AssistantFrame(blocks) => AssistantPlain(t, blocks);
    case UserFrame(blocks) => ResultPlain(t, blocks, s.tools, disk);
    case ResultFrame(_, _, _, _) => FinishShape(s, t, f);
    case _ =>
  }

  lemma FinishShape(s: State, t: TaskId, f: Frame)
    requires f.ResultFrame?
    ensures var e := FinishByResult(s, t, f);
      && Burst(e.events, t) && e.state.current.None? && |e.events| == 2
      && e.events[0] == Usage(t, f.inputTokens, f.outputTokens)
      && e.events[1] == Ended(t, if s.ending.Some? then s.ending.value
                                 else if f.success then Success else Failed(f.reason))
  {
  }
}
