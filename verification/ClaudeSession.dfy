/**
The critical sections of the Claude adapter in the form the source gives them:
one object whose fields they update and whose channel they send on, proved
against the functions of ClaudeState. `dispatch` interprets a frame into steps
first and carries the steps out one by one.
*/
module ClaudeSession {
  import opened Characters
  import opened Events
  import opened ClaudeState
  import opened JsonValues
  import ClaudeFrames

  /** What the interpreter makes of one frame. */
  datatype FrameStep =
    | EventStep(event: Event)
    | InitStep(mode: string, credential: string)
    | ArtifactStep(target: string)
    | PermissionStep(requestId: string, request: ControlRequest)
    | RejectStep(requestId: string, subtype: string)
    | FinishedStep(inputTokens: nat, outputTokens: nat, success: bool, reason: string)

  // ---- what user-frame blocks become

  function DiffSteps(task: TaskId, diffs: seq<FileDiff>): (r: seq<FrameStep>)
    ensures |r| == |diffs|
    ensures forall i :: 0 <= i < |r| ==> r[i] == EventStep(DiffEvents(task, diffs)[i])
  {
    seq(|diffs|, i requires 0 <= i < |diffs| => EventStep(DiffEvents(task, diffs)[i]))
  }

  function TargetSteps(tool: ToolUse): seq<FrameStep> {
    if tool.target.Some? then [ArtifactStep(tool.target.value)] else []
  }

  /** The steps one `tool_result` block becomes. */
  function ResultSteps(task: TaskId, b: Block, open: map<string, ToolUse>): seq<FrameStep> {
    if !b.ToolResultBlock? then []
    else if b.toolUseId !in open then [EventStep(ToolResult(task, "", b.content, b.isError))]
    else
      var tool := open[b.toolUseId];
      var result := [EventStep(ToolResult(task, tool.name, b.content, b.isError))];
      if b.isError then result else result + DiffSteps(task, tool.diffs) + TargetSteps(tool)
  }

  function BlockSteps(task: TaskId, blocks: seq<Block>, open: map<string, ToolUse>): seq<FrameStep> {
    if blocks == [] then []
    else
      var n := |blocks| - 1;
      BlockSteps(task, blocks[..n], open) + ResultSteps(task, blocks[n], ToolsClosed(open, blocks[..n]))
  }

  /** The events an event or artifact step sends. */
  function StepEvent(task: TaskId, step: FrameStep, disk: map<string, string>): seq<Event> {
    match step
    case EventStep(event) => [event]
    case ArtifactStep(target) => if target in disk then [Artifact(task, target, disk[target])] else []
    case _ => []
  }

  function StepEvents(task: TaskId, steps: seq<FrameStep>, disk: map<string, string>): seq<Event> {
    if steps == [] then []
    else
      var n := |steps| - 1;
      StepEvents(task, steps[..n], disk) + StepEvent(task, steps[n], disk)
  }

  lemma {:induction false} StepEventsAppend(task: TaskId, a: seq<FrameStep>, b: seq<FrameStep>,
                                            disk: map<string, string>)
    ensures StepEvents(task, a + b, disk) == StepEvents(task, a, disk) + StepEvents(task, b, disk)
  {
    hide StepEvent;
    if b == [] {
      assert a + b == a;
    } else {
      var n := |b| - 1;
      StepEventsAppend(task, a, b[..n], disk);
      assert (a + b)[..|a + b| - 1] == a + b[..n];
    }
  }

  lemma {:induction false} PlainStepEvents(task: TaskId, events: seq<Event>, steps: seq<FrameStep>,
                                           disk: map<string, string>)
    requires |steps| == |events| && forall i :: 0 <= i < |steps| ==> steps[i] == EventStep(events[i])
    ensures StepEvents(task, steps, disk) == events
  {
    if steps != [] {
      var n := |steps| - 1;
      PlainStepEvents(task, events[..n], steps[..n], disk);
      assert events == events[..n] + [events[n]];
    }
  }

  lemma OneStepEvents(task: TaskId, step: FrameStep, disk: map<string, string>)
    ensures StepEvents(task, [step], disk) == StepEvent(task, step, disk)
  {
    assert [step][..0] == [];
  }

  lemma ResultStepEvents(task: TaskId, b: Block, open: map<string, ToolUse>, disk: map<string, string>)
    ensures StepEvents(task, ResultSteps(task, b, open), disk) == ResultEvent(task, b, open, disk)
  {
    hide StepEvents;
    if !b.ToolResultBlock? {
      PlainStepEvents(task, [], [], disk);
    } else if b.toolUseId !in open {
      OneStepEvents(task, EventStep(ToolResult(task, "", b.content, b.isError)), disk);
    } else {
      var tool := open[b.toolUseId];
      var head := EventStep(ToolResult(task, tool.name, b.content, b.isError));
      OneStepEvents(task, head, disk);
      if !b.isError {
        StepEventsAppend(task, [head] + DiffSteps(task, tool.diffs), TargetSteps(tool), disk);
        StepEventsAppend(task, [head], DiffSteps(task, tool.diffs), disk);
        PlainStepEvents(task, DiffEvents(task, tool.diffs), DiffSteps(task, tool.diffs), disk);
        if tool.target.Some? {
          OneStepEvents(task, ArtifactStep(tool.target.value), disk);
        } else {
          PlainStepEvents(task, [], [], disk);
        }
      }
    }
  }

  ghost predicate Sending(steps: seq<FrameStep>) {
    forall i :: 0 <= i < |steps| ==> steps[i].EventStep? || steps[i].ArtifactStep?
  }

  lemma {:induction false} BlockStepEvents(task: TaskId, blocks: seq<Block>, open: map<string, ToolUse>,
                                           disk: map<string, string>)
    ensures StepEvents(task, BlockSteps(task, blocks, open), disk) == ResultEvents(task, blocks, open, disk)
    ensures Sending(BlockSteps(task, blocks, open))
  {
    hide StepEvents, ResultEvent;
    if blocks == [] {
      PlainStepEvents(task, [], [], disk);
    } else {
      var n := |blocks| - 1;
      var before := ToolsClosed(open, blocks[..n]);
      BlockStepEvents(task, blocks[..n], open, disk);
      ResultStepEvents(task, blocks[n], before, disk);
      StepEventsAppend(task, BlockSteps(task, blocks[..n], open), ResultSteps(task, blocks[n], before), disk);
    }
  }

  class Session {
    const reader: ClaudeFrames.Reader
    const expectedMode: string
    var status: SessionStatus
    var current: Option<TaskId>
    var ending: Option<TaskOutcome>
    var skipResults: nat
    var pending: map<nat, PendingPermission>
    var nextPermission: nat
    var activeBefore: nat
    var activeSince: Option<nat>
    var earlyExit: bool
    var closing: bool
    var tools: map<string, ToolUse>
    var sent: seq<Event>

    ghost function Abs(): State
      reads this
    {
      State(status, current, ending, skipResults, pending, nextPermission, activeBefore, activeSince, earlyExit,
            closing, tools)
    }

    constructor (reader: ClaudeFrames.Reader, expectedMode: string)
      ensures this.reader == reader && this.expectedMode == expectedMode
      ensures Abs() == INITIAL_STATE && sent == []
    {
      this.reader, this.expectedMode := reader, expectedMode;
      status, current, ending, skipResults := Idle, None, None, 0;
      pending, nextPermission, activeBefore, activeSince := map[], 0, 0, None;
      earlyExit, closing, tools, sent := false, false, map[], [];
    }

    method FinishTask(task: TaskId, natural: TaskOutcome)
      modifies this
      ensures Abs() == Finish(old(Abs()), task, natural).state
      ensures sent == old(sent) + Finish(old(Abs()), task, natural).events
    {
      var outcome := if ending.Some? then ending.value else natural;
      ending := None;
      current := None;
      pending := map[];
      activeSince := None;
      activeBefore := 0;
      if status == Running {
        status := Idle;
      }
      sent := sent + [Ended(task, outcome)];
    }

    /** submit's first critical section. */
    method SubmitGate(task: TaskId, now: nat, hint: bool) returns (gate: Gate)
      modifies this
      ensures gate == Submit(old(Abs()), task, now, hint)
      ensures gate.Admitted? ==> Abs() == gate.effect.state && sent == old(sent) + gate.effect.events
      ensures !gate.Admitted? ==> Abs() == old(Abs()) && sent == old(sent)
    {
      ghost var before := Abs();
      if closing {
        return Killed;
      }
      if status == Crashed {
        return AlreadyCrashed;
      }
      if current.Some? {
        return Busy;
      }
      current := Some(task);
      ending := None;
      activeBefore := 0;
      activeSince := Some(now);
      status := Running;
      if hint {
        sent := sent + [Warning(task, HINT_WARNING)];
      }
      var state := State(status, current, ending, skipResults, pending, nextPermission, activeBefore, activeSince,
                         earlyExit, closing, tools);
      gate := Admitted(Effect(state, if hint then [Warning(task, HINT_WARNING)] else [], []));
    }

    method SubmitWriteFailed(task: TaskId)
      modifies this
      ensures Abs() == SubmitFailed(old(Abs()), task) && sent == old(sent)
    {
      if current == Some(task) {
        current := None;
        activeSince := None;
        status := Crashed;
      }
    }

    method MarkCancelled() returns (task: Option<TaskId>)
      modifies this
      ensures Abs() == CancelMark(old(Abs())) && task == old(current) && sent == old(sent)
    {
      if status != Crashed {
        status := Halted;
      }
      task := current;
    }

    method Kill(task: TaskId)
      modifies this
      ensures Abs() == KillNow(old(Abs()), task).state
      ensures sent == old(sent) + KillNow(old(Abs()), task).events
    {
      closing := true;
      if current == Some(task) {
        FinishTask(task, Cancelled);
      }
    }

    /** stop_task's first critical section; `drained` goes on the wire as denials. */
    method BeginStop(task: TaskId, outcome: TaskOutcome) returns (drained: map<nat, PendingPermission>)
      modifies this
      ensures sent == old(sent)
      ensures old(current) != Some(task) ==> Abs() == old(Abs()) && drained == map[]
      ensures old(current) == Some(task) ==>
        && drained == old(pending)
        && forall order: seq<nat> :: Lists(order, drained) ==> Abs() == StopBegin(old(Abs()), outcome, order).state
    {
      if current != Some(task) {
        return map[];
      }
      ending := Some(outcome);
      drained := pending;
      pending := map[];
    }

    /** stop_task's last critical section. */
    method ForceStop(task: TaskId, outcome: TaskOutcome)
      modifies this
      ensures Abs() == StopForce(old(Abs()), task, outcome).state
      ensures sent == old(sent) + StopForce(old(Abs()), task, outcome).events
    {
      if current == Some(task) {
        skipResults := skipResults + 1;
        FinishTask(task, outcome);
      }
    }

    method ReaderExited(reason: string)
      modifies this
      ensures Abs() == ReaderExit(old(Abs()), reason).state
      ensures sent == old(sent) + ReaderExit(old(Abs()), reason).events
    {
      pending := map[];
      earlyExit := true;
      if closing {
        return;
      }
      if current.Some? {
        FinishTask(current.value, Failed(reason));
      }
      status := Crashed;
    }

    // ---- the interpreter

    method AssistantBlocks(task: TaskId, blocks: seq<Block>) returns (steps: seq<FrameStep>)
      modifies `tools
      ensures tools == ToolsOpened(old(tools), blocks)
      ensures |steps| == |AssistantEvents(task, blocks)|
      ensures forall i :: 0 <= i < |steps| ==> steps[i] == EventStep(AssistantEvents(task, blocks)[i])
    {
      steps := [];
      for k := 0 to |blocks|
        invariant tools == ToolsOpened(old(tools), blocks[..k])
        invariant |steps| == |AssistantEvents(task, blocks[..k])|
        invariant forall i :: 0 <= i < |steps| ==> steps[i] == EventStep(AssistantEvents(task, blocks[..k])[i])
      {
        assert blocks[..k + 1][..k] == blocks[..k];
        match blocks[k] {
          case TextBlock(text) =>
            if text != "" {
              steps := steps + [EventStep(MessageDelta(task, text))];
            }
          case ThinkingBlock(thinking) =>
            if !Blank(thinking) {
              steps := steps + [EventStep(Thinking(task, thinking))];
            }
          case ToolUseBlock(id, input, tool) =>
            tools := tools[id := tool];
            steps := steps + [EventStep(ToolCall(task, tool.name, input))];
          case _ =>
        }
      }
      assert blocks[..|blocks|] == blocks;
    }

    method UserBlocks(task: TaskId, blocks: seq<Block>) returns (steps: seq<FrameStep>)
      modifies `tools
      ensures tools == ToolsClosed(old(tools), blocks)
      ensures steps == BlockSteps(task, blocks, old(tools))
    {
      steps := [];
      for k := 0 to |blocks|
        invariant tools == ToolsClosed(old(tools), blocks[..k])
        invariant steps == BlockSteps(task, blocks[..k], old(tools))
      {
        assert blocks[..k + 1][..k] == blocks[..k];
        steps := steps + ResultSteps(task, blocks[k], tools);
        if blocks[k].ToolResultBlock? {
          tools := tools - {blocks[k].toolUseId};
        }
      }
      assert blocks[..|blocks|] == blocks;
    }

    /** The steps and the remembered tool uses a frame stands for. */
    ghost predicate Interprets(before: map<string, ToolUse>, task: TaskId, frame: Frame, steps: seq<FrameStep>)
      reads this
    {
      match frame
      case AssistantFrame(blocks) =>
        && tools == ToolsOpened(before, blocks)
        && |steps| == |AssistantEvents(task, blocks)|
        && forall i :: 0 <= i < |steps| ==> steps[i] == EventStep(AssistantEvents(task, blocks)[i])
      case UserFrame(blocks) => tools == ToolsClosed(before, blocks) && steps == BlockSteps(task, blocks, before)
      case ResultFrame(inputTokens, outputTokens, success, reason) =>
        tools == map[] && steps == [FinishedStep(inputTokens, outputTokens, success, reason)]
      case InitFrame(mode, credential) => tools == before && steps == [InitStep(mode, credential)]
      case ControlFrame(requestId, request) =>
        && tools == before
        && steps == [if request.CanUseTool? then PermissionStep(requestId, request)
                     else RejectStep(requestId, Named(request, ""))]
      case OtherFrame => tools == before && steps == []
    }

    /** interpret, on the frame as it was parsed. */
    method Interpret(task: TaskId, value: Json) returns (steps: seq<FrameStep>)
      modifies `tools
      ensures Interprets(old(tools), task, ClaudeFrames.Decode(reader, value), steps)
    {
      steps := InterpretFrame(task, ClaudeFrames.Decode(reader, value));
    }

    method InterpretFrame(task: TaskId, frame: Frame) returns (steps: seq<FrameStep>)
      modifies `tools
      ensures Interprets(old(tools), task, frame, steps)
    {
      match frame {
        case InitFrame(mode, credential) => steps := [InitStep(mode, credential)];
        case AssistantFrame(blocks) => steps := AssistantBlocks(task, blocks);
        case UserFrame(blocks) => steps := UserBlocks(task, blocks);
        case ControlFrame(requestId, request) =>
          if request.CanUseTool? {
            steps := [PermissionStep(requestId, request)];
          } else {
            steps := [RejectStep(requestId, Named(request, ""))];
          }
        case ResultFrame(inputTokens, outputTokens, success, reason) =>
          tools := map[];
          steps := [FinishedStep(inputTokens, outputTokens, success, reason)];
        case OtherFrame => steps := [];
      }
    }

    // ---- dispatch

    /** Event and artifact steps, carried out in order under the lock. */
    method SendSteps(task: TaskId, steps: seq<FrameStep>, disk: map<string, string>)
      requires Sending(steps)
      modifies `sent
      ensures sent == old(sent) + StepEvents(task, steps, disk)
    {
      for k := 0 to |steps|
        invariant sent == old(sent) + StepEvents(task, steps[..k], disk)
      {
        assert steps[..k + 1][..k] == steps[..k];
        match steps[k] {
          case EventStep(event) => sent := sent + [event];
          case ArtifactStep(target) =>
            if target in disk {
              sent := sent + [Artifact(task, target, disk[target])];
            }
          case _ =>
        }
      }
      assert steps[..|steps|] == steps;
    }

    method Raise(task: TaskId, requestId: string, request: ControlRequest, now: nat)
      requires request.CanUseTool?
      modifies this
      ensures Abs() == RaisePermission(old(Abs()), task, requestId, request, now).state
      ensures sent == old(sent) + RaisePermission(old(Abs()), task, requestId, request, now).events
    {
      var id := nextPermission;
      nextPermission := nextPermission + 1;
      if activeSince.Some? {
        if activeSince.value <= now {
          activeBefore := activeBefore + (now - activeSince.value);
        }
        activeSince := None;
      }
      pending := pending[id := PendingPermission(requestId, request.input)];
      sent := sent + [PermissionRequest(task, id, ActionOf(request.tool), request.detail)];
    }

    method Finished(task: TaskId, frame: Frame)
      requires frame.ResultFrame? && tools == map[]
      modifies this
      ensures Abs() == FinishByResult(old(Abs()), task, frame).state
      ensures sent == old(sent) + FinishByResult(old(Abs()), task, frame).events
    {
      sent := sent + [Usage(task, frame.inputTokens, frame.outputTokens)];
      FinishTask(task, if frame.success then Success else Failed(frame.reason));
    }

    /** dispatch: not `handled` when the frame has to go to dispatch_idle. */
    method DispatchFrame(value: Json, now: nat, disk: map<string, string>)
      returns (handled: bool, replies: seq<Reply>)
      modifies this
      ensures handled <==> old(current).Some? && old(skipResults) == 0
      ensures !handled ==> Abs() == old(Abs()) && sent == old(sent) && replies == []
      ensures handled ==>
        var frame := ClaudeFrames.Decode(reader, value);
        var e := Dispatch(old(Abs()), old(current).value, frame, now, expectedMode, disk);
        Abs() == e.state && sent == old(sent) + e.events && replies == e.replies
    {
      replies := [];
      if current.None? || skipResults != 0 {
        return false, [];
      }
      handled := true;
      var task := current.value;
      ghost var before := Abs();
      var frame := ClaudeFrames.Decode(reader, value);
      var steps := Interpret(task, value);
      hide ClaudeFrames.Decode;
      if frame.AssistantFrame? || frame.UserFrame? {
        if frame.UserFrame? {
          BlockStepEvents(task, frame.blocks, before.tools, disk);
        } else {
          PlainStepEvents(task, AssistantEvents(task, frame.blocks), steps, disk);
        }
        SendSteps(task, steps, disk);
      } else if steps != [] {
        match steps[0] {
          case InitStep(mode, credential) => sent := sent + InitWarnings(task, expectedMode, mode, credential);
          case PermissionStep(requestId, request) => Raise(task, requestId, request, now);
          case RejectStep(requestId, subtype) => replies := [Reply(requestId, Unsupported(subtype))];
          case FinishedStep(_, _, _, _) => Finished(task, frame);
          case _ =>
        }
      }
    }

    method DispatchIdleFrame(value: Json) returns (replies: seq<Reply>)
      modifies this
      ensures Abs() == DispatchIdle(old(Abs()), ClaudeFrames.Decode(reader, value)).state && sent == old(sent)
      ensures replies == DispatchIdle(old(Abs()), ClaudeFrames.Decode(reader, value)).replies
    {
      var frame := ClaudeFrames.Decode(reader, value);
      replies := [];
      match frame {
        case ResultFrame(_, _, _, _) =>
          if skipResults > 0 {
            skipResults := skipResults - 1;
          } else if current.None? {
            earlyExit := true;
          }
        case ControlFrame(requestId, request) =>
          replies := [Reply(requestId, if request.CanUseTool? then Denied(true)
                                       else Unsupported(Named(request, "unknown")))];
        case _ =>
      }
    }

    method RespondPermission(id: nat, decision: Decision, now: nat) returns (reply: Option<Reply>)
      modifies this
      ensures sent == old(sent)
      ensures id !in old(pending) ==> reply == None && Abs() == old(Abs())
      ensures id in old(pending) ==>
        var e := Respond(old(Abs()), id, decision, now);
        reply.Some? && e.replies == [reply.value] && Abs() == e.state
    {
      if id !in pending {
        return None;
      }
      var p := pending[id];
      pending := pending - {id};
      var turn := decision == Deny(Turn);
      if turn {
        ending := Some(Cancelled);
      }
      if pending == map[] && current.Some? {
        activeSince := Some(now);
      }
      reply := Some(Reply(p.requestId, if decision == Allow then Allowed(p.input) else Denied(turn)));
    }
  }
}
