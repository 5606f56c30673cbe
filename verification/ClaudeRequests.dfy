/**
What becomes of the harness's control requests
(crates/bastion-agent-runtime/src/claude_code.rs): each is shown to the owner
once or answered at once, each decision is carried out, and none is lost but by
the end of its task.
*/
module ClaudeRequests {
  import opened Events
  import opened ClaudeState
  import opened ClaudeSystem
  import opened ClaudeEffects
  import opened ClaudeLifecycle
  import opened ClaudePermissions
  import opened ClaudeOutcomes
  import ClaudeTheorems

  // ---- where a request can be

  ghost predicate InHand(r: ReaderPc, requestId: string) {
    (r.Holding? || r.Yielded?) && r.frame.ControlFrame? && r.frame.requestId == requestId
  }

  ghost predicate GivenId(s: Sys, requestId: string) {
    exists id :: id in s.issued && s.issued[id].requestId == requestId
  }

  /** Read, and now in the reader's hands, given an id, or answered. */
  ghost predicate Located(s: Sys, requestId: string) {
    InHand(s.reader, requestId) || GivenId(s, requestId) || Replied(s.replies, requestId)
  }

  /** Given an id, and now pending, answered, or overtaken by the end of its task or of the stream. */
  ghost predicate Settled(s: Sys, id: nat)
    requires id in s.issued
  {
    || id in s.st.pending || Replied(s.replies, s.issued[id].requestId)
    || EndedIn(s.trace, s.issued[id].task) || s.reader == ReaderDone
  }

  /** The decision on `id` was put on its way, as a reply to the request the id was given to. */
  ghost predicate CarriedOut(s: Sys, id: nat, d: Decision) {
    && id in s.issued && s.issued[id].request.CanUseTool?
    && exists i :: 0 <= i < |s.replies| && s.replies[i].cause == ByOwner(id)
         && s.replies[i].reply.requestId == s.issued[id].requestId
         && Carries(s.replies[i].reply.verdict, d, s.issued[id].request.input)
  }

  /** Event `e`, if it asks the owner, shows the request its id was given to. */
  ghost predicate Shows(s: Sys, e: Event) {
    e.PermissionRequest? ==>
      && e.id in s.issued && s.issued[e.id].request.CanUseTool? && e.task == s.issued[e.id].task
      && e.detail == s.issued[e.id].request.detail && IsAction(e.action, s.issued[e.id].request.tool)
  }

  /** The kind of action a tool's request is shown as. */
  ghost predicate IsAction(action: PermissionAction, tool: string) {
    match action
    case WriteFile => tool == "Write" || tool == "Edit" || tool == "MultiEdit" || tool == "NotebookEdit"
    case RunCommand =>
      tool == "Bash" || tool == "BashOutput" || tool == "KillShell" || tool == "KillBash" || tool == "PowerShell"
    case Network => tool == "WebFetch" || tool == "WebSearch"
    case UseTool =>
      tool !in {"Write", "Edit", "MultiEdit", "NotebookEdit", "Bash", "BashOutput", "KillShell", "KillBash",
                "PowerShell", "WebFetch", "WebSearch"}
    case Other(_) => false
  }

  ghost predicate Asking(e: Event, id: nat) {
    e.PermissionRequest? && e.id == id
  }

  ghost predicate RequestsOk(s: Sys) {
    && (forall r :: r in s.asked ==> Located(s, r))
    && (forall id :: id in s.issued ==> Settled(s, id))
    && (forall k :: 0 <= k < |s.decided| ==> CarriedOut(s, s.decided[k].0, s.decided[k].1))
  }

  ghost predicate ShownOk(s: Sys) {
    && (forall i :: 0 <= i < |s.trace| ==> Shows(s, s.trace[i]))
    && (forall i, j :: 0 <= i < j < |s.trace| && s.trace[i].PermissionRequest? ==> !Asking(s.trace[j], s.trace[i].id))
    && (forall id :: id in s.issued ==> exists i :: 0 <= i < |s.trace| && Asking(s.trace[i], id))
  }

  // ---- nothing said or given out is taken back

  ghost predicate Grows(s: Sys, s': Sys) {
    && s.trace <= s'.trace && s.replies <= s'.replies
    && (forall id :: id in s.issued ==> id in s'.issued && s'.issued[id] == s.issued[id])
  }

  lemma GrowsStep(s: Sys, step: Step)
    requires PermissionsOk(s) && Apply(s, step).Some?
    ensures Grows(s, Apply(s, step).value)
  {
    hide PermissionsOk;
    ClaudeTheorems.IssueStep(s, step);
    StepEffect(s, step);
    hide Apply, EffectOf;
  }

  /** What a step does to the reader, the requests asked and the decisions taken. */
  lemma Bookkeeping(s: Sys, step: Step)
    requires Apply(s, step).Some?
    ensures var s' := Apply(s, step).value;
      && (s.reader == ReaderDone ==> s'.reader == ReaderDone)
      && (!step.ReaderDispatch? && !step.ReaderIdle? && (s.reader.Holding? || s.reader.Yielded?) ==>
            s'.reader == s.reader)
      && (forall r :: r in s'.asked && r !in s.asked ==> InHand(s'.reader, r))
      && s'.decided ==
           s.decided + if step.RespondPermission? && step.id in s.st.pending then [(step.id, step.decision)] else []
  {
    hide Dispatch, Lists, Finish, Submit, Respond, KillNow, StopForce, ReaderExit, DispatchIdle, StopBegin;
  }

  lemma RepliedGrows(s: Sys, s': Sys, r: string)
    requires Grows(s, s') && Replied(s.replies, r)
    ensures Replied(s'.replies, r)
  {
  }

  lemma EndedGrows(s: Sys, s': Sys, t: TaskId)
    requires Grows(s, s') && EndedIn(s.trace, t)
    ensures EndedIn(s'.trace, t)
  {
    var i :| 0 <= i < |s.trace| && s.trace[i].Ended? && s.trace[i].task == t;
    assert s'.trace[i] == s.trace[i];
  }

  // ---- a request read is given an id or answered

  lemma LocatedKeeps(s: Sys, s': Sys, r: string)
    requires Grows(s, s') && Located(s, r) && (InHand(s.reader, r) ==> InHand(s'.reader, r))
    ensures Located(s', r)
  {
    if Replied(s.replies, r) {
      RepliedGrows(s, s', r);
    }
  }

  /** The reader lets go of a request only when it has an id or an answer. */
  lemma LocatedStep(s: Sys, step: Step, r: string)
    requires Apply(s, step).Some? && Grows(s, Apply(s, step).value) && Located(s, r)
    ensures Located(Apply(s, step).value, r)
  {
    hide Located;
    var s' := Apply(s, step).value;
    if InHand(s.reader, r) && step.ReaderDispatch? {
      DispatchLocates(s, step.disk, r);
    } else if InHand(s.reader, r) && step.ReaderIdle? {
      IdleLocates(s, r);
    } else {
      if InHand(s.reader, r) {
        Bookkeeping(s, step);
      }
      LocatedKeeps(s, s', r);
    }
  }

  lemma DispatchLocates(s: Sys, disk: map<string, string>, r: string)
    requires ReaderDispatchStep(s, disk).Some? && InHand(s.reader, r)
    ensures Located(ReaderDispatchStep(s, disk).value, r)
  {
    hide Dispatch, Replied;
    var s' := ReaderDispatchStep(s, disk).value;
    if s.st.current.Some? && s.st.skipResults == 0 {
      var t, f := s.st.current.value, s.reader.frame;
      DispatchPending(s.st, t, f, s.now, s.cfg.mode, disk);
      if f.request.CanUseTool? {
        assert s'.issued[s.st.nextPermission].requestId == r;
      } else {
        LastReplied(s'.replies, s.replies, r);
      }
    }
  }

  lemma LastReplied(replies: seq<Queued>, before: seq<Queued>, r: string)
    requires |replies| == |before| + 1 && replies[|before|].reply.requestId == r
    ensures Replied(replies, r)
  {
  }

  lemma IdleLocates(s: Sys, r: string)
    requires ReaderIdleStep(s).Some? && InHand(s.reader, r)
    ensures Located(ReaderIdleStep(s).value, r)
  {
    hide Replied;
    LastReplied(ReaderIdleStep(s).value.replies, s.replies, r);
  }

  // ---- a request given an id is answered, or its task ends

  lemma SettledKeeps(s: Sys, s': Sys, id: nat)
    requires Grows(s, s') && id in s.issued && Settled(s, id)
    requires id in s.st.pending ==> id in s'.st.pending
    requires s.reader == ReaderDone ==> s'.reader == ReaderDone
    ensures Settled(s', id)
  {
    if Replied(s.replies, s.issued[id].requestId) {
      RepliedGrows(s, s', s.issued[id].requestId);
    }
    if EndedIn(s.trace, s.issued[id].task) {
      EndedGrows(s, s', s.issued[id].task);
    }
  }

  /** The section `e` ended the current task. */
  lemma EndSettles(s: Sys, s': Sys, e: Effect, id: nat)
    requires PendingOk(s) && id in s.st.pending && s.st.current.Some?
    requires s'.trace == s.trace + e.events && Grows(s, s')
    requires e.events != [] && e.events[|e.events| - 1].Ended?
      && e.events[|e.events| - 1].task == s.st.current.value
    ensures Settled(s', id)
  {
    assert s'.trace[|s'.trace| - 1] == e.events[|e.events| - 1];
    assert EndedIn(s'.trace, s.issued[id].task);
  }

  /** A pending request is dropped only with an answer, or by the end of its task or of the stream. */
  lemma DroppedSettles(s: Sys, step: Step, id: nat)
    requires PermissionsOk(s) && Apply(s, step).Some? && Grows(s, Apply(s, step).value)
    requires id in s.st.pending && id !in Apply(s, step).value.st.pending
    ensures id in Apply(s, step).value.issued && Settled(Apply(s, step).value, id)
  {
    hide IssuedOk, HeldOk, RepliesOk, DecidedOk, WireOk, PendingOk, Settled, Dispatch, Lists, Finish, Grows;
    IssuedStays(s, Apply(s, step).value, id);
    if step.CancelStop? || step.WatchStop? {
      StopDrops(s, step, id);
    } else if step.CancelKill? || step.CancelForce? || step.WatchForce? {
      FinishDrops(s, step, id);
    } else if step.ReaderDispatch? {
      DispatchSettles(s, step.disk, id);
    } else if step.RespondPermission? {
      RespondSettles(s, id, step.decision);
    } else {
      OnlyStopDrops(s, step, id);
      DoneSettles(Apply(s, step).value, id);
    }
  }

  lemma OnlyStopDrops(s: Sys, step: Step, id: nat)
    requires Apply(s, step).Some? && id in s.st.pending && id !in Apply(s, step).value.st.pending
    requires !step.CancelStop? && !step.WatchStop? && !step.CancelKill? && !step.CancelForce? && !step.WatchForce?
    requires !step.ReaderDispatch? && !step.RespondPermission?
    ensures step.ReaderStop? && Apply(s, step).value.reader == ReaderDone
  {
    hide Dispatch, Finish;
  }

  lemma IssuedStays(s: Sys, s': Sys, id: nat)
    requires PendingOk(s) && Grows(s, s') && id in s.st.pending
    ensures id in s'.issued
  {
  }

  lemma StopDrops(s: Sys, step: Step, id: nat)
    requires PendingOk(s) && (step.CancelStop? || step.WatchStop?) && Apply(s, step).Some?
    requires id in s.st.pending && id !in Apply(s, step).value.st.pending
    ensures Settled(Apply(s, step).value, id)
  {
    hide PendingOk, Settled, Lists, Replied;
    match step
    case CancelStop(order) => StopSettles(s, s.caller.task, Cancelled, order, Apply(s, step).value, id);
    case WatchStop(t, order) => StopSettles(s, t, TimedOut, order, Apply(s, step).value, id);
  }

  lemma FinishDrops(s: Sys, step: Step, id: nat)
    requires PendingOk(s) && (step.CancelKill? || step.CancelForce? || step.WatchForce?) && Apply(s, step).Some?
    requires id in s.st.pending && id !in Apply(s, step).value.st.pending && Grows(s, Apply(s, step).value)
    ensures Settled(Apply(s, step).value, id)
  {
    hide PendingOk, Settled, Grows;
    match step
    case CancelKill => FinishSettles(s, KillNow(s.st, s.caller.task), Apply(s, step).value, id);
    case CancelForce => FinishSettles(s, StopForce(s.st, s.caller.task, Cancelled), Apply(s, step).value, id);
    case WatchForce(t) => FinishSettles(s, StopForce(s.st, t, TimedOut), Apply(s, step).value, id);
  }

  lemma DoneSettles(s: Sys, id: nat)
    requires id in s.issued && s.reader == ReaderDone
    ensures Settled(s, id)
  {
  }

  lemma RespondSettles(s: Sys, id: nat, decision: Decision)
    requires PendingOk(s) && id in s.st.pending && RespondStep(s, id, decision).Some?
    ensures Settled(RespondStep(s, id, decision).value, id)
  {
    hide Replied;
    LastReplied(RespondStep(s, id, decision).value.replies, s.replies, s.issued[id].requestId);
  }

  lemma StopSettles(s: Sys, t: TaskId, outcome: TaskOutcome, order: seq<nat>, s': Sys, id: nat)
    requires PendingOk(s) && id in s.st.pending && CanStop(s, t, order) && s.st.current == Some(t)
    requires s'.replies == StopBeginStep(s, t, outcome, order).replies && s'.issued == s.issued
    ensures Settled(s', id)
  {
    var k :| 0 <= k < |order| && order[k] == id;
    assert s'.replies[|s.replies| + k].reply == Denials(order, s.st.pending)[k];
  }

  lemma FinishSettles(s: Sys, e: Effect, s': Sys, id: nat)
    requires PendingOk(s) && id in s.st.pending && s.st.current.Some? && Grows(s, s')
    requires |e.events| == 1 && e.events[0].Ended? && e.events[0].task == s.st.current.value
    requires s'.trace == s.trace + e.events
    ensures Settled(s', id)
  {
    EndSettles(s, s', e, id);
  }

  lemma DispatchSettles(s: Sys, disk: map<string, string>, id: nat)
    requires PendingOk(s) && ReaderDispatchStep(s, disk).Some?
    requires Grows(s, ReaderDispatchStep(s, disk).value)
    requires id in s.st.pending && id !in ReaderDispatchStep(s, disk).value.st.pending
    ensures Settled(ReaderDispatchStep(s, disk).value, id)
  {
    hide Dispatch, PendingOk, Settled, Grows;
    var t, f := s.st.current.value, s.reader.frame;
    var e := Dispatch(s.st, t, f, s.now, s.cfg.mode, disk);
    DispatchPending(s.st, t, f, s.now, s.cfg.mode, disk);
    DispatchShape(s.st, t, f, s.now, s.cfg.mode, disk);
    if f.ResultFrame? {
      EndSettles(s, ReaderDispatchStep(s, disk).value, e, id);
    } else {
      DispatchDrops(s.st, t, f, s.now, s.cfg.mode, disk);
    }
  }

  lemma DispatchDrops(s: State, t: TaskId, f: Frame, now: nat, mode: string, disk: map<string, string>)
    requires !f.ResultFrame?
    ensures s.pending.Keys <= Dispatch(s, t, f, now, mode, disk).state.pending.Keys
  {
    hide AssistantEvents, ResultEvents, InitWarnings, ToolsOpened, ToolsClosed;
  }

  lemma SettledStep(s: Sys, step: Step, id: nat)
    requires PermissionsOk(s) && Apply(s, step).Some? && Grows(s, Apply(s, step).value)
    requires id in Apply(s, step).value.issued && (id in s.issued ==> Settled(s, id))
    ensures Settled(Apply(s, step).value, id)
  {
    hide PermissionsOk, Apply, Settled;
    var s' := Apply(s, step).value;
    if id !in s.issued {
      NewIdPending(s, step, id);
    } else if id in s.st.pending && id !in s'.st.pending {
      DroppedSettles(s, step, id);
    } else {
      if s.reader == ReaderDone {
        Bookkeeping(s, step);
      }
      SettledKeeps(s, s', id);
    }
  }

  lemma NewIdPending(s: Sys, step: Step, id: nat)
    requires Apply(s, step).Some? && id in Apply(s, step).value.issued && id !in s.issued
    ensures Settled(Apply(s, step).value, id)
  {
    hide Lists, Finish, Submit, Respond, KillNow, StopForce, ReaderExit, DispatchIdle, Dispatch, Replied, EndedIn;
    if step.ReaderDispatch? && s.st.current.Some? && s.st.skipResults == 0 {
      var t, f := s.st.current.value, s.reader.frame;
      DispatchPending(s.st, t, f, s.now, s.cfg.mode, step.disk);
    }
  }

  // ---- every decision is carried out

  lemma CarriedKeeps(s: Sys, s': Sys, id: nat, d: Decision)
    requires Grows(s, s') && CarriedOut(s, id, d)
    ensures CarriedOut(s', id, d)
  {
    var i :| 0 <= i < |s.replies| && s.replies[i].cause == ByOwner(id)
      && s.replies[i].reply.requestId == s.issued[id].requestId
      && Carries(s.replies[i].reply.verdict, d, s.issued[id].request.input);
    assert s'.replies[i] == s.replies[i];
  }

  lemma RespondCarries(s: Sys, id: nat, d: Decision)
    requires PendingOk(s) && RespondStep(s, id, d).Some? && id in s.st.pending
    ensures CarriedOut(RespondStep(s, id, d).value, id, d)
  {
    var s' := RespondStep(s, id, d).value;
    assert s'.replies[|s.replies|].cause == ByOwner(id);
  }

  lemma CarriedStep(s: Sys, step: Step)
    requires PermissionsOk(s) && Apply(s, step).Some? && Grows(s, Apply(s, step).value)
    requires forall k :: 0 <= k < |s.decided| ==> CarriedOut(s, s.decided[k].0, s.decided[k].1)
    ensures var s' := Apply(s, step).value;
      forall k :: 0 <= k < |s'.decided| ==> CarriedOut(s', s'.decided[k].0, s'.decided[k].1)
  {
    hide CarriedOut, Grows;
    var s' := Apply(s, step).value;
    Bookkeeping(s, step);
    if step.RespondPermission? && step.id in s.st.pending {
      RespondCarries(s, step.id, step.decision);
    }
    hide Apply, PermissionsOk;
    forall k | 0 <= k < |s.decided|
      ensures CarriedOut(s', s.decided[k].0, s.decided[k].1)
    {
      CarriedKeeps(s, s', s.decided[k].0, s.decided[k].1);
    }
  }

  lemma RequestsStep(s: Sys, step: Step)
    requires PermissionsOk(s) && RequestsOk(s) && Apply(s, step).Some?
    ensures RequestsOk(Apply(s, step).value)
  {
    hide PermissionsOk, Apply, Located, Settled, CarriedOut, Grows;
    var s' := Apply(s, step).value;
    GrowsStep(s, step);
    CarriedStep(s, step);
    forall r | r in s'.asked
      ensures Located(s', r)
    {
      if r in s.asked {
        LocatedStep(s, step, r);
      } else {
        Bookkeeping(s, step);
        InHandLocated(s', r);
      }
    }
    forall id | id in s'.issued
      ensures Settled(s', id)
    {
      SettledStep(s, step, id);
    }
  }

  lemma InHandLocated(s: Sys, r: string)
    requires InHand(s.reader, r)
    ensures Located(s, r)
  {
  }

  // ---- what the owner is asked

  ghost predicate NoRequest(events: seq<Event>) {
    forall i :: 0 <= i < |events| ==> !events[i].PermissionRequest?
  }

  lemma {:induction false} AssistantAsksNothing(t: TaskId, blocks: seq<Block>)
    ensures NoRequest(AssistantEvents(t, blocks))
  {
    if blocks != [] {
      AssistantAsksNothing(t, blocks[..|blocks| - 1]);
    }
  }

  lemma {:induction false} ResultsAskNothing(t: TaskId, blocks: seq<Block>, tools: map<string, ToolUse>,
                                             disk: map<string, string>)
    ensures NoRequest(ResultEvents(t, blocks, tools, disk))
  {
    if blocks != [] {
      hide ResultEvent, ToolsClosed;
      var n := |blocks| - 1;
      ResultsAskNothing(t, blocks[..n], tools, disk);
      OneResultAsksNothing(t, blocks[n], ToolsClosed(tools, blocks[..n]), disk);
    }
  }

  lemma OneResultAsksNothing(t: TaskId, b: Block, tools: map<string, ToolUse>, disk: map<string, string>)
    ensures NoRequest(ResultEvent(t, b, tools, disk))
  {
  }

  lemma DispatchAsks(s: State, t: TaskId, f: Frame, now: nat, mode: string, disk: map<string, string>)
    requires !(f.ControlFrame? && f.request.CanUseTool?)
    ensures NoRequest(Dispatch(s, t, f, now, mode, disk).events)
  {
    hide AssistantEvents, ResultEvents, ToolsOpened, ToolsClosed;
    match f
    case AssistantFrame(blocks) => AssistantAsksNothing(t, blocks);
    case UserFrame(blocks) => ResultsAskNothing(t, blocks, s.tools, disk);
    case _ =>
  }

  lemma SilentStep(s: Sys, step: Step)
    requires Apply(s, step).Some? && !Asks(s, step)
    ensures var s' := Apply(s, step).value;
      s'.issued == s.issued && s.trace <= s'.trace && NoRequest(s'.trace[|s.trace|..])
  {
    StepEffect(s, step);
    SilentEffect(s, step);
    SameIds(s, step);
    hide Apply, EffectOf, NoRequest, Asks;
    var events := EffectOf(s, step).events;
    assert (s.trace + events)[|s.trace|..] == events;
  }

  lemma SilentEffect(s: Sys, step: Step)
    requires Apply(s, step).Some? && !Asks(s, step)
    ensures NoRequest(EffectOf(s, step).events)
  {
    hide Dispatch;
    if step.ReaderDispatch? && s.st.current.Some? && s.st.skipResults == 0 {
      DispatchAsks(s.st, s.st.current.value, s.reader.frame, s.now, s.cfg.mode, step.disk);
    }
  }

  lemma ShownKeeps(s: Sys, s': Sys)
    requires ShownOk(s) && s'.issued == s.issued && s.trace <= s'.trace && NoRequest(s'.trace[|s.trace|..])
    ensures ShownOk(s')
  {
    var more := s'.trace[|s.trace|..];
    assert forall i :: |s.trace| <= i < |s'.trace| ==> s'.trace[i] == more[i - |s.trace|];
    forall id | id in s'.issued
      ensures exists i :: 0 <= i < |s'.trace| && Asking(s'.trace[i], id)
    {
      var i :| 0 <= i < |s.trace| && Asking(s.trace[i], id);
      assert Asking(s'.trace[i], id);
    }
  }

  lemma ActionShown(tool: string)
    ensures IsAction(ActionOf(tool), tool)
  {
  }

  lemma AskSends(s: Sys, step: Step, e: Event)
    requires Asks(s, step)
    requires e == PermissionRequest(s.st.current.value, s.st.nextPermission, ActionOf(s.reader.frame.request.tool),
                                    s.reader.frame.request.detail)
    ensures var s' := Apply(s, step).value;
      && s'.trace == s.trace + [e]
      && s'.issued == s.issued[s.st.nextPermission :=
           Issue(s.reader.frame.requestId, s.st.current.value, s.reader.frame.request)]
  {
  }

  lemma ShownAsk(s: Sys, step: Step)
    requires IssuedOk(s) && ShownOk(s) && Asks(s, step)
    ensures ShownOk(Apply(s, step).value)
  {
    hide ShownOk, IssuedOk, IsAction;
    var f := s.reader.frame;
    var e := PermissionRequest(s.st.current.value, s.st.nextPermission, ActionOf(f.request.tool), f.request.detail);
    AskSends(s, step, e);
    ActionShown(f.request.tool);
    AskShown(s, Apply(s, step).value, e, Issue(f.requestId, s.st.current.value, f.request));
  }

  /** `e` shows the request its id is new for. */
  lemma AskShown(s: Sys, s': Sys, e: Event, issue: Issue)
    requires IssuedOk(s) && ShownOk(s) && e.PermissionRequest? && e.id == s.st.nextPermission
    requires s'.trace == s.trace + [e] && s'.issued == s.issued[e.id := issue] && Shows(s', e)
    ensures ShownOk(s')
  {
    hide Shows;
    assert s'.trace[|s.trace|] == e;
    AskShows(s, s', e);
    forall id | id in s'.issued
      ensures exists i :: 0 <= i < |s'.trace| && Asking(s'.trace[i], id)
    {
      AskCovers(s, s', e, id);
    }
  }

  lemma AskCovers(s: Sys, s': Sys, e: Event, id: nat)
    requires ShownOk(s) && e.PermissionRequest? && s'.trace == s.trace + [e] && (id in s.issued || id == e.id)
    ensures exists i :: 0 <= i < |s'.trace| && Asking(s'.trace[i], id)
  {
    hide Shows;
    if id == e.id {
      assert Asking(s'.trace[|s.trace|], id);
    } else {
      var i :| 0 <= i < |s.trace| && Asking(s.trace[i], id);
      assert Asking(s'.trace[i], id);
    }
  }

  lemma AskShows(s: Sys, s': Sys, e: Event)
    requires IssuedOk(s) && e.PermissionRequest? && e.id == s.st.nextPermission
    requires forall i :: 0 <= i < |s.trace| ==> Shows(s, s.trace[i])
    requires s'.issued.Keys == s.issued.Keys + {e.id} && forall id :: id in s.issued ==> s'.issued[id] == s.issued[id]
    ensures forall i :: 0 <= i < |s.trace| ==> Shows(s', s.trace[i])
    ensures forall i :: 0 <= i < |s.trace| ==> !Asking(s.trace[i], e.id)
  {
    hide IsAction;
    forall i | 0 <= i < |s.trace|
      ensures Shows(s', s.trace[i]) && !Asking(s.trace[i], e.id)
    {
      assert Shows(s, s.trace[i]);
    }
  }

  // ---- the status

  /** The status says whether a task is running, unless a cancel marked it. */
  ghost predicate StatusOk(st: State) {
    match st.status
    case Running => st.current.Some?
    case Idle => st.current.None?
    case Crashed => st.current.None?
    case Halted => true
  }

  lemma StatusStep(s: Sys, step: Step)
    requires StatusOk(s.st) && Apply(s, step).Some?
    ensures StatusOk(Apply(s, step).value.st)
  {
    StepEffect(s, step);
    EffectTells(s, step);
    hide Apply, EffectOf, StatusOk;
  }

  lemma EffectTells(s: Sys, step: Step)
    requires StatusOk(s.st) && Apply(s, step).Some?
    ensures StatusOk(EffectOf(s, step).state)
  {
    hide Dispatch;
    if step.ReaderDispatch? && s.st.current.Some? && s.st.skipResults == 0 {
      DispatchTells(s.st, s.st.current.value, s.reader.frame, s.now, s.cfg.mode, step.disk);
    }
  }

  lemma DispatchTells(st: State, t: TaskId, f: Frame, now: nat, mode: string, disk: map<string, string>)
    requires StatusOk(st)
    ensures StatusOk(Dispatch(st, t, f, now, mode, disk).state)
  {
    hide AssistantEvents, ResultEvents, ToolsOpened, ToolsClosed, InitWarnings;
  }

  // ---- every run

  lemma InitRequests(cfg: Config)
    ensures RequestsOk(Init(cfg)) && ShownOk(Init(cfg)) && StatusOk(Init(cfg).st)
  {
  }

  /** All of it holds after every run. */
  lemma {:induction false} RequestsSafe(cfg: Config, steps: seq<Step>)
    requires Run(Init(cfg), steps).Some?
    ensures var s := Run(Init(cfg), steps).value;
      RequestsOk(s) && ShownOk(s) && StatusOk(s.st)
  {
    hide Init, Apply, RequestsOk, ShownOk, StatusOk;
    if steps == [] {
      InitRequests(cfg);
    } else {
      var n := |steps| - 1;
      var before := Run(Init(cfg), steps[..n]).value;
      RequestsSafe(cfg, steps[..n]);
      ClaudeTheorems.Safety(cfg, steps[..n]);
      PermissionsHold(before);
      RequestsStep(before, steps[n]);
      StatusStep(before, steps[n]);
      ShownStep(before, steps[n]);
    }
  }

  lemma PermissionsHold(s: Sys)
    requires ClaudeTheorems.Inv(s)
    ensures PermissionsOk(s)
  {
  }

  lemma ShownStep(s: Sys, step: Step)
    requires PermissionsOk(s) && ShownOk(s) && Apply(s, step).Some?
    ensures ShownOk(Apply(s, step).value)
  {
    hide ShownOk, Apply, PendingOk, RepliesOk, IssuedOk;
    if Asks(s, step) {
      ShownAsk(s, step);
    } else {
      SilentStep(s, step);
      ShownKeeps(s, Apply(s, step).value);
    }
  }

  /**
  No request is lost: a control request the reader has taken is still in its
  hands, was answered, or has an id; and what has an id is pending, was
  answered, or lost its asker: its task has ended or the stream has.
  */
  lemma NoRequestLost(cfg: Config, steps: seq<Step>, s: Sys, r: string)
    requires Run(Init(cfg), steps) == Some(s) && r in s.asked
    ensures InHand(s.reader, r) || Replied(s.replies, r) || exists id :: id in s.issued && s.issued[id].requestId == r
    ensures forall id :: id in s.issued && s.issued[id].requestId == r ==>
      id in s.st.pending || Replied(s.replies, r) || EndedIn(s.trace, s.issued[id].task) || s.reader == ReaderDone
  {
    hide Run, Init;
    RequestsSafe(cfg, steps);
    assert Located(s, r);
  }

  /** Every decision that was taken on a request is on its way to it, as it was taken. */
  lemma DecisionsCarriedOut(cfg: Config, steps: seq<Step>, s: Sys, id: nat, d: Decision)
    requires Run(Init(cfg), steps) == Some(s) && (id, d) in s.decided
    ensures id in s.issued && s.issued[id].request.CanUseTool?
    ensures exists i ::
      && 0 <= i < |s.replies| && s.replies[i].reply.requestId == s.issued[id].requestId
      && Carries(s.replies[i].reply.verdict, d, s.issued[id].request.input)
  {
    hide Run, Init;
    RequestsSafe(cfg, steps);
    var k :| 0 <= k < |s.decided| && s.decided[k] == (id, d);
    assert CarriedOut(s, s.decided[k].0, s.decided[k].1);
  }

  /**
  The owner is asked about every request given an id exactly once, with the
  kind of action and the detail of that request.
  */
  lemma AskedOnce(cfg: Config, steps: seq<Step>, s: Sys, id: nat)
    requires Run(Init(cfg), steps) == Some(s) && id in s.issued
    ensures exists i ::
      && 0 <= i < |s.trace| && Asking(s.trace[i], id) && Shows(s, s.trace[i])
      && forall j :: 0 <= j < |s.trace| && Asking(s.trace[j], id) ==> j == i
  {
    hide Run, Init;
    RequestsSafe(cfg, steps);
    var i :| 0 <= i < |s.trace| && Asking(s.trace[i], id);
    forall j | 0 <= j < |s.trace| && Asking(s.trace[j], id)
      ensures j == i
    {
      assert s.trace[i].id == id && s.trace[j].id == id;
    }
  }

  /** After every run the status tells a running session from an idle or crashed one. */
  lemma StatusTells(cfg: Config, steps: seq<Step>, s: Sys)
    requires Run(Init(cfg), steps) == Some(s)
    ensures s.st.status == Running ==> s.st.current.Some?
    ensures s.st.current.Some? ==> s.st.status == Running || s.st.status == Halted
  {
    hide Run, Init;
    RequestsSafe(cfg, steps);
  }
}
