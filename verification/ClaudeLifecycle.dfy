/**
Terminal discipline of the Claude adapter, over every run: the trace passes
the conformance checker, a submitted task is current or has its one `Ended`,
and a crashed or closing session never runs a task again.
*/
module ClaudeLifecycle {
  import opened Events
  import opened ClaudeState
  import opened ClaudeSystem

  ghost predicate Live(s: Sys) {
    !s.st.closing && s.st.status != Crashed
  }

  ghost predicate EndsTask(events: seq<Event>) {
    events != [] && events[|events| - 1].Ended?
  }

  ghost predicate TasksBelow(trace: seq<Event>, n: TaskId) {
    forall i :: 0 <= i < |trace| && EventTask(trace[i]).Some? ==> EventTask(trace[i]).value < n
  }

  ghost predicate CurrentOrEnded(s: Sys, t: TaskId) {
    s.st.current == Some(t) || EndedIn(s.trace, t)
  }

  ghost predicate CallerOk(s: Sys) {
    match s.caller
    case Ready => s.st.current.Some? ==> s.st.current.value in s.accepted
    case Writing(t) =>
      && t < s.nextTask && t !in s.accepted && CurrentOrEnded(s, t)
      && (Live(s) ==> s.st.current == Some(t))
    case Written(t) => t < s.nextTask && t !in s.accepted && CurrentOrEnded(s, t)
    case Cancelling(t, _) => t in s.accepted
    case CallerStopping(t) => t in s.accepted
  }

  ghost predicate Lifecycle(s: Sys) {
    && |s.stamps| == |s.trace|
    && NoPostTerminal(s.trace)
    && TasksBelow(s.trace, s.nextTask)
    && (s.st.current.Some? ==>
          s.st.current.value < s.nextTask && !EndedIn(s.trace, s.st.current.value) && Live(s))
    && (s.caller != Ready && s.st.current.Some? ==> s.st.current == Some(s.caller.task))
    && CallerOk(s)
    && s.watch.Keys == s.accepted
    && (forall t :: t in s.accepted ==> t < s.nextTask && CurrentOrEnded(s, t))
  }

  /** What sending one burst of the running task does to the trace. */
  lemma Emit(trace: seq<Event>, events: seq<Event>, t: TaskId, n: TaskId)
    requires NoPostTerminal(trace) && TasksBelow(trace, n)
    requires Burst(events, t) && t < n && !EndedIn(trace, t)
    ensures NoPostTerminal(trace + events) && TasksBelow(trace + events, n)
    ensures forall x :: EndedIn(trace + events, x) <==> EndedIn(trace, x) || (x == t && EndsTask(events))
  {
    AppendBurst(trace, events, t);
    forall x
      ensures EndedIn(trace + events, x) <==> EndedIn(trace, x) || (x == t && EndsTask(events))
    {
      EndedInAppend(trace, events, x);
      if EndsTask(events) {
        assert EndedIn(events, t);
      }
    }
    forall i | 0 <= i < |trace + events| && EventTask((trace + events)[i]).Some?
      ensures EventTask((trace + events)[i]).value < n
    {
      if i >= |trace| {
        assert (trace + events)[i] == events[i - |trace|];
      }
    }
  }

  /**
  A critical section that sends one burst of the current task, and clears
  `current` exactly when the burst ends with `Ended`, keeps the discipline.
  */
  lemma CommitKeeps(s: Sys, e: Effect, stamp: Stamp, cause: Cause)
    requires Lifecycle(s) && s.st.current.Some?
    requires Burst(e.events, s.st.current.value)
    requires e.state.current == if EndsTask(e.events) then None else s.st.current
    requires EndsTask(e.events) || (e.state.closing == s.st.closing && e.state.status == s.st.status)
    requires EndsTask(e.events) && s.caller.Writing? ==> e.state.closing || e.state.status == Crashed
    ensures Lifecycle(Commit(s, e, stamp, cause))
  {
    Emit(s.trace, e.events, s.st.current.value, s.nextTask);
  }

  /** A critical section that sends nothing and leaves `current` alone. */
  lemma SilentKeeps(s: Sys, e: Effect, stamp: Stamp, cause: Cause)
    requires Lifecycle(s)
    requires e.events == [] && e.state.current == s.st.current
    requires e.state.closing == s.st.closing && (e.state.status == Crashed <==> s.st.status == Crashed)
    ensures Lifecycle(Commit(s, e, stamp, cause))
  {
    assert s.trace + [] == s.trace;
  }

  lemma SubmitKeeps(s: Sys, hint: bool)
    requires Lifecycle(s) && SubmitStep(s, hint).Some?
    ensures Lifecycle(SubmitStep(s, hint).value)
  {
    var gate := Submit(s.st, s.nextTask, s.now, hint);
    if gate.Admitted? {
      var t := s.nextTask;
      assert !EndedIn(s.trace, t);
      Emit(s.trace, gate.effect.events, t, t + 1);
    }
  }

  lemma ReaderExitKeeps(s: Sys, reason: string)
    requires Lifecycle(s)
    ensures Lifecycle(Commit(s, ReaderExit(s.st, reason), Own(s), ByAdapter))
  {
    var e := ReaderExit(s.st, reason);
    if s.st.current.Some? {
      CommitKeeps(s, e, Own(s), ByAdapter);
    } else {
      assert s.trace + [] == s.trace;
    }
  }

  lemma KillKeeps(s: Sys)
    requires Lifecycle(s) && s.caller.Cancelling?
    ensures Lifecycle(Commit(s, KillNow(s.st, s.caller.task), Own(s), ByAdapter).(caller := Ready))
  {
    var e := KillNow(s.st, s.caller.task);
    if s.st.current.Some? {
      CommitKeeps(s, e, Own(s), ByAdapter);
    } else {
      assert s.trace + [] == s.trace;
    }
  }

  lemma StopBeginKeeps(s: Sys, t: TaskId, outcome: TaskOutcome, order: seq<nat>)
    requires Lifecycle(s) && CanStop(s, t, order)
    ensures Lifecycle(StopBeginStep(s, t, outcome, order))
  {
    if s.st.current == Some(t) {
      SilentKeeps(s, StopBegin(s.st, outcome, order), Own(s), ByAdapter);
    }
  }

  lemma StopForceKeeps(s: Sys, t: TaskId, outcome: TaskOutcome)
    requires Lifecycle(s) && t in s.accepted
    ensures Lifecycle(StopForceStep(s, t, outcome))
  {
    if s.st.current == Some(t) {
      CommitKeeps(s, StopForce(s.st, t, outcome), Own(s), ByAdapter);
    } else {
      SilentKeeps(s, StopForce(s.st, t, outcome), Own(s), ByAdapter);
    }
  }

  /**
  The one step that needs the result queue: a `result` handled as the current
  task's own while submit is still about to write that task's user frame.
  */
  ghost predicate NoPrematureResult(s: Sys) {
    s.reader.Holding? && s.reader.frame.ResultFrame? && s.st.current.Some? && s.st.skipResults == 0 ==>
      !s.caller.Writing?
  }

  /** Dispatch closes nothing, and changes the status only by ending the task. */
  lemma DispatchStatus(s: State, t: TaskId, f: Frame, now: nat, mode: string, disk: map<string, string>)
    ensures var e := Dispatch(s, t, f, now, mode, disk);
      e.state.closing == s.closing && (!f.ResultFrame? ==> e.state.status == s.status)
  {
    hide AssistantEvents, ResultEvents, InitWarnings;
  }

  lemma DispatchKeeps(s: Sys, disk: map<string, string>)
    requires Lifecycle(s) && NoPrematureResult(s) && ReaderDispatchStep(s, disk).Some?
    ensures Lifecycle(ReaderDispatchStep(s, disk).value)
  {
    if s.st.current.Some? && s.st.skipResults == 0 {
      var t, f := s.st.current.value, s.reader.frame;
      DispatchShape(s.st, t, f, s.now, s.cfg.mode, disk);
      DispatchStatus(s.st, t, f, s.now, s.cfg.mode, disk);
      hide NoPostTerminal, TasksBelow, EndedIn, Dispatch, Burst;
      CommitKeeps(s, Dispatch(s.st, t, f, s.now, s.cfg.mode, disk), Stamp(true, s.reader.owner, s.ran), ByAdapter);
    }
  }

  /** The submit steps after its first lock; none of them sends an event. */
  lemma SubmitTailKeeps(s: Sys, step: Step)
    requires Lifecycle(s) && (step.SubmitWrite? || step.SubmitReturn?) && Apply(s, step).Some?
    ensures Lifecycle(Apply(s, step).value)
  {
    hide NoPostTerminal, TasksBelow, EndedIn;
  }

  lemma WatchKeeps(s: Sys, step: Step)
    requires Lifecycle(s) && (step.WatchCheck? || step.WatchConfirm?) && Apply(s, step).Some?
    ensures Lifecycle(Apply(s, step).value)
  {
    hide NoPostTerminal, TasksBelow, EndedIn;
  }

  lemma QuietKeeps(s: Sys, step: Step)
    requires Lifecycle(s) && (step.Tick? || step.CancelStart? || step.WriteReply?)
    requires Apply(s, step).Some?
    ensures Lifecycle(Apply(s, step).value)
  {
    hide NoPostTerminal, TasksBelow, EndedIn;
  }

  lemma TakeKeeps(s: Sys, f: Frame, owner: Option<TaskId>)
    requires Lifecycle(s) && ReaderTakeStep(s, f, owner).Some?
    ensures Lifecycle(ReaderTakeStep(s, f, owner).value)
  {
    hide NoPostTerminal, TasksBelow, EndedIn;
  }

  lemma RespondKeeps(s: Sys, id: nat, decision: Decision)
    requires Lifecycle(s) && RespondStep(s, id, decision).Some?
    ensures Lifecycle(RespondStep(s, id, decision).value)
  {
    if id in s.st.pending {
      SilentKeeps(s, Respond(s.st, id, decision, s.now), Own(s), ByOwner(id));
    }
  }

  lemma CancelStopKeeps(s: Sys, order: seq<nat>)
    requires Lifecycle(s) && Apply(s, CancelStop(order)).Some?
    ensures Lifecycle(Apply(s, CancelStop(order)).value)
  {
    StopBeginKeeps(s, s.caller.task, Cancelled, order);
  }

  lemma CancelForceKeeps(s: Sys)
    requires Lifecycle(s) && Apply(s, CancelForce).Some?
    ensures Lifecycle(Apply(s, CancelForce).value)
  {
    StopForceKeeps(s, s.caller.task, Cancelled);
  }

  lemma WatchStopKeeps(s: Sys, t: TaskId, order: seq<nat>)
    requires Lifecycle(s) && WatchStopStep(s, t, order).Some?
    ensures Lifecycle(WatchStopStep(s, t, order).value)
  {
    StopBeginKeeps(s, t, TimedOut, order);
  }

  lemma WatchForceKeeps(s: Sys, t: TaskId)
    requires Lifecycle(s) && Apply(s, WatchForce(t)).Some?
    ensures Lifecycle(Apply(s, WatchForce(t)).value)
  {
    StopForceKeeps(s, t, TimedOut);
  }

  lemma IdleKeeps(s: Sys)
    requires Lifecycle(s) && ReaderIdleStep(s).Some?
    ensures Lifecycle(ReaderIdleStep(s).value)
  {
    SilentKeeps(s, DispatchIdle(s.st, s.reader.frame), Own(s), ByAdapter);
  }

  lemma ReaderStopKeeps(s: Sys, reason: string)
    requires Lifecycle(s) && Apply(s, ReaderStop(reason)).Some?
    ensures Lifecycle(Apply(s, ReaderStop(reason)).value)
  {
    ReaderExitKeeps(s, reason);
  }

  lemma LifecycleStep(s: Sys, step: Step)
    requires Lifecycle(s) && NoPrematureResult(s) && Apply(s, step).Some?
    ensures Lifecycle(Apply(s, step).value)
  {
    hide Lifecycle;
    match step
    case SubmitStart(hint) => SubmitKeeps(s, hint);
    case SubmitWrite(_) => SubmitTailKeeps(s, step);
    case SubmitReturn(_) => SubmitTailKeeps(s, step);
    case CancelKill => KillKeeps(s);
    case CancelStop(order) => CancelStopKeeps(s, order);
    case CancelForce => CancelForceKeeps(s);
    case WatchCheck(_) => WatchKeeps(s, step);
    case WatchConfirm(_) => WatchKeeps(s, step);
    case WatchStop(t, order) => WatchStopKeeps(s, t, order);
    case WatchForce(t) => WatchForceKeeps(s, t);
    case ReaderDispatch(disk) => DispatchKeeps(s, disk);
    case ReaderIdle => IdleKeeps(s);
    case ReaderStop(reason) => ReaderStopKeeps(s, reason);
    case RespondPermission(id, decision) => RespondKeeps(s, id, decision);
    case ReaderTake(f, owner) => TakeKeeps(s, f, owner);
    case _ => QuietKeeps(s, step);
  }
}
