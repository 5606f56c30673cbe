/**
Which outcome a Claude task ends with, and when a timeout may be recorded:
`Ended` carries the last outcome forced on the task, and `TimedOut` is forced
only after the task ran for its whole budget with no decision outstanding.
*/
module ClaudeOutcomes {
  import opened Events
  import opened ClaudeState
  import opened ClaudeSystem
  import opened ClaudeLifecycle

  /** The last outcome a cancel, a timeout or a turn-scoped denial forced on `t`. */
  ghost function LastForced(forced: seq<(TaskId, TaskOutcome)>, t: TaskId): Option<TaskOutcome> {
    if forced == [] then None
    else if forced[|forced| - 1].0 == t then Some(forced[|forced| - 1].1)
    else LastForced(forced[..|forced| - 1], t)
  }

  lemma LastForcedAppend(forced: seq<(TaskId, TaskOutcome)>, t: TaskId, o: TaskOutcome)
    ensures forall x :: LastForced(forced + [(t, o)], x) == if x == t then Some(o) else LastForced(forced, x)
  {
    assert (forced + [(t, o)])[..|forced|] == forced;
  }

  lemma {:induction false} NeverForced(forced: seq<(TaskId, TaskOutcome)>, t: TaskId)
    requires forall i :: 0 <= i < |forced| ==> forced[i].0 < t
    ensures LastForced(forced, t) == None
  {
    if forced != [] {
      NeverForced(forced[..|forced| - 1], t);
    }
  }

  ghost predicate EndsAsForced(trace: seq<Event>, forced: seq<(TaskId, TaskOutcome)>) {
    forall i :: 0 <= i < |trace| && trace[i].Ended? && LastForced(forced, trace[i].task).Some? ==>
      trace[i].outcome == LastForced(forced, trace[i].task).value
  }

  ghost predicate ForcedOk(s: Sys) {
    && (forall i :: 0 <= i < |s.forced| ==> s.forced[i].0 < s.nextTask)
    && (s.st.current.Some? ==> s.st.ending == LastForced(s.forced, s.st.current.value))
    && EndsAsForced(s.trace, s.forced)
  }

  /** Forcing an outcome on the running task touches no ended task. */
  lemma ForceKeeps(s: Sys, o: TaskOutcome)
    requires Lifecycle(s) && ForcedOk(s) && s.st.current.Some?
    ensures EndsAsForced(s.trace, s.forced + [(s.st.current.value, o)])
    ensures LastForced(s.forced + [(s.st.current.value, o)], s.st.current.value) == Some(o)
  {
    LastForcedAppend(s.forced, s.st.current.value, o);
    forall i | 0 <= i < |s.trace| && s.trace[i].Ended?
      ensures s.trace[i].task != s.st.current.value
    {
      assert EndedIn(s.trace, s.trace[i].task);
    }
  }

  /** The events a section may send: its `Ended` carries the forced outcome. */
  ghost predicate SendsForced(events: seq<Event>, ending: Option<TaskOutcome>, t: TaskId) {
    forall i :: 0 <= i < |events| && events[i].Ended? ==>
      events[i].task == t && (ending.Some? ==> events[i].outcome == ending.value)
  }

  lemma SendKeeps(s: Sys, e: Effect, stamp: Stamp, cause: Cause)
    requires ForcedOk(s) && s.st.current.Some?
    requires SendsForced(e.events, s.st.ending, s.st.current.value)
    requires e.state.current.Some? ==> e.state.current == s.st.current && e.state.ending == s.st.ending
    ensures ForcedOk(Commit(s, e, stamp, cause))
  {
  }

  lemma SubmitForced(s: Sys, hint: bool)
    requires Lifecycle(s) && ForcedOk(s) && SubmitStep(s, hint).Some?
    ensures ForcedOk(SubmitStep(s, hint).value)
  {
    NeverForced(s.forced, s.nextTask);
  }

  lemma StopBeginForced(s: Sys, t: TaskId, outcome: TaskOutcome, order: seq<nat>)
    requires Lifecycle(s) && ForcedOk(s) && CanStop(s, t, order)
    ensures ForcedOk(StopBeginStep(s, t, outcome, order))
  {
    hide NoPostTerminal, TasksBelow, EndedIn;
    if s.st.current == Some(t) {
      ForceKeeps(s, outcome);
      assert s.trace + [] == s.trace;
    }
  }

  lemma StopForceForced(s: Sys, t: TaskId, outcome: TaskOutcome)
    requires ForcedOk(s)
    ensures ForcedOk(StopForceStep(s, t, outcome))
  {
    if s.st.current == Some(t) {
      SendKeeps(s, StopForce(s.st, t, outcome), Own(s), ByAdapter);
    } else {
      assert s.trace + [] == s.trace;
    }
  }

  lemma DispatchForced(s: Sys, disk: map<string, string>)
    requires ForcedOk(s) && ReaderDispatchStep(s, disk).Some?
    ensures ForcedOk(ReaderDispatchStep(s, disk).value)
  {
    if s.st.current.Some? && s.st.skipResults == 0 {
      var t, f := s.st.current.value, s.reader.frame;
      DispatchShape(s.st, t, f, s.now, s.cfg.mode, disk);
      SendKeeps(s, Dispatch(s.st, t, f, s.now, s.cfg.mode, disk), Stamp(true, s.reader.owner, s.ran), ByAdapter);
    }
  }

  lemma RespondForced(s: Sys, id: nat, decision: Decision)
    requires Lifecycle(s) && ForcedOk(s) && RespondStep(s, id, decision).Some?
    ensures ForcedOk(RespondStep(s, id, decision).value)
  {
    hide NoPostTerminal, TasksBelow, EndedIn;
    if id in s.st.pending {
      assert s.trace + [] == s.trace;
      if decision == Deny(Turn) && s.st.current.Some? {
        ForceKeeps(s, Cancelled);
      }
    }
  }

  lemma ExitForced(s: Sys, reason: string)
    requires ForcedOk(s)
    ensures ForcedOk(Commit(s, ReaderExit(s.st, reason), Own(s), ByAdapter))
  {
    if s.st.current.Some? {
      SendKeeps(s, ReaderExit(s.st, reason), Own(s), ByAdapter);
    } else {
      assert s.trace + [] == s.trace;
    }
  }

  lemma KillForced(s: Sys, t: TaskId)
    requires ForcedOk(s)
    ensures ForcedOk(Commit(s, KillNow(s.st, t), Own(s), ByAdapter))
  {
    if s.st.current.Some? {
      SendKeeps(s, KillNow(s.st, t), Own(s), ByAdapter);
    } else {
      assert s.trace + [] == s.trace;
    }
  }

  lemma ForcedStep(s: Sys, step: Step)
    requires Lifecycle(s) && ForcedOk(s) && Apply(s, step).Some?
    ensures ForcedOk(Apply(s, step).value)
  {
    hide Lifecycle, EndsAsForced, LastForced, CanStop, Finish, Dispatch, Submit, KillNow, ReaderExit, StopForce,
      Respond, ReaderIdleStep, ReaderDispatchStep, RespondStep, SubmitStep;
    match step
    case SubmitStart(hint) => SubmitForced(s, hint);
    case CancelStop(order) => StopBeginForced(s, s.caller.task, Cancelled, order);
    case CancelForce => StopForceForced(s, s.caller.task, Cancelled);
    case CancelKill => KillForced(s, s.caller.task);
    case WatchStop(t, order) => StopBeginForced(s, t, TimedOut, order);
    case WatchForce(t) => StopForceForced(s, t, TimedOut);
    case ReaderDispatch(disk) => DispatchForced(s, disk);
    case ReaderIdle => IdleForced(s);
    case ReaderStop(reason) => ExitForced(s, reason);
    case RespondPermission(id, decision) => RespondForced(s, id, decision);
    case _ => QuietForced(s, step);
  }

  lemma IdleForced(s: Sys)
    requires ForcedOk(s) && ReaderIdleStep(s).Some?
    ensures ForcedOk(ReaderIdleStep(s).value)
  {
    hide EndsAsForced, LastForced;
    assert s.trace + [] == s.trace;
  }

  /** The steps that send nothing and force nothing. */
  lemma QuietForced(s: Sys, step: Step)
    requires ForcedOk(s) && Apply(s, step).Some?
    requires step.Tick? || step.SubmitWrite? || step.SubmitReturn? || step.CancelStart? || step.WatchCheck?
      || step.WatchConfirm? || step.ReaderTake? || step.WriteReply?
    ensures ForcedOk(Apply(s, step).value)
  {
    hide EndsAsForced, LastForced, CanStop, Dispatch;
  }

  // ---- the watchdog clock

  /** What the watchdog computes for the current task. */
  ghost function ClockOf(s: Sys): int {
    s.st.activeBefore + (if s.st.activeSince.Some? then s.now - s.st.activeSince.value else 0)
  }

  /**
  `ran` is the time the current task has run with no request pending. Until a
  stop begins the watchdog's clock equals it; afterwards it never exceeds it.
  */
  ghost predicate ClockOk(s: Sys) {
    && (s.st.activeSince.Some? ==> s.st.current.Some? && s.st.activeSince.value <= s.now && s.st.pending == map[])
    && (Live(s) && s.st.current.None? ==> s.st.pending == map[])
    && (s.st.current.Some? ==>
          && ClockOf(s) <= s.ran
          && (!s.stopBegun ==> ClockOf(s) == s.ran && (s.st.activeSince.None? <==> s.st.pending != map[])))
  }

  /** `t`'s watchdog has seen its budget spent. */
  ghost predicate Timing(s: Sys, t: TaskId) {
    t in s.watch && (s.watch[t] == Due || s.watch[t] == Firing || s.watch[t] == Stopping)
  }

  /** A task that may be timed out has run out of budget. */
  ghost predicate TimeoutOk(s: Sys) {
    && (s.st.current.Some? && s.st.ending == Some(TimedOut) ==> s.ran >= s.cfg.perTask)
    && (s.st.current.Some? && Timing(s, s.st.current.value) ==> s.ran >= s.cfg.perTask)
    && |s.stamps| == |s.trace|
    && (forall i :: 0 <= i < |s.trace| && s.trace[i].Ended? && s.trace[i].outcome == TimedOut ==>
          s.stamps[i].ran >= s.cfg.perTask)
  }

  lemma ClockStep(s: Sys, step: Step)
    requires Lifecycle(s) && ClockOk(s) && Apply(s, step).Some?
    ensures ClockOk(Apply(s, step).value)
  {
    hide NoPostTerminal, TasksBelow, EndedIn, Lists, Dispatch, Denials, StopBeginStep, StopForceStep, WatchStopStep,
      ReaderDispatchStep, RespondStep, ClockOk;
    match step
    case CancelStop(order) => ClockStopBegin(s, s.caller.task, Cancelled, order);
      ClockSame(StopBeginStep(s, s.caller.task, Cancelled, order), Apply(s, step).value);
    case CancelForce => ClockStopForce(s, s.caller.task, Cancelled);
      ClockSame(StopForceStep(s, s.caller.task, Cancelled), Apply(s, step).value);
    case CancelKill => ClockKill(s, s.caller.task);
      ClockSame(Commit(s, KillNow(s.st, s.caller.task), Own(s), ByAdapter), Apply(s, step).value);
    case WatchStop(t, order) => ClockWatchStop(s, t, order);
    case WatchForce(t) => ClockStopForce(s, t, TimedOut);
      ClockSame(StopForceStep(s, t, TimedOut), Apply(s, step).value);
    case RespondPermission(id, decision) => ClockRespond(s, id, decision);
    case ReaderDispatch(disk) => ClockDispatch(s, disk);
    case ReaderStop(reason) => ClockExit(s, reason);
      ClockSame(Commit(s, ReaderExit(s.st, reason), Own(s), ByAdapter), Apply(s, step).value);
    case Tick(ticks) => ClockTick(s, ticks);
    case SubmitWrite(ok) =>
      if ok { ClockSame(s, Apply(s, step).value); } else { ClockSubmitFail(s, s.caller.task); }
    case SubmitReturn(ok) =>
      if ok { ClockSame(s, Apply(s, step).value); } else { ClockSubmitFail(s, s.caller.task); }
    case SubmitStart(hint) => ClockSubmit(s, hint);
    case CancelStart(kill) => ClockMark(s, kill);
    case ReaderIdle => ClockIdle(s);
    case _ => ClockSame(s, Apply(s, step).value);
  }

  /** The clock reads only the state and three counters. */
  lemma ClockSame(s: Sys, s': Sys)
    requires ClockOk(s)
    requires s'.st == s.st && s'.now == s.now && s'.ran == s.ran && s'.stopBegun == s.stopBegun
    ensures ClockOk(s')
  {
  }

  lemma ClockTick(s: Sys, ticks: nat)
    requires ClockOk(s)
    ensures ClockOk(Apply(s, Tick(ticks)).value)
  {
  }

  lemma ClockSubmit(s: Sys, hint: bool)
    requires ClockOk(s) && SubmitStep(s, hint).Some?
    ensures ClockOk(SubmitStep(s, hint).value)
  {
  }

  lemma ClockSubmitFail(s: Sys, t: TaskId)
    requires ClockOk(s)
    ensures ClockOk(SubmitFailStep(s, t))
  {
  }

  lemma ClockMark(s: Sys, kill: bool)
    requires ClockOk(s) && CancelStartStep(s, kill).Some?
    ensures ClockOk(CancelStartStep(s, kill).value)
  {
  }

  lemma ClockIdle(s: Sys)
    requires ClockOk(s) && ReaderIdleStep(s).Some?
    ensures ClockOk(ReaderIdleStep(s).value)
  {
  }

  lemma ClockKill(s: Sys, t: TaskId)
    requires ClockOk(s)
    ensures ClockOk(Commit(s, KillNow(s.st, t), Own(s), ByAdapter))
  {
  }

  lemma ClockExit(s: Sys, reason: string)
    requires ClockOk(s) && (s.st.closing ==> s.st.current.None?)
    ensures ClockOk(Commit(s, ReaderExit(s.st, reason), Own(s), ByAdapter))
  {
  }

  lemma ClockStopBegin(s: Sys, t: TaskId, outcome: TaskOutcome, order: seq<nat>)
    requires ClockOk(s) && CanStop(s, t, order)
    ensures ClockOk(StopBeginStep(s, t, outcome, order))
  {
    hide EndedIn, Lists;
  }

  lemma ClockWatchStop(s: Sys, t: TaskId, order: seq<nat>)
    requires ClockOk(s) && WatchStopStep(s, t, order).Some?
    ensures ClockOk(WatchStopStep(s, t, order).value)
  {
    hide EndedIn, Lists, StopBeginStep;
    ClockStopBegin(s, t, TimedOut, order);
  }

  lemma ClockStopForce(s: Sys, t: TaskId, outcome: TaskOutcome)
    requires ClockOk(s)
    ensures ClockOk(StopForceStep(s, t, outcome))
  {
  }

  lemma ClockRespond(s: Sys, id: nat, decision: Decision)
    requires ClockOk(s) && RespondStep(s, id, decision).Some?
    ensures ClockOk(RespondStep(s, id, decision).value)
  {
  }

  /** Only a raised permission and a `result` touch the clock. */
  lemma DispatchClock(s: State, t: TaskId, f: Frame, now: nat, mode: string, disk: map<string, string>)
    requires !f.ResultFrame?
    ensures var s' := Dispatch(s, t, f, now, mode, disk).state;
      && s'.closing == s.closing && s'.status == s.status
      && (if f.ControlFrame? && f.request.CanUseTool?
          then s'.activeSince == PauseClock(s, now).activeSince && s'.activeBefore == PauseClock(s, now).activeBefore
               && s.nextPermission in s'.pending
          else s'.activeSince == s.activeSince && s'.activeBefore == s.activeBefore && s'.pending == s.pending)
  {
  }

  lemma ClockDispatch(s: Sys, disk: map<string, string>)
    requires ClockOk(s) && ReaderDispatchStep(s, disk).Some?
    ensures ClockOk(ReaderDispatchStep(s, disk).value)
  {
    hide Dispatch;
    if s.st.current.Some? && s.st.skipResults == 0 {
      var t, f := s.st.current.value, s.reader.frame;
      var e := Dispatch(s.st, t, f, s.now, s.cfg.mode, disk);
      hide ClockOk;
      if f.ResultFrame? {
        DispatchResult(s.st, t, f, s.now, s.cfg.mode, disk);
        ClockResult(s, e.state);
      } else {
        DispatchShape(s.st, t, f, s.now, s.cfg.mode, disk);
        DispatchClock(s.st, t, f, s.now, s.cfg.mode, disk);
        ClockOther(s, e.state);
      }
      ClockSame(s.(st := e.state), ReaderDispatchStep(s, disk).value);
    }
  }

  lemma ClockResult(s: Sys, st: State)
    requires ClockOk(s) && s.reader.Holding? && s.reader.frame.ResultFrame? && s.st.current.Some?
    requires st == FinishByResult(s.st, s.st.current.value, s.reader.frame).state
    ensures ClockOk(s.(st := st))
  {
  }

  /** The running task's clock goes on, or is paused for a request. */
  lemma ClockOther(s: Sys, st: State)
    requires ClockOk(s) && s.st.current.Some? && st.current == s.st.current
    requires st.closing == s.st.closing && st.status == s.st.status
    requires
      || (st.activeSince == PauseClock(s.st, s.now).activeSince
          && st.activeBefore == PauseClock(s.st, s.now).activeBefore && st.pending != map[])
      || (st.activeSince == s.st.activeSince && st.activeBefore == s.st.activeBefore && st.pending == s.st.pending)
    ensures ClockOk(s.(st := st))
  {
  }

  lemma DispatchResult(s: State, t: TaskId, f: Frame, now: nat, mode: string, disk: map<string, string>)
    requires f.ResultFrame?
    ensures Dispatch(s, t, f, now, mode, disk) == FinishByResult(s, t, f)
  {
  }

  // ---- timeouts

  lemma CommitTimeout(s: Sys, e: Effect, stamp: Stamp, cause: Cause)
    requires TimeoutOk(s) && stamp.ran == s.ran
    requires s.st.current.Some?
    requires forall i :: 0 <= i < |e.events| && e.events[i].Ended? && e.events[i].outcome == TimedOut ==>
      s.ran >= s.cfg.perTask
    requires e.state.current.Some? ==> e.state.current == s.st.current && e.state.ending == s.st.ending
    ensures TimeoutOk(Commit(s, e, stamp, cause))
  {
  }

  /** A section that sends nothing and forces nothing new, or forces rightly. */
  lemma SilentTimeout(s: Sys, e: Effect, cause: Cause)
    requires TimeoutOk(s) && e.events == []
    requires e.state.current.Some? ==> e.state.current == s.st.current
    requires e.state.ending == s.st.ending || e.state.ending == Some(Cancelled) || s.ran >= s.cfg.perTask
    ensures TimeoutOk(Commit(s, e, Own(s), cause))
  {
    assert s.trace + [] == s.trace;
  }

  lemma StopBeginTimeout(s: Sys, t: TaskId, outcome: TaskOutcome, order: seq<nat>)
    requires TimeoutOk(s) && CanStop(s, t, order)
    requires outcome == Cancelled || (s.st.current == Some(t) ==> s.ran >= s.cfg.perTask)
    ensures TimeoutOk(StopBeginStep(s, t, outcome, order))
  {
    hide Denials;
    if s.st.current == Some(t) {
      SilentTimeout(s, StopBegin(s.st, outcome, order), ByAdapter);
    }
  }

  lemma StopForceTimeout(s: Sys, t: TaskId, outcome: TaskOutcome)
    requires TimeoutOk(s)
    requires outcome == Cancelled || (s.st.current == Some(t) ==> s.ran >= s.cfg.perTask)
    ensures TimeoutOk(StopForceStep(s, t, outcome))
  {
    if s.st.current == Some(t) {
      CommitTimeout(s, StopForce(s.st, t, outcome), Own(s), ByAdapter);
    } else {
      SilentTimeout(s, StopForce(s.st, t, outcome), ByAdapter);
    }
  }

  lemma DispatchTimeout(s: Sys, disk: map<string, string>)
    requires TimeoutOk(s) && ReaderDispatchStep(s, disk).Some?
    ensures TimeoutOk(ReaderDispatchStep(s, disk).value)
  {
    hide Dispatch;
    if s.st.current.Some? && s.st.skipResults == 0 {
      var t, f := s.st.current.value, s.reader.frame;
      DispatchShape(s.st, t, f, s.now, s.cfg.mode, disk);
      CommitTimeout(s, Dispatch(s.st, t, f, s.now, s.cfg.mode, disk), Stamp(true, s.reader.owner, s.ran), ByAdapter);
    }
  }

  lemma SubmitTimeout(s: Sys, hint: bool)
    requires Lifecycle(s) && TimeoutOk(s) && SubmitStep(s, hint).Some?
    ensures TimeoutOk(SubmitStep(s, hint).value)
  {
    hide NoPostTerminal, TasksBelow, EndedIn;
  }

  lemma KillTimeout(s: Sys, t: TaskId)
    requires TimeoutOk(s)
    ensures TimeoutOk(Commit(s, KillNow(s.st, t), Own(s), ByAdapter))
  {
    if s.st.current.Some? {
      CommitTimeout(s, KillNow(s.st, t), Own(s), ByAdapter);
    } else {
      SilentTimeout(s, KillNow(s.st, t), ByAdapter);
    }
  }

  lemma ExitTimeout(s: Sys, reason: string)
    requires TimeoutOk(s)
    ensures TimeoutOk(Commit(s, ReaderExit(s.st, reason), Own(s), ByAdapter))
  {
    if s.st.current.Some? {
      CommitTimeout(s, ReaderExit(s.st, reason), Own(s), ByAdapter);
    } else {
      SilentTimeout(s, ReaderExit(s.st, reason), ByAdapter);
    }
  }

  /** The watchdog's own steps: a spent budget is seen on the clock, never later lost. */
  lemma WatchTimeout(s: Sys, step: Step)
    requires ClockOk(s) && TimeoutOk(s) && Apply(s, step).Some?
    requires step.WatchCheck? || step.WatchConfirm?
    ensures TimeoutOk(Apply(s, step).value)
  {
  }

  /** Steps that send nothing: time may pass and new watchdogs may start. */
  lemma QuietTimeout(s: Sys, s': Sys)
    requires TimeoutOk(s)
    requires s'.trace == s.trace && s'.stamps == s.stamps && s'.cfg == s.cfg && s'.ran >= s.ran
    requires s'.st.current.Some? ==> s'.st.current == s.st.current && s'.st.ending == s.st.ending
    requires s'.st.current.Some? && Timing(s', s'.st.current.value) ==> Timing(s, s'.st.current.value)
    ensures TimeoutOk(s')
  {
  }

  lemma SubmitTailTimeout(s: Sys, step: Step)
    requires TimeoutOk(s) && Apply(s, step).Some? && (step.SubmitWrite? || step.SubmitReturn?)
    ensures TimeoutOk(Apply(s, step).value)
  {
    hide TimeoutOk;
    QuietTimeout(s, Apply(s, step).value);
  }

  lemma TimeoutStep(s: Sys, step: Step)
    requires Lifecycle(s) && ClockOk(s) && TimeoutOk(s) && Apply(s, step).Some?
    ensures TimeoutOk(Apply(s, step).value)
  {
    hide Lifecycle, ClockOk, TimeoutOk, CanStop, Finish, Dispatch, Submit, KillNow, ReaderExit, StopForce,
      StopBeginStep,
      StopForceStep, ReaderDispatchStep, WatchCheckStep, WatchConfirmStep;
    match step
    case SubmitStart(hint) => SubmitTimeout(s, hint);
    case SubmitWrite(_) => SubmitTailTimeout(s, step);
    case SubmitReturn(_) => SubmitTailTimeout(s, step);
    case CancelStop(order) => CancelStopTimeout(s, order);
    case CancelForce => CancelForceTimeout(s);
    case CancelKill =>
      KillTimeout(s, s.caller.task);
      QuietTimeout(Commit(s, KillNow(s.st, s.caller.task), Own(s), ByAdapter), Apply(s, step).value);
    case WatchStop(t, order) => WatchStopTimeout(s, t, order);
    case WatchForce(t) => WatchForceTimeout(s, t);
    case ReaderDispatch(disk) => DispatchTimeout(s, disk);
    case WatchCheck(_) => WatchTimeout(s, step);
    case WatchConfirm(_) => WatchTimeout(s, step);
    case ReaderIdle =>
      SilentTimeout(s, DispatchIdle(s.st, s.reader.frame), ByAdapter);
      QuietTimeout(Commit(s, DispatchIdle(s.st, s.reader.frame), Own(s), ByAdapter), Apply(s, step).value);
    case ReaderStop(reason) =>
      ExitTimeout(s, reason);
      QuietTimeout(Commit(s, ReaderExit(s.st, reason), Own(s), ByAdapter), Apply(s, step).value);
    case RespondPermission(id, decision) => RespondTimeout(s, id, decision);
    case _ => QuietTimeout(s, Apply(s, step).value);
  }

  lemma RespondTimeout(s: Sys, id: nat, decision: Decision)
    requires TimeoutOk(s) && RespondStep(s, id, decision).Some?
    ensures TimeoutOk(RespondStep(s, id, decision).value)
  {
    if id in s.st.pending {
      SilentTimeout(s, Respond(s.st, id, decision, s.now), ByOwner(id));
    }
  }

  lemma CancelStopTimeout(s: Sys, order: seq<nat>)
    requires TimeoutOk(s) && Apply(s, CancelStop(order)).Some?
    ensures TimeoutOk(Apply(s, CancelStop(order)).value)
  {
    StopBeginTimeout(s, s.caller.task, Cancelled, order);
  }

  lemma CancelForceTimeout(s: Sys)
    requires TimeoutOk(s) && Apply(s, CancelForce).Some?
    ensures TimeoutOk(Apply(s, CancelForce).value)
  {
    StopForceTimeout(s, s.caller.task, Cancelled);
  }

  lemma WatchForceTimeout(s: Sys, t: TaskId)
    requires TimeoutOk(s) && t in s.watch && s.watch[t] == Stopping
    ensures TimeoutOk(StopForceStep(s, t, TimedOut).(watch := s.watch[t := Gone]))
  {
    StopForceTimeout(s, t, TimedOut);
  }

  lemma WatchStopTimeout(s: Sys, t: TaskId, order: seq<nat>)
    requires TimeoutOk(s) && WatchStopStep(s, t, order).Some?
    ensures TimeoutOk(WatchStopStep(s, t, order).value)
  {
    hide Lists, Denials;
    StopBeginTimeout(s, t, TimedOut, order);
  }
}
