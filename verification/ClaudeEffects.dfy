/**
Every step of ClaudeSystem seen as one effect on the locked state: what becomes
of it, what is sent, and what is queued for the harness.
*/
module ClaudeEffects {
  import opened Events
  import opened ClaudeState
  import opened ClaudeSystem

  /** What an enabled `step` does to the locked state. */
  ghost function EffectOf(s: Sys, step: Step): Effect
    requires Apply(s, step).Some?
  {
    match step
    case SubmitStart(hint) =>
      (match Submit(s.st, s.nextTask, s.now, hint)
       case Admitted(e) => e
       case _ => Effect(s.st, [], []))
    case SubmitWrite(ok) => Effect(if ok then s.st else SubmitFailed(s.st, s.caller.task), [], [])
    case SubmitReturn(ok) => Effect(if ok then s.st else SubmitFailed(s.st, s.caller.task), [], [])
    case CancelStart(_) => Effect(CancelMark(s.st), [], [])
    case CancelKill => KillNow(s.st, s.caller.task)
    case CancelStop(order) =>
      if s.st.current == Some(s.caller.task) then StopBegin(s.st, Cancelled, order) else Effect(s.st, [], [])
    case CancelForce => StopForce(s.st, s.caller.task, Cancelled)
    case WatchStop(t, order) =>
      if s.st.current == Some(t) then StopBegin(s.st, TimedOut, order) else Effect(s.st, [], [])
    case WatchForce(t) => StopForce(s.st, t, TimedOut)
    case ReaderDispatch(disk) =>
      if s.st.current.Some? && s.st.skipResults == 0
      then Dispatch(s.st, s.st.current.value, s.reader.frame, s.now, s.cfg.mode, disk) else Effect(s.st, [], [])
    case ReaderIdle => DispatchIdle(s.st, s.reader.frame)
    case ReaderStop(reason) => ReaderExit(s.st, reason)
    case RespondPermission(id, decision) =>
      if id in s.st.pending then Respond(s.st, id, decision, s.now) else Effect(s.st, [], [])
    case _ => Effect(s.st, [], [])
  }

  /** The system after a step is the system before it with that effect. */
  ghost predicate Carried(s: Sys, e: Effect, s': Sys) {
    && s'.st == e.state && s'.trace == s.trace + e.events
    && s.replies <= s'.replies && |s'.replies| == |s.replies| + |e.replies|
    && forall i :: 0 <= i < |e.replies| ==> s'.replies[|s.replies| + i].reply == e.replies[i]
  }

  lemma StepEffect(s: Sys, step: Step)
    requires Apply(s, step).Some?
    ensures Carried(s, EffectOf(s, step), Apply(s, step).value)
  {
    hide Dispatch, DispatchIdle, KillNow, StopForce, ReaderExit, Submit, Respond, Lists;
    if step.CancelStop? || step.WatchStop? {
      StopEffect(s, step);
    } else if step.ReaderDispatch? || step.ReaderIdle? || step.ReaderStop? || step.RespondPermission? {
      ReaderEffect(s, step);
    } else {
      hide StopBegin, StopBeginStep, ReaderDispatchStep, ReaderIdleStep, RespondStep;
    }
  }

  lemma ReaderEffect(s: Sys, step: Step)
    requires Apply(s, step).Some?
    requires step.ReaderDispatch? || step.ReaderIdle? || step.ReaderStop? || step.RespondPermission?
    ensures Carried(s, EffectOf(s, step), Apply(s, step).value)
  {
    hide Dispatch, DispatchIdle, ReaderExit, Respond;
  }

  lemma StopEffect(s: Sys, step: Step)
    requires Apply(s, step).Some? && (step.CancelStop? || step.WatchStop?)
    ensures Carried(s, EffectOf(s, step), Apply(s, step).value)
  {
    hide Lists, Denials;
  }

  /** A handled permission request. */
  ghost predicate Asks(s: Sys, step: Step) {
    step.ReaderDispatch? && s.reader.Holding? && s.st.current.Some? && s.st.skipResults == 0
    && s.reader.frame.ControlFrame? && s.reader.frame.request.CanUseTool?
  }

  /** Only a handled permission request gives out an id. */
  lemma SameIds(s: Sys, step: Step)
    requires Apply(s, step).Some? && !Asks(s, step)
    ensures Apply(s, step).value.issued == s.issued
  {
    if step.CancelStop? || step.WatchStop? {
      hide Lists, StopBegin;
    } else {
      hide Dispatch, Finish, Submit, Respond, KillNow, StopForce, ReaderExit, DispatchIdle, StopBegin, StopBeginStep,
        CanStop;
    }
  }

  /** Which is the next one, for that request and the current task. */
  lemma NextId(s: Sys, step: Step)
    requires Asks(s, step)
    ensures Apply(s, step).Some? && Apply(s, step).value.issued == s.issued[s.st.nextPermission :=
      Issue(s.reader.frame.requestId, s.st.current.value, s.reader.frame.request)]
  {
    hide Dispatch;
  }
}
