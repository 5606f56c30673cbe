/**
Result correlation in the Claude adapter. `result` frames carry no task id;
only `skip_results` and `current` match them to tasks. Over every run the user
frames without a handled result are exactly the skipped tasks, all ended,
followed by the current task once its frame is written.
*/
module ClaudeCorrelation {
  import opened Events
  import opened ClaudeState
  import opened ClaudeSystem
  import opened ClaudeLifecycle

  /** The frame in the reader's hands, before or between the two locks. */
  ghost predicate InHand(r: ReaderPc) {
    r.Holding? || r.Yielded?
  }

  /** Written user frames whose `result` no critical section has handled yet. */
  ghost function Unanswered(s: Sys): seq<TaskId> {
    (if InHand(s.reader) && s.reader.frame.ResultFrame? && s.reader.owner.Some?
     then [s.reader.owner.value] else []) + s.owed
  }

  /** The current task's user frame has been written. */
  ghost predicate WrittenCurrent(s: Sys) {
    s.st.current.Some? && s.caller != Writing(s.st.current.value)
  }

  ghost predicate AllEnded(trace: seq<Event>, tasks: seq<TaskId>) {
    forall i :: 0 <= i < |tasks| ==> EndedIn(trace, tasks[i])
  }

  ghost predicate Matched(s: Sys) {
    exists skipped: seq<TaskId> ::
      && |skipped| == s.st.skipResults
      && AllEnded(s.trace, skipped)
      && Unanswered(s) == skipped + (if WrittenCurrent(s) then [s.st.current.value] else [])
  }

  ghost predicate InHandOk(s: Sys) {
    InHand(s.reader) ==>
      if s.reader.frame.ResultFrame? then
        s.reader.owner.Some? && (Live(s) && s.reader.Yielded? ==> s.st.skipResults > 0)
      else
        Live(s) && s.reader.owner.Some? ==> Unanswered(s) != [] && Unanswered(s)[0] == s.reader.owner.value
  }

  ghost predicate Correlated(s: Sys) {
    && (Live(s) ==> Matched(s))
    && InHandOk(s)
  }

  lemma EndedGrows(trace: seq<Event>, events: seq<Event>)
    ensures forall t :: EndedIn(trace, t) ==> EndedIn(trace + events, t)
  {
    forall t | EndedIn(trace, t)
      ensures EndedIn(trace + events, t)
    {
      EndedInAppend(trace, events, t);
    }
  }

  /** The premise LifecycleStep needs: an unwritten task has no result to read. */
  lemma NoPremature(s: Sys)
    requires Lifecycle(s) && Correlated(s)
    ensures NoPrematureResult(s)
  {
  }

  /** A frame handled as the current task's own is that task's frame. */
  lemma DispatchOwner(s: Sys)
    requires Lifecycle(s) && Correlated(s)
    requires s.reader.Holding? && s.st.current.Some? && s.st.skipResults == 0 && s.reader.owner.Some?
    ensures s.reader.owner == s.st.current
    ensures s.reader.frame.ResultFrame? ==> s.owed == []
  {
    hide NoPostTerminal, TasksBelow, EndedIn;
    var skipped :| |skipped| == s.st.skipResults && AllEnded(s.trace, skipped)
      && Unanswered(s) == skipped + (if WrittenCurrent(s) then [s.st.current.value] else []);
    assert skipped == [];
    assert Unanswered(s) == if WrittenCurrent(s) then [s.st.current.value] else [];
    if s.reader.frame.ResultFrame? {
      assert Unanswered(s)[0] == s.reader.owner.value;
      assert |Unanswered(s)| == 1 + |s.owed|;
    }
  }

  /** Matched is kept when the trace grows and nothing else it reads changes. */
  lemma MatchedGrows(s: Sys, s': Sys)
    requires Matched(s)
    requires s.trace <= s'.trace
    requires s'.st.skipResults == s.st.skipResults && Unanswered(s') == Unanswered(s)
    requires WrittenCurrent(s') == WrittenCurrent(s)
    requires WrittenCurrent(s) ==> s'.st.current == s.st.current
    ensures Matched(s')
  {
    EndedGrows(s.trace, s'.trace[|s.trace|..]);
    assert s'.trace == s.trace + s'.trace[|s.trace|..];
    var skipped :| |skipped| == s.st.skipResults && AllEnded(s.trace, skipped)
      && Unanswered(s) == skipped + (if WrittenCurrent(s) then [s.st.current.value] else []);
    assert AllEnded(s'.trace, skipped);
  }

  lemma SubmitCorrelates(s: Sys, hint: bool)
    requires Lifecycle(s) && Correlated(s) && SubmitStep(s, hint).Some?
    ensures Correlated(SubmitStep(s, hint).value)
  {
    hide NoPostTerminal, TasksBelow;
    var s' := SubmitStep(s, hint).value;
    if s' != s {
      MatchedGrows(s, s');
    }
  }

  lemma SubmitWriteCorrelates(s: Sys)
    requires Lifecycle(s) && Correlated(s) && s.caller.Writing?
    ensures Correlated(SubmitWrittenStep(s, s.caller.task))
  {
    hide NoPostTerminal, TasksBelow, EndedIn, AllEnded;
    var t := s.caller.task;
    var s' := SubmitWrittenStep(s, t);
    assert Unanswered(s') == Unanswered(s) + [t];
    if Live(s) {
      assert !WrittenCurrent(s) && WrittenCurrent(s') && s.st.current == Some(t);
      var skipped :| |skipped| == s.st.skipResults && AllEnded(s.trace, skipped) && Unanswered(s) == skipped + [];
      assert Unanswered(s') == skipped + [t];
    }
  }

  /** A failed write: the session crashes, unless the task already ended. */
  lemma SubmitFailCorrelates(s: Sys)
    requires Lifecycle(s) && Correlated(s) && (s.caller.Writing? || s.caller.Written?)
    ensures Correlated(SubmitFailStep(s, s.caller.task))
  {
    hide NoPostTerminal, TasksBelow, EndedIn;
    if Live(s) && s.st.current != Some(s.caller.task) {
      MatchedGrows(s, SubmitFailStep(s, s.caller.task));
    }
  }

  lemma SubmitReturnCorrelates(s: Sys)
    requires Correlated(s) && s.caller.Written?
    ensures Correlated(SubmitOkStep(s, s.caller.task))
  {
    hide EndedIn, AllEnded;
    if Live(s) {
      MatchedGrows(s, SubmitOkStep(s, s.caller.task));
    }
  }

  /** stop_task ends a task whose result is still owed: one more to skip. */
  lemma StopForceCorrelates(s: Sys, t: TaskId, outcome: TaskOutcome)
    requires Lifecycle(s) && Correlated(s)
    requires t in s.accepted
    ensures Correlated(StopForceStep(s, t, outcome))
  {
    hide NoPostTerminal, TasksBelow;
    var s' := StopForceStep(s, t, outcome);
    if s.st.current == Some(t) {
      EndedGrows(s.trace, StopForce(s.st, t, outcome).events);
      assert s'.trace[|s'.trace| - 1].Ended? && s'.trace[|s'.trace| - 1].task == t;
      var skipped :| |skipped| == s.st.skipResults && AllEnded(s.trace, skipped) && Unanswered(s) == skipped + [t];
      assert AllEnded(s'.trace, skipped + [t]);
      assert Unanswered(s') == (skipped + [t]) + [];
    } else if Live(s) {
      MatchedGrows(s, s');
    }
  }

  lemma StopBeginCorrelates(s: Sys, t: TaskId, outcome: TaskOutcome, order: seq<nat>)
    requires Lifecycle(s) && Correlated(s) && CanStop(s, t, order)
    ensures Correlated(StopBeginStep(s, t, outcome, order))
  {
    hide NoPostTerminal, TasksBelow, EndedIn;
    if Live(s) {
      MatchedGrows(s, StopBeginStep(s, t, outcome, order));
    }
  }

  lemma TakeCorrelates(s: Sys, f: Frame, owner: Option<TaskId>)
    requires Lifecycle(s) && Correlated(s) && ReaderTakeStep(s, f, owner).Some?
    ensures Correlated(ReaderTakeStep(s, f, owner).value)
  {
    hide NoPostTerminal, TasksBelow, EndedIn;
    var s' := ReaderTakeStep(s, f, owner).value;
    assert Unanswered(s') == Unanswered(s);
    if Live(s) {
      MatchedGrows(s, s');
    }
  }

  lemma DispatchCorrelates(s: Sys, disk: map<string, string>)
    requires Lifecycle(s) && Correlated(s) && ReaderDispatchStep(s, disk).Some?
    ensures Correlated(ReaderDispatchStep(s, disk).value)
  {
    hide Lifecycle, Correlated, Dispatch;
    if s.st.current.None? || s.st.skipResults != 0 {
      YieldCorrelates(s, disk);
    } else if s.reader.frame.ResultFrame? {
      DispatchResultCorrelates(s, disk);
    } else {
      DispatchOtherCorrelates(s, disk);
    }
  }

  lemma YieldCorrelates(s: Sys, disk: map<string, string>)
    requires Lifecycle(s) && Correlated(s) && ReaderDispatchStep(s, disk).Some?
    requires s.st.current.None? || s.st.skipResults != 0
    ensures Correlated(ReaderDispatchStep(s, disk).value)
  {
    hide Dispatch, NoPostTerminal, TasksBelow, EndedIn;
    if Live(s) {
      MatchedGrows(s, ReaderDispatchStep(s, disk).value);
    }
  }

  lemma DispatchOtherCorrelates(s: Sys, disk: map<string, string>)
    requires Lifecycle(s) && Correlated(s) && ReaderDispatchStep(s, disk).Some?
    requires s.st.current.Some? && s.st.skipResults == 0 && !s.reader.frame.ResultFrame?
    ensures Correlated(ReaderDispatchStep(s, disk).value)
  {
    hide NoPostTerminal, TasksBelow, EndedIn, AssistantEvents, ResultEvents, InitWarnings, Matched, CallerOk,
      CurrentOrEnded;
    DispatchShape(s.st, s.st.current.value, s.reader.frame, s.now, s.cfg.mode, disk);
    MatchedGrows(s, ReaderDispatchStep(s, disk).value);
  }

  lemma DispatchResultCorrelates(s: Sys, disk: map<string, string>)
    requires Lifecycle(s) && Correlated(s) && ReaderDispatchStep(s, disk).Some?
    requires s.st.current.Some? && s.st.skipResults == 0 && s.reader.frame.ResultFrame?
    ensures Correlated(ReaderDispatchStep(s, disk).value)
  {
    NoPremature(s);
    DispatchOwner(s);
    hide Lifecycle, Correlated, EndedIn, AssistantEvents, ResultEvents;
    var s' := ReaderDispatchStep(s, disk).value;
    assert AllEnded(s'.trace, []);
    assert Unanswered(s') == [] + [];
  }

  /** The gap: a result handed on is dropped for a skipped task, whatever ran meanwhile. */
  lemma IdleCorrelates(s: Sys)
    requires Lifecycle(s) && Correlated(s) && ReaderIdleStep(s).Some?
    ensures Correlated(ReaderIdleStep(s).value)
  {
    hide NoPostTerminal, TasksBelow, EndedIn, Matched;
    var s' := ReaderIdleStep(s).value;
    if Live(s) {
      if s.reader.frame.ResultFrame? {
        IdleSkips(s);
      } else {
        MatchedGrows(s, s');
      }
    }
  }

  /** The result handed on answers the first skipped task. */
  lemma IdleSkips(s: Sys)
    requires s.reader.Yielded? && s.reader.frame.ResultFrame? && s.reader.owner.Some?
    requires Matched(s) && s.st.skipResults > 0
    ensures Matched(ReaderIdleStep(s).value)
  {
    hide EndedIn;
    var s' := ReaderIdleStep(s).value;
    assert s'.trace == s.trace;
    var skipped :| |skipped| == s.st.skipResults && AllEnded(s.trace, skipped)
      && Unanswered(s) == skipped + (if WrittenCurrent(s) then [s.st.current.value] else []);
    assert Unanswered(s') == Unanswered(s)[1..];
    assert Unanswered(s') == skipped[1..] + (if WrittenCurrent(s) then [s.st.current.value] else []);
    assert AllEnded(s'.trace, skipped[1..]);
  }

  lemma RespondCorrelates(s: Sys, id: nat, decision: Decision)
    requires Lifecycle(s) && Correlated(s) && RespondStep(s, id, decision).Some?
    ensures Correlated(RespondStep(s, id, decision).value)
  {
    hide NoPostTerminal, TasksBelow, EndedIn;
    if Live(s) {
      MatchedGrows(s, RespondStep(s, id, decision).value);
    }
  }

  /** Correlation reads only the state, the trace, the harness queue and two pcs. */
  lemma SameCorrelation(s: Sys, s': Sys)
    requires Correlated(s)
    requires s'.st == s.st && s'.trace == s.trace && s'.owed == s.owed && s'.caller == s.caller && s'.reader == s.reader
    ensures Correlated(s')
  {
    hide EndedIn, AllEnded;
    if Live(s) {
      MatchedGrows(s, s');
    }
  }

  lemma QuietCorrelates(s: Sys, step: Step)
    requires Correlated(s) && Apply(s, step).Some?
    requires step.Tick? || step.WatchCheck? || step.WatchConfirm? || step.WriteReply?
    ensures Correlated(Apply(s, step).value)
  {
    hide Correlated;
    SameCorrelation(s, Apply(s, step).value);
  }

  lemma CancelStartCorrelates(s: Sys, kill: bool)
    requires Correlated(s) && CancelStartStep(s, kill).Some?
    ensures Correlated(CancelStartStep(s, kill).value)
  {
    hide EndedIn, AllEnded;
    if Live(s) {
      MatchedGrows(s, CancelStartStep(s, kill).value);
    }
  }

  /** Moving the caller on, when no user frame is being written. */
  lemma CallerKeeps(s: Sys, caller: CallerPc)
    requires Correlated(s) && !s.caller.Writing? && !caller.Writing?
    ensures Correlated(s.(caller := caller))
  {
    hide EndedIn, AllEnded;
    if Live(s) {
      MatchedGrows(s, s.(caller := caller));
    }
  }

  lemma CancelStopCorrelates(s: Sys, order: seq<nat>)
    requires Lifecycle(s) && Correlated(s) && Apply(s, CancelStop(order)).Some?
    ensures Correlated(Apply(s, CancelStop(order)).value)
  {
    hide Correlated;
    StopBeginCorrelates(s, s.caller.task, Cancelled, order);
    CallerKeeps(StopBeginStep(s, s.caller.task, Cancelled, order), Apply(s, CancelStop(order)).value.caller);
  }

  lemma CancelForceCorrelates(s: Sys)
    requires Lifecycle(s) && Correlated(s) && Apply(s, CancelForce).Some?
    ensures Correlated(Apply(s, CancelForce).value)
  {
    hide Correlated;
    StopForceCorrelates(s, s.caller.task, Cancelled);
    CallerKeeps(StopForceStep(s, s.caller.task, Cancelled), Ready);
  }

  lemma WatchStopCorrelates(s: Sys, t: TaskId, order: seq<nat>)
    requires Lifecycle(s) && Correlated(s) && WatchStopStep(s, t, order).Some?
    ensures Correlated(WatchStopStep(s, t, order).value)
  {
    hide Correlated;
    StopBeginCorrelates(s, t, TimedOut, order);
    SameCorrelation(StopBeginStep(s, t, TimedOut, order), WatchStopStep(s, t, order).value);
  }

  lemma WatchForceCorrelates(s: Sys, t: TaskId)
    requires Lifecycle(s) && Correlated(s) && Apply(s, WatchForce(t)).Some?
    ensures Correlated(Apply(s, WatchForce(t)).value)
  {
    hide Correlated;
    StopForceCorrelates(s, t, TimedOut);
    SameCorrelation(StopForceStep(s, t, TimedOut), Apply(s, WatchForce(t)).value);
  }

  lemma CorrelatedStep(s: Sys, step: Step)
    requires Lifecycle(s) && Correlated(s) && Apply(s, step).Some?
    ensures Correlated(Apply(s, step).value)
  {
    hide Lifecycle, Correlated;
    match step
    case SubmitStart(hint) => SubmitCorrelates(s, hint);
    case CancelStart(kill) => CancelStartCorrelates(s, kill);
    case SubmitWrite(ok) => if ok { SubmitWriteCorrelates(s); } else { SubmitFailCorrelates(s); }
    case SubmitReturn(ok) => if ok { SubmitReturnCorrelates(s); } else { SubmitFailCorrelates(s); }
    case CancelStop(order) => CancelStopCorrelates(s, order);
    case CancelForce => CancelForceCorrelates(s);
    case CancelKill => KillCorrelates(s);
    case WatchStop(t, order) => WatchStopCorrelates(s, t, order);
    case WatchForce(t) => WatchForceCorrelates(s, t);
    case ReaderTake(f, owner) => TakeCorrelates(s, f, owner);
    case ReaderDispatch(disk) => DispatchCorrelates(s, disk);
    case ReaderIdle => IdleCorrelates(s);
    case ReaderStop(reason) => ReaderStopCorrelates(s, reason);
    case RespondPermission(id, decision) => RespondCorrelates(s, id, decision);
    case _ => QuietCorrelates(s, step);
  }

  lemma KillCorrelates(s: Sys)
    requires Correlated(s) && Apply(s, CancelKill).Some?
    ensures Correlated(Apply(s, CancelKill).value)
  {
    hide Matched, Unanswered, Dispatch, Lists;
    assert !Live(Apply(s, CancelKill).value);
  }

  lemma ReaderStopCorrelates(s: Sys, reason: string)
    requires Correlated(s) && Apply(s, ReaderStop(reason)).Some?
    ensures Correlated(Apply(s, ReaderStop(reason)).value)
  {
    hide Matched, Unanswered, Dispatch, Lists;
    assert !Live(Apply(s, ReaderStop(reason)).value);
  }

  // ---- event origins

  /** An event sent for a frame of user frame `o` is an event of task `o`. */
  ghost predicate OriginsOk(s: Sys) {
    && |s.stamps| == |s.trace|
    && forall i :: 0 <= i < |s.trace| && s.stamps[i].fromFrame && s.stamps[i].owner.Some? ==>
         EventTask(s.trace[i]) == s.stamps[i].owner
  }

  lemma CommitOrigins(s: Sys, e: Effect, stamp: Stamp, cause: Cause)
    requires OriginsOk(s)
    requires stamp.fromFrame && stamp.owner.Some? ==>
      forall i :: 0 <= i < |e.events| ==> EventTask(e.events[i]) == stamp.owner
    ensures OriginsOk(Commit(s, e, stamp, cause))
  {
  }

  lemma StopBeginOrigins(s: Sys, t: TaskId, outcome: TaskOutcome, order: seq<nat>)
    requires OriginsOk(s) && CanStop(s, t, order)
    ensures OriginsOk(StopBeginStep(s, t, outcome, order))
  {
    if s.st.current == Some(t) {
      CommitOrigins(s, StopBegin(s.st, outcome, order), Own(s), ByAdapter);
    }
  }

  lemma DispatchOrigins(s: Sys, disk: map<string, string>)
    requires Lifecycle(s) && Correlated(s) && OriginsOk(s) && ReaderDispatchStep(s, disk).Some?
    ensures OriginsOk(ReaderDispatchStep(s, disk).value)
  {
    hide Lifecycle, Correlated, Dispatch;
    if s.st.current.Some? && s.st.skipResults == 0 {
      var t, f := s.st.current.value, s.reader.frame;
      DispatchShape(s.st, t, f, s.now, s.cfg.mode, disk);
      if s.reader.owner.Some? {
        DispatchOwner(s);
      }
      CommitOrigins(s, Dispatch(s.st, t, f, s.now, s.cfg.mode, disk), Stamp(true, s.reader.owner, s.ran), ByAdapter);
    }
  }

  lemma OriginsStep(s: Sys, step: Step)
    requires Lifecycle(s) && Correlated(s) && OriginsOk(s) && Apply(s, step).Some?
    ensures OriginsOk(Apply(s, step).value)
  {
    hide Lifecycle, Correlated, CanStop, Dispatch, Finish, ReaderExit, DispatchIdle, KillNow, Submit, StopBeginStep,
      ReaderDispatchStep, WatchCheckStep, ReaderTakeStep;
    match step
    case SubmitStart(hint) =>
      var gate := Submit(s.st, s.nextTask, s.now, hint);
      if gate.Admitted? {
        CommitOrigins(s, gate.effect, Own(s).(ran := 0), ByAdapter);
      }
    case CancelStop(order) => StopBeginOrigins(s, s.caller.task, Cancelled, order);
    case CancelForce => CommitOrigins(s, StopForce(s.st, s.caller.task, Cancelled), Own(s), ByAdapter);
    case CancelKill => CommitOrigins(s, KillNow(s.st, s.caller.task), Own(s), ByAdapter);
    case WatchStop(t, order) => StopBeginOrigins(s, t, TimedOut, order);
    case WatchForce(t) => CommitOrigins(s, StopForce(s.st, t, TimedOut), Own(s), ByAdapter);
    case ReaderDispatch(disk) => DispatchOrigins(s, disk);
    case ReaderIdle => CommitOrigins(s, DispatchIdle(s.st, s.reader.frame), Own(s), ByAdapter);
    case ReaderStop(reason) => CommitOrigins(s, ReaderExit(s.st, reason), Own(s), ByAdapter);
    case RespondPermission(id, decision) =>
      if id in s.st.pending {
        CommitOrigins(s, Respond(s.st, id, decision, s.now), Own(s), ByOwner(id));
      }
    case _ => assert Apply(s, step).value.trace == s.trace && Apply(s, step).value.stamps == s.stamps by {
        QuietTrace(s, step);
      }
  }

  /** The remaining steps send nothing. */
  lemma QuietTrace(s: Sys, step: Step)
    requires Apply(s, step).Some?
    requires step.Tick? || step.SubmitWrite? || step.SubmitReturn? || step.CancelStart? || step.WatchCheck?
      || step.WatchConfirm? || step.ReaderTake? || step.WriteReply?
    ensures Apply(s, step).value.trace == s.trace && Apply(s, step).value.stamps == s.stamps
  {
  }
}
