/**
Where a codex turn's outcome comes from, and when the session is busy
(crates/bastion-agent-runtime/src/codex.rs), over every run of CodexTurns.
*/
module CodexOutcomes {
  import opened Events
  import opened CodexTurns
  import opened CodexInvariant
  import opened CodexTheorems

  // ---- the session is busy exactly while a turn is mapped

  /** Someone removed `turn` and will still clear it as the current one. */
  ghost predicate WillClear(s: Sys, turn: TurnId) {
    (s.reader.EndRemoved? && s.reader.turn == turn) || CallerHolds(s.caller, turn) || WatchHolds(s.watch, turn)
  }

  ghost predicate CurrentOk(s: Sys) {
    s.current.Some? ==> s.current.value.1 in s.taskMap || WillClear(s, s.current.value.1)
  }

  lemma CurrentStep(s: Sys, step: Step)
    requires Inv(s) && CurrentOk(s) && Apply(s, step).Some?
    ensures CurrentOk(Apply(s, step).value)
  {
    hide Conserved, Markers, Ids;
    if step.SubmitReturn? || step.WatchLook? || step.WatchMark? || step.WatchRemove? || step.WatchUnmark?
       || step.WatchSend? {
      CurrentWatch(s, step);
    } else if step.MapInsert? || step.SetCurrent? {
      hide ApplySubmit, ApplyCancel, ApplyEnd, ApplyWatch, CallerIds, WatchIds;
    } else {
      CurrentOther(s, step);
    }
  }

  lemma CurrentOther(s: Sys, step: Step)
    requires CurrentOk(s) && Apply(s, step).Some? && !step.MapInsert? && !step.SetCurrent?
    requires !step.SubmitReturn? && !step.WatchLook? && !step.WatchMark? && !step.WatchRemove? && !step.WatchUnmark?
      && !step.WatchSend?
    ensures CurrentOk(Apply(s, step).value)
  {
    if step.CancelRead? || step.CancelRemove? || step.CancelSend? {
      hide ApplySubmit, ApplyStart, ApplyEnd, ApplyWatch;
    } else {
      CurrentElsewhere(s, step);
    }
  }

  lemma CurrentElsewhere(s: Sys, step: Step)
    requires CurrentOk(s) && Apply(s, step).Some? && !step.MapInsert? && !step.SetCurrent?
    requires !step.SubmitReturn? && !step.WatchLook? && !step.WatchMark? && !step.WatchRemove? && !step.WatchUnmark?
      && !step.WatchSend? && !step.CancelRead? && !step.CancelRemove? && !step.CancelSend?
    ensures CurrentOk(Apply(s, step).value)
  {
    hide ApplyCancel, ApplyWatch, WatchHolds;
  }

  lemma CurrentWatch(s: Sys, step: Step)
    requires CallerIds(s) && CurrentOk(s) && Apply(s, step).Some?
    requires step.SubmitReturn? || step.WatchLook? || step.WatchMark? || step.WatchRemove? || step.WatchUnmark?
      || step.WatchSend?
    ensures CurrentOk(Apply(s, step).value)
  {
  }

  lemma {:induction false} CurrentHolds(steps: seq<Step>)
    requires Run(INIT, steps).Some?
    ensures CurrentOk(Run(INIT, steps).value)
  {
    hide Inv, Apply, CurrentOk;
    if steps == [] {
      InitCurrent();
    } else {
      var n := |steps| - 1;
      Safety(steps[..n]);
      CurrentHolds(steps[..n]);
      CurrentStep(Run(INIT, steps[..n]).value, steps[n]);
    }
  }

  lemma InitCurrent()
    ensures CurrentOk(INIT)
  {
  }

  /** No party is between two of its lock acquisitions. */
  ghost predicate Quiescent(s: Sys) {
    s.reader == Reading && s.caller == Ready && forall turn :: turn in s.watch ==> !WatchHolds(s.watch, turn)
  }

  /**
  Between the parties' sections, the current turn is exactly the one the task
  map holds, so a submit is refused exactly while a turn has not ended.
  */
  lemma BusyExactly(steps: seq<Step>, s: Sys)
    requires Run(INIT, steps) == Some(s) && Quiescent(s)
    ensures forall turn :: turn in s.taskMap <==> s.current.Some? && s.current.value.1 == turn
    ensures s.current.Some? ==> s.taskMap[s.current.value.1] == s.current.value.0
    ensures Apply(s, SubmitGate).value.caller == Ready <==> exists turn :: turn in s.registered && turn in s.taskMap
  {
    hide Run, Conserved, Markers;
    Safety(steps);
    CurrentHolds(steps);
    if s.current.Some? {
      assert s.current.value.1 in s.taskMap;
    }
  }

  // ---- a submit always gets its answer

  /** The reader has the start of request `req` in hand. */
  ghost predicate Starts(r: ReaderPc, req: nat) {
    (r.StartFound? || r.StartMapped? || r.StartSet?) && r.req == req
  }

  ghost predicate AwaitOk(s: Sys) {
    s.caller.Awaiting? ==> s.caller.req in s.sent || Starts(s.reader, s.caller.req) || s.caller.req in s.answers
  }

  lemma AwaitStep(s: Sys, step: Step)
    requires CallerIds(s) && AwaitOk(s) && Apply(s, step).Some?
    ensures AwaitOk(Apply(s, step).value)
  {
    if step.ReadStarted? || step.ReadRefused? || step.MapInsert? || step.SetCurrent? || step.Respond? {
      hide ApplySubmit, ApplyCancel, ApplyEnd, ApplyWatch;
    } else {
      AwaitElsewhere(s, step);
    }
  }

  lemma AwaitElsewhere(s: Sys, step: Step)
    requires AwaitOk(s) && Apply(s, step).Some?
    requires !step.ReadStarted? && !step.ReadRefused? && !step.MapInsert? && !step.SetCurrent? && !step.Respond?
    ensures AwaitOk(Apply(s, step).value)
  {
  }

  /**
  A caller that waits for its turn is never left without an answer: the server
  has yet to answer, or the reader is on it, or the answer is there, and then
  it is an error or the turn registered for this task.
  */
  lemma {:induction false} SubmitAnswered(steps: seq<Step>, s: Sys)
    requires Run(INIT, steps) == Some(s)
    ensures AwaitOk(s)
    ensures s.caller.Awaiting? && s.caller.req in s.answers && s.answers[s.caller.req].Some? ==>
      TaskOf(s, s.answers[s.caller.req].value, s.caller.task)
  {
    hide Inv, Apply, AwaitOk;
    Safety(steps);
    InvCaller(s);
    if steps == [] {
      NobodyWaits();
    } else {
      var n := |steps| - 1;
      var before := Run(INIT, steps[..n]).value;
      SubmitAnswered(steps[..n], before);
      Safety(steps[..n]);
      InvCaller(before);
      AwaitStep(before, steps[n]);
    }
  }

  lemma NobodyWaits()
    ensures AwaitOk(INIT)
  {
  }

  lemma InvCaller(s: Sys)
    requires Inv(s)
    ensures CallerIds(s)
  {
  }

  // ---- an outcome read from the wire was on the wire

  /** The reader took `turn/completed` for `turn` with a status that means `outcome`. */
  ghost predicate OnWire(steps: seq<Step>, turn: TurnId, outcome: TaskOutcome) {
    exists i :: 0 <= i < |steps| && steps[i].ReadCompleted? && steps[i].turn == turn && Means(steps[i].wire, outcome)
  }

  ghost predicate Means(w: WireStatus, outcome: TaskOutcome) {
    match outcome
    case Success => w == Completed
    case Cancelled => w == Interrupted
    case Failed(reason) => w == FailedTurn(reason) || w.Unexpected?
    case TimedOut => false
  }

  /** How `outcome` of task `t` came about. */
  ghost predicate Sourced(steps: seq<Step>, s: Sys, t: TaskId, outcome: TaskOutcome) {
    || (exists turn :: TaskOf(s, turn, t) && OnWire(steps, turn, outcome))
    || (outcome == TimedOut && exists turn :: turn in s.fired && TaskOf(s, turn, t))
    || (outcome == Cancelled && CancelRemove in steps)
  }

  ghost predicate ReaderSourced(steps: seq<Step>, s: Sys) {
    && (s.reader.EndRemoved? || s.reader.EndCleared? ==> ReadBefore(steps, s.reader.turn, s.reader.wire))
    && (s.reader.EndJudged? ==> s.reader.outcome == TimedOut || OnWire(steps, s.reader.turn, s.reader.outcome))
    && (s.caller.CancelOwes? ==> CancelRemove in steps)
  }

  ghost predicate ReadBefore(steps: seq<Step>, turn: TurnId, wire: WireStatus) {
    exists i :: 0 <= i < |steps| && steps[i] == ReadCompleted(turn, wire)
  }

  lemma OnWireGrows(steps: seq<Step>, step: Step, turn: TurnId, outcome: TaskOutcome)
    requires OnWire(steps, turn, outcome)
    ensures OnWire(steps + [step], turn, outcome)
  {
    var i :| 0 <= i < |steps| && steps[i].ReadCompleted? && steps[i].turn == turn && Means(steps[i].wire, outcome);
    assert (steps + [step])[i] == steps[i];
  }

  lemma ReadBeforeGrows(steps: seq<Step>, step: Step, turn: TurnId, wire: WireStatus)
    ensures ReadBefore(steps, turn, wire) ==> ReadBefore(steps + [step], turn, wire)
    ensures step == ReadCompleted(turn, wire) ==> ReadBefore(steps + [step], turn, wire)
  {
    var all := steps + [step];
    assert all[|steps|] == step;
    if ReadBefore(steps, turn, wire) {
      var i :| 0 <= i < |steps| && steps[i] == ReadCompleted(turn, wire);
      assert all[i] == steps[i];
    }
  }

  lemma ReadOnWire(steps: seq<Step>, turn: TurnId, wire: WireStatus)
    requires ReadBefore(steps, turn, wire)
    ensures OnWire(steps, turn, WireOutcome(wire))
  {
  }

  lemma ReaderSourcedStep(steps: seq<Step>, s: Sys, step: Step)
    requires ReaderSourced(steps, s) && Apply(s, step).Some?
    ensures ReaderSourced(steps + [step], Apply(s, step).value)
  {
    hide ReadBefore, OnWire, WireOutcome;
    assert (steps + [step])[|steps|] == step && forall x :: x in steps ==> x in steps + [step];
    if step.TakeMarker? {
      JudgedSourced(steps, s);
    } else if step.ReadCompleted? || step.ClearCurrent? {
      ReadBeforeGrows(steps, step, if step.ReadCompleted? then step.turn else s.reader.turn,
                      if step.ReadCompleted? then step.wire else s.reader.wire);
      hide ApplySubmit, ApplyCancel, ApplyStart, ApplyWatch;
    } else {
      ElsewhereSourced(steps, s, step);
    }
  }

  lemma JudgedSourced(steps: seq<Step>, s: Sys)
    requires ReaderSourced(steps, s) && Apply(s, TakeMarker).Some?
    ensures ReaderSourced(steps + [TakeMarker], Apply(s, TakeMarker).value)
  {
    hide ReadBefore, OnWire, WireOutcome, ApplySubmit, ApplyCancel, ApplyStart, ApplyWatch;
    assert forall x :: x in steps ==> x in steps + [TakeMarker];
    ReadOnWire(steps, s.reader.turn, s.reader.wire);
    OnWireGrows(steps, TakeMarker, s.reader.turn, WireOutcome(s.reader.wire));
  }

  /** The other steps leave the reader where it is, or free of a removed turn. */
  lemma ElsewhereSourced(steps: seq<Step>, s: Sys, step: Step)
    requires ReaderSourced(steps, s) && Apply(s, step).Some?
    requires !step.TakeMarker? && !step.ReadCompleted? && !step.ClearCurrent?
    ensures ReaderSourced(steps + [step], Apply(s, step).value)
  {
    hide ReadBefore, OnWire;
    var s' := Apply(s, step).value;
    OtherReader(s, step);
    hide Apply;
    assert (steps + [step])[|steps|] == step && forall x :: x in steps ==> x in steps + [step];
    if s.reader.EndRemoved? || s.reader.EndCleared? {
      ReadBeforeGrows(steps, step, s.reader.turn, s.reader.wire);
    } else if s.reader.EndJudged? && s.reader.outcome != TimedOut {
      OnWireGrows(steps, step, s.reader.turn, s.reader.outcome);
    }
  }

  lemma OtherReader(s: Sys, step: Step)
    requires Apply(s, step).Some? && !step.TakeMarker? && !step.ReadCompleted? && !step.ClearCurrent?
    ensures var s' := Apply(s, step).value;
      && (s'.reader.EndRemoved? || s'.reader.EndCleared? || s'.reader.EndJudged? ==> s'.reader == s.reader)
      && (s'.caller.CancelOwes? ==> s.caller.CancelOwes? || step == CancelRemove)
  {
  }

  ghost predicate TraceSourced(steps: seq<Step>, s: Sys) {
    forall i :: 0 <= i < |s.trace| && s.trace[i].Ended? ==> Sourced(steps, s, s.trace[i].task, s.trace[i].outcome)
  }

  lemma SourcedGrows(steps: seq<Step>, s: Sys, step: Step, t: TaskId, outcome: TaskOutcome)
    requires Inv(s) && Apply(s, step).Some? && Sourced(steps, s, t, outcome)
    ensures Sourced(steps + [step], Apply(s, step).value, t, outcome)
  {
    hide Inv, Apply, OnWire;
    var s' := Apply(s, step).value;
    InvNames(s);
    NamesGrow(s, step);
    assert forall x :: x in steps ==> x in steps + [step];
    if turn :| TaskOf(s, turn, t) && OnWire(steps, turn, outcome) {
      OnWireGrows(steps, step, turn, outcome);
      assert TaskOf(s', turn, t);
    } else if outcome == TimedOut && exists turn :: turn in s.fired && TaskOf(s, turn, t) {
      var turn :| turn in s.fired && TaskOf(s, turn, t);
      assert TaskOf(s', turn, t) && turn in s'.fired;
    }
  }

  lemma InvNames(s: Sys)
    requires Inv(s)
    ensures ReaderIds(s)
  {
  }

  lemma NamesGrow(s: Sys, step: Step)
    requires ReaderIds(s) && Apply(s, step).Some?
    ensures forall turn, t :: TaskOf(s, turn, t) ==> TaskOf(Apply(s, step).value, turn, t)
    ensures s.fired <= Apply(s, step).value.fired
  {
    if step.MapInsert? {
      hide ApplySubmit, ApplyCancel, ApplyEnd, ApplyWatch;
    } else {
      OtherNames(s, step);
      hide Apply, ReaderIds;
    }
  }

  lemma OtherNames(s: Sys, step: Step)
    requires Apply(s, step).Some? && !step.MapInsert?
    ensures Apply(s, step).value.registered == s.registered
    ensures s.fired <= Apply(s, step).value.fired
  {
    if step.WatchLook? || step.WatchMark? || step.WatchRemove? || step.WatchUnmark? || step.WatchSend? {
      WatchNames(s, step);
      hide ApplySubmit, ApplyCancel, ApplyStart, ApplyEnd, ApplyWatch;
    } else if ApplySubmit(s, step).Some? || ApplyCancel(s, step).Some? {
      hide ApplyStart, ApplyEnd, ApplyWatch;
    } else {
      ReaderNames(s, step);
    }
  }

  lemma ReaderNames(s: Sys, step: Step)
    requires Apply(s, step).Some? && !step.MapInsert?
    requires ApplySubmit(s, step).None? && ApplyCancel(s, step).None? && ApplyWatch(s, step).None?
    ensures Apply(s, step).value.registered == s.registered
    ensures s.fired <= Apply(s, step).value.fired
  {
    hide ApplySubmit, ApplyCancel, ApplyWatch;
  }

  lemma WatchNames(s: Sys, step: Step)
    requires ApplyWatch(s, step).Some?
    ensures ApplyWatch(s, step).value.registered == s.registered
    ensures s.fired <= ApplyWatch(s, step).value.fired
  {
  }

  /** What a step sends last, if it ends a task, is sourced. */
  lemma EndSourced(steps: seq<Step>, s: Sys, step: Step)
    requires Inv(s) && Apply(s, step).Some? && ReaderSourced(steps, s)
    ensures var s' := Apply(s, step).value;
      s.trace <= s'.trace && |s'.trace| <= |s.trace| + 1
      && (|s'.trace| > |s.trace| && s'.trace[|s.trace|].Ended? ==>
            Sourced(steps + [step], s', s'.trace[|s.trace|].task, s'.trace[|s.trace|].outcome))
  {
    if step.SendEnded? {
      SendSourced(steps, s);
      hide Sourced;
    } else if step.WatchSend? {
      WatchSourced(steps, s, step.turn);
      hide Sourced;
    } else if step.CancelSend? {
      CancelSourced(steps, s);
      hide Sourced;
    } else {
      NoEnd(s, step);
      hide Apply, Sourced;
    }
  }

  lemma CancelSourced(steps: seq<Step>, s: Sys)
    requires Apply(s, CancelSend).Some? && ReaderSourced(steps, s)
    ensures Apply(s, CancelSend).value.trace == s.trace + [Ended(s.caller.task, Cancelled)]
    ensures Sourced(steps + [CancelSend], Apply(s, CancelSend).value, s.caller.task, Cancelled)
  {
    hide OnWire, ReadBefore, ApplySubmit, ApplyStart, ApplyEnd, ApplyWatch;
    assert forall x :: x in steps ==> x in steps + [CancelSend];
  }

  lemma NoEnd(s: Sys, step: Step)
    requires Apply(s, step).Some? && !step.SendEnded? && !step.WatchSend? && !step.CancelSend?
    ensures var s' := Apply(s, step).value;
      s.trace <= s'.trace && |s'.trace| <= |s.trace| + 1 && (|s'.trace| > |s.trace| ==> !s'.trace[|s.trace|].Ended?)
  {
  }

  lemma SendSourced(steps: seq<Step>, s: Sys)
    requires ReaderIds(s) && Markers(s) && Apply(s, SendEnded).Some? && ReaderSourced(steps, s)
    ensures s.reader.taken.Some? ==>
      Sourced(steps + [SendEnded], Apply(s, SendEnded).value, s.reader.taken.value, s.reader.outcome)
    ensures Apply(s, SendEnded).value.trace == s.trace +
      if s.reader.taken.Some? then [Ended(s.reader.taken.value, s.reader.outcome)] else []
  {
    hide OnWire, FiredEnd;
    if s.reader.taken.Some? {
      assert TaskOf(Apply(s, SendEnded).value, s.reader.turn, s.reader.taken.value);
      if s.reader.outcome != TimedOut {
        OnWireGrows(steps, SendEnded, s.reader.turn, s.reader.outcome);
      }
    }
  }

  lemma WatchSourced(steps: seq<Step>, s: Sys, turn: TurnId)
    requires Inv(s) && Apply(s, WatchSend(turn)).Some?
    ensures Apply(s, WatchSend(turn)).value.trace == s.trace + [Ended(s.watch[turn].task, TimedOut)]
    ensures Sourced(steps + [WatchSend(turn)], Apply(s, WatchSend(turn)).value, s.watch[turn].task, TimedOut)
  {
    hide OnWire, Conserved, OneTurn, CallerIds, ReaderIds;
    assert TaskOf(Apply(s, WatchSend(turn)).value, turn, s.watch[turn].task) && turn in s.fired;
  }

  /**
  Over every run, a task ends with the status `turn/completed` carried for its
  own turn, or timed out after its watchdog fired, or cancelled by a cancel.
  */
  lemma {:induction false} OutcomeSourced(steps: seq<Step>, s: Sys)
    requires Run(INIT, steps) == Some(s)
    ensures ReaderSourced(steps, s) && TraceSourced(steps, s)
  {
    hide Inv, Apply, ReaderSourced, TraceSourced;
    if steps == [] {
      NothingSourced();
    } else {
      var n := |steps| - 1;
      OutcomeSourced(steps[..n], Run(INIT, steps[..n]).value);
      Safety(steps[..n]);
      assert steps == steps[..n] + [steps[n]];
      SourcedStep(steps[..n], Run(INIT, steps[..n]).value, steps[n]);
    }
  }

  lemma SourcedStep(steps: seq<Step>, s: Sys, step: Step)
    requires Inv(s) && Apply(s, step).Some? && ReaderSourced(steps, s) && TraceSourced(steps, s)
    ensures ReaderSourced(steps + [step], Apply(s, step).value) && TraceSourced(steps + [step], Apply(s, step).value)
  {
    hide Inv, Apply, ReaderSourced, Sourced;
    var s' := Apply(s, step).value;
    ReaderSourcedStep(steps, s, step);
    EndSourced(steps, s, step);
    forall i | 0 <= i < |s.trace| && s.trace[i].Ended?
      ensures Sourced(steps + [step], s', s.trace[i].task, s.trace[i].outcome)
    {
      SourcedGrows(steps, s, step, s.trace[i].task, s.trace[i].outcome);
    }
  }

  lemma NothingSourced()
    ensures ReaderSourced([], INIT) && TraceSourced([], INIT)
  {
  }
}
