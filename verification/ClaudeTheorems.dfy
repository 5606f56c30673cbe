/**
What holds of the Claude adapter after every run of ClaudeSystem, whatever the
interleaving of reader, caller, watchdogs and harness.
*/
module ClaudeTheorems {
  import opened Events
  import opened ClaudeState
  import opened ClaudeSystem
  import opened ClaudeEffects
  import opened ClaudeLifecycle
  import opened ClaudeCorrelation
  import opened ClaudeOutcomes
  import opened ClaudePermissions

  ghost predicate Inv(s: Sys) {
    Lifecycle(s) && Correlated(s) && OriginsOk(s) && ForcedOk(s) && ClockOk(s) && TimeoutOk(s) && PermissionsOk(s)
  }

  lemma InitInv(cfg: Config)
    ensures Inv(Init(cfg))
  {
    var s := Init(cfg);
    assert Matched(s) by {
      assert Unanswered(s) == [] + [] && AllEnded(s.trace, []);
    }
  }

  lemma StepInv(s: Sys, step: Step)
    requires Inv(s) && Apply(s, step).Some?
    ensures Inv(Apply(s, step).value)
  {
    hide Lifecycle, Correlated, OriginsOk, ForcedOk, ClockOk, TimeoutOk, PermissionsOk, NoPrematureResult, Apply,
      CleanStart;
    NoPremature(s);
    LifecycleStep(s, step);
    CorrelatedStep(s, step);
    OriginsStep(s, step);
    ForcedStep(s, step);
    ClockStep(s, step);
    TimeoutStep(s, step);
    assert CleanStart(s) by {
      CleanStartHolds(s);
    }
    PermissionsStep(s, step);
  }

  lemma CleanStartHolds(s: Sys)
    requires ClockOk(s)
    ensures CleanStart(s)
  {
  }

  /** The invariants hold after every run. */
  lemma {:induction false} Safety(cfg: Config, steps: seq<Step>)
    requires Run(Init(cfg), steps).Some?
    ensures Inv(Run(Init(cfg), steps).value)
  {
    hide Inv, Apply;
    if steps == [] {
      InitInv(cfg);
    } else {
      Safety(cfg, steps[..|steps| - 1]);
      StepInv(Run(Init(cfg), steps[..|steps| - 1]).value, steps[|steps| - 1]);
    }
  }

  /**
  Result correlation: while the session is live, the user frames whose result
  has not been handled are exactly the skipped tasks, which have all ended,
  followed by the current task once its frame is written. So an event sent for
  a frame is an event of the task whose user frame the harness was working on,
  and a late `result` never ends a later task.
  */
  lemma ResultCorrelation(cfg: Config, steps: seq<Step>, s: Sys)
    requires Run(Init(cfg), steps) == Some(s)
    ensures
      && (Live(s) ==>
            && |Unanswered(s)| == s.st.skipResults + (if WrittenCurrent(s) then 1 else 0)
            && (forall i :: 0 <= i < s.st.skipResults ==>
                  EndedIn(s.trace, Unanswered(s)[i]) && Some(Unanswered(s)[i]) != s.st.current)
            && (WrittenCurrent(s) ==> Unanswered(s)[s.st.skipResults] == s.st.current.value))
      && |s.stamps| == |s.trace|
      && (forall i :: 0 <= i < |s.trace| && s.stamps[i].fromFrame && s.stamps[i].owner.Some? ==>
            EventTask(s.trace[i]) == s.stamps[i].owner)
  {
    hide Apply, Run;
    Safety(cfg, steps);
    if Live(s) {
      var skipped :| |skipped| == s.st.skipResults && AllEnded(s.trace, skipped)
        && Unanswered(s) == skipped + (if WrittenCurrent(s) then [s.st.current.value] else []);
      assert forall i :: 0 <= i < |skipped| ==> Unanswered(s)[i] == skipped[i];
    }
  }

  /**
  Terminal discipline: the conformance checker accepts the trace, and a task
  whose submit returned Ok is still current or has exactly one `Ended`.
  */
  lemma TerminalDiscipline(cfg: Config, steps: seq<Step>, s: Sys)
    requires Run(Init(cfg), steps) == Some(s)
    ensures
      && NoPostTerminal(s.trace)
      && (forall t :: EndedCount(s.trace, t) <= 1)
      && (forall t :: t in s.accepted ==>
            EndedCount(s.trace, t) == if s.st.current == Some(t) then 0 else 1)
  {
    Safety(cfg, steps);
    forall t: TaskId
      ensures EndedCount(s.trace, t) <= 1
      ensures t in s.accepted ==> EndedCount(s.trace, t) == if s.st.current == Some(t) then 0 else 1
    {
      EndedAtMostOnce(s.trace, t);
    }
  }

  /** An ended task ended with the last outcome forced on it, if one was. */
  lemma EndsWithForcedOutcome(cfg: Config, steps: seq<Step>, s: Sys, t: TaskId, o: TaskOutcome)
    requires Run(Init(cfg), steps) == Some(s)
    requires Ended(t, o) in s.trace
    ensures LastForced(s.forced, t).Some? ==> o == LastForced(s.forced, t).value
  {
    Safety(cfg, steps);
  }

  /**
  The watchdog's clock is the time the task has run with no request pending,
  exactly until a stop begins and never more; `TimedOut` is only ever reported
  for a task that ran its whole budget that way.
  */
  lemma TimeoutOnlyAfterBudget(cfg: Config, steps: seq<Step>, s: Sys)
    requires Run(Init(cfg), steps) == Some(s)
    ensures
      && (s.st.current.Some? ==> ClockOf(s) <= s.ran && (!s.stopBegun ==> ClockOf(s) == s.ran))
      && (s.st.current.Some? && s.st.ending == Some(TimedOut) ==> s.ran >= cfg.perTask)
      && |s.stamps| == |s.trace|
      && (forall i :: 0 <= i < |s.trace| && s.trace[i].Ended? && s.trace[i].outcome == TimedOut ==>
            s.stamps[i].ran >= cfg.perTask)
  {
    Safety(cfg, steps);
    ConfigKept(Init(cfg), steps);
  }

  lemma ConfigStep(s: Sys, step: Step)
    requires Apply(s, step).Some?
    ensures Apply(s, step).value.cfg == s.cfg
  {
    hide Dispatch, Finish, ReaderExit, Submit, Lists;
  }

  lemma {:induction false} ConfigKept(s: Sys, steps: seq<Step>)
    requires Run(s, steps).Some?
    ensures Run(s, steps).value.cfg == s.cfg
  {
    hide Apply;
    if steps != [] {
      ConfigKept(s, steps[..|steps| - 1]);
      ConfigStep(Run(s, steps[..|steps| - 1]).value, steps[|steps| - 1]);
    }
  }

  /**
  Permission answers: no two frames written to the harness answer the same
  request, and an `allow` answers a request exactly because the owner decided
  `Allow` on the id issued for it, and carries the input the request had.
  */
  lemma AnsweredAtMostOnce(cfg: Config, steps: seq<Step>, s: Sys, k: nat, m: nat)
    requires Run(Init(cfg), steps) == Some(s)
    requires k < |s.wire| && m < |s.wire| && k != m
    ensures
      && s.wire[k] < |s.replies| && s.wire[m] < |s.replies|
      && s.replies[s.wire[k]].reply.requestId != s.replies[s.wire[m]].reply.requestId
  {
    Safety(cfg, steps);
    assert s.wire[k] != s.wire[m];
    assert s.wire[k] < s.wire[m] || s.wire[m] < s.wire[k];
  }

  lemma AllowedOnlyByOwner(cfg: Config, steps: seq<Step>, s: Sys, i: nat)
    requires Run(Init(cfg), steps) == Some(s)
    requires i < |s.replies|
    requires s.replies[i].reply.verdict.Allowed?
    ensures exists id ::
      && (id, Allow) in s.decided && id in s.issued
      && s.issued[id].requestId == s.replies[i].reply.requestId && s.issued[id].request.CanUseTool?
      && s.replies[i].reply.verdict == Allowed(s.issued[id].request.input)
      && (forall d :: (id, d) in s.decided ==> d == Allow)
  {
    Safety(cfg, steps);
    var q := s.replies[i];
    assert CauseOk(s, q);
    var k :| 0 <= k < |s.decided| && s.decided[k] == (q.cause.id, Allow);
    forall d | (q.cause.id, d) in s.decided
      ensures d == Allow
    {
      var m :| 0 <= m < |s.decided| && s.decided[m] == (q.cause.id, d);
      assert k == m;
    }
  }

  /** A decision on an id issued for any task but the current one does nothing. */
  lemma StaleDecisionIgnored(cfg: Config, steps: seq<Step>, s: Sys, id: nat, d: Decision)
    requires Run(Init(cfg), steps) == Some(s)
    requires s.caller == Ready && Live(s) && id in s.issued && s.st.current != Some(s.issued[id].task)
    ensures Apply(s, RespondPermission(id, d)) == Some(s)
  {
    hide Run, Lifecycle, Correlated, OriginsOk, ForcedOk, TimeoutOk;
    Safety(cfg, steps);
    CleanStartHolds(s);
  }

  /** Ids are never reused: what an id was issued for never changes. */
  lemma IssueStep(s: Sys, step: Step)
    requires PermissionsOk(s) && Apply(s, step).Some?
    ensures forall id :: id in s.issued ==>
      id in Apply(s, step).value.issued && Apply(s, step).value.issued[id] == s.issued[id]
  {
    hide PendingOk, HeldOk, RepliesOk, DecidedOk, WireOk;
    if Asks(s, step) {
      NextId(s, step);
    } else {
      SameIds(s, step);
    }
    hide Apply;
  }

  /** Over every continuation of a run, an id stands for the request it was issued for. */
  lemma {:induction false} IdsNeverReused(cfg: Config, steps: seq<Step>, s: Sys, more: seq<Step>, later: Sys, id: nat)
    requires Run(Init(cfg), steps) == Some(s) && Run(s, more) == Some(later)
    requires id in s.issued
    ensures id in later.issued && later.issued[id] == s.issued[id]
    decreases |more|
  {
    hide Apply, Init;
    if more != [] {
      var before := more[..|more| - 1];
      var mid := Run(s, before).value;
      IdsNeverReused(cfg, steps, s, before, mid, id);
      RunAppend(Init(cfg), steps, before);
      Safety(cfg, steps + before);
      IssueStep(mid, more[|more| - 1]);
    }
  }

  // ---- closing and crashing

  lemma AbsorbingStep(s: Sys, step: Step)
    requires Apply(s, step).Some?
    requires s.st.status == Crashed ==> s.st.current.None?
    ensures var s' := Apply(s, step).value;
      && (s.st.closing ==> s'.st.closing)
      && (s.st.status == Crashed ==> s'.st.status == Crashed)
      && (s.st.closing || s.st.status == Crashed ==> s'.nextTask == s.nextTask)
  {
    StepEffect(s, step);
    AbsorbingEffect(s, step);
    if s.st.closing || s.st.status == Crashed {
      OnlySubmitNumbers(s, step);
    }
    hide Apply, EffectOf;
  }

  lemma AbsorbingEffect(s: Sys, step: Step)
    requires Apply(s, step).Some?
    requires s.st.status == Crashed ==> s.st.current.None?
    ensures var after := EffectOf(s, step).state;
      (s.st.closing ==> after.closing) && (s.st.status == Crashed ==> after.status == Crashed)
  {
    if step.ReaderDispatch? {
      hide Dispatch;
      if s.st.current.Some? && s.st.skipResults == 0 {
        DispatchKeepsClosing(s.st, s.st.current.value, s.reader.frame, s.now, s.cfg.mode, step.disk);
      }
    } else {
      hide Apply;
    }
  }

  lemma OnlySubmitNumbers(s: Sys, step: Step)
    requires Apply(s, step).Some? && (s.st.closing || s.st.status == Crashed)
    ensures Apply(s, step).value.nextTask == s.nextTask
  {
    hide Dispatch, Lists, Finish, Respond, KillNow, StopForce, ReaderExit, DispatchIdle, StopBegin;
  }

  lemma DispatchKeepsClosing(s: State, t: TaskId, f: Frame, now: nat, mode: string, disk: map<string, string>)
    ensures Dispatch(s, t, f, now, mode, disk).state.closing == s.closing
  {
    hide AssistantEvents, ResultEvents, InitWarnings, ToolsOpened, ToolsClosed;
  }

  /** Once crashed or closing, a session stays so and admits no further task. */
  lemma {:induction false} CrashedAndClosingAbsorb(cfg: Config, before: seq<Step>, after: seq<Step>)
    requires Run(Init(cfg), before).Some?
    requires Run(Run(Init(cfg), before).value, after).Some?
    ensures var s, s' := Run(Init(cfg), before).value, Run(Run(Init(cfg), before).value, after).value;
      && (s.st.closing ==> s'.st.closing)
      && (s.st.status == Crashed ==> s'.st.status == Crashed)
      && (s.st.closing || s.st.status == Crashed ==> s'.nextTask == s.nextTask)
  {
    hide Apply, Init;
    if after != [] {
      var mid := after[..|after| - 1];
      CrashedAndClosingAbsorb(cfg, before, mid);
      RunAppend(Init(cfg), before, mid);
      Safety(cfg, before + mid);
      AbsorbingStep(Run(Run(Init(cfg), before).value, mid).value, after[|after| - 1]);
    }
  }

  lemma {:induction false} RunAppend(s: Sys, a: seq<Step>, b: seq<Step>)
    requires Run(s, a).Some?
    ensures Run(s, a + b) == Run(Run(s, a).value, b)
  {
    hide Apply;
    if b == [] {
      assert a + b == a;
    } else {
      RunAppend(s, a, b[..|b| - 1]);
      assert (a + b)[..|a + b| - 1] == a + b[..|b| - 1];
    }
  }
}
