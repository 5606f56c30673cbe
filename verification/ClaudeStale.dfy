/**
When a decision can still act on a request of a task that is no longer
current. A submit whose write fails clears the current task and crashes the
session, but leaves the requests raised for it pending
(crates/bastion-agent-runtime/src/claude_code.rs:1084-1092).
*/
module ClaudeStale {
  import opened Events
  import opened ClaudeState
  import opened ClaudeSystem
  import opened ClaudeEffects
  import opened ClaudeCorrelation
  import opened ClaudeLifecycle
  import opened ClaudeOutcomes
  import opened ClaudePermissions
  import opened ClaudeTheorems

  /** `step` is a submit that fails after its task became current. */
  ghost predicate FailsSubmit(s: Sys, step: Step) {
    && ((step == SubmitWrite(false) && s.caller.Writing?) || (step == SubmitReturn(false) && s.caller.Written?))
    && s.st.current == Some(s.caller.task)
  }

  /** Step `k` is a failing submit that leaves request `id` of its task pending. */
  ghost predicate LeavesPending(cfg: Config, steps: seq<Step>, k: nat, id: nat) {
    && k < |steps| && Run(Init(cfg), steps[..k]).Some?
    && FailsSubmit(Run(Init(cfg), steps[..k]).value, steps[k])
    && id in Run(Init(cfg), steps[..k]).value.st.pending
  }

  /** `step` removes request `id` from a session without a task. */
  ghost predicate Drains(step: Step, id: nat) {
    step.ReaderStop? || (step.RespondPermission? && step.id == id)
  }

  ghost predicate LeftPending(cfg: Config, steps: seq<Step>, k: nat, id: nat) {
    LeavesPending(cfg, steps, k, id) && forall m :: k < m < |steps| ==> !Drains(steps[m], id)
  }

  ghost predicate Stranded(s: Sys, id: nat) {
    id in s.st.pending && s.st.current.None?
  }

  /** What one step does to the requests pending without a task. */
  lemma StrandedStep(s: Sys, step: Step, id: nat)
    requires CleanStart(s) && Apply(s, step).Some?
    ensures Stranded(Apply(s, step).value, id) <==>
      (Stranded(s, id) && !Drains(step, id)) || (FailsSubmit(s, step) && id in s.st.pending)
  {
    StepEffect(s, step);
    EffectStrands(s, step, id);
    hide Apply, EffectOf, FailsSubmit, Drains;
  }

  /** The effect keeps the task, or ends it with nothing pending, or is one of those two. */
  lemma EffectStrands(s: Sys, step: Step, id: nat)
    requires CleanStart(s) && Apply(s, step).Some?
    ensures var after := EffectOf(s, step).state;
      id in after.pending && after.current.None? <==>
      (Stranded(s, id) && !Drains(step, id)) || (FailsSubmit(s, step) && id in s.st.pending)
  {
    if step.ReaderDispatch? {
      hide Dispatch;
      if s.st.current.Some? && s.st.skipResults == 0 {
        DispatchEnds(s.st, s.st.current.value, s.reader.frame, s.now, s.cfg.mode, step.disk);
      }
    } else if step.CancelKill? || step.CancelForce? || step.WatchForce? || step.ReaderStop? {
      ForcedStrands(s, step, id);
    } else {
      hide Finish, KillNow, StopForce, ReaderExit, Lists;
    }
  }

  lemma ForcedStrands(s: Sys, step: Step, id: nat)
    requires Apply(s, step).Some?
    requires step.CancelKill? || step.CancelForce? || step.WatchForce? || step.ReaderStop?
    ensures var after := EffectOf(s, step).state;
      id in after.pending && after.current.None? <==> Stranded(s, id) && !Drains(step, id)
  {
    hide Apply;
  }

  lemma DispatchEnds(s: State, t: TaskId, f: Frame, now: nat, mode: string, disk: map<string, string>)
    ensures var e := Dispatch(s, t, f, now, mode, disk);
      e.state.current == s.current || (e.state.current.None? && e.state.pending == map[])
  {
    hide AssistantEvents, ResultEvents, InitWarnings;
  }

  /** A request is pending without a task exactly when a failing submit left it there. */
  lemma {:induction false} StrandedExactly(cfg: Config, steps: seq<Step>, s: Sys, id: nat)
    requires Run(Init(cfg), steps) == Some(s)
    ensures Stranded(s, id) <==> exists k :: LeftPending(cfg, steps, k, id)
    decreases |steps|
  {
    hide Apply, Init, FailsSubmit, Stranded;
    if steps == [] {
      NothingStranded(cfg, id);
    } else {
      var n := |steps| - 1;
      var mid := Run(Init(cfg), steps[..n]).value;
      StrandedExactly(cfg, steps[..n], mid, id);
      CleanRun(cfg, steps[..n], mid);
      StrandedStep(mid, steps[n], id);
      forall k: nat
        ensures LeftPending(cfg, steps, k, id) <==>
          (LeftPending(cfg, steps[..n], k, id) && !Drains(steps[n], id))
          || (k == n && FailsSubmit(mid, steps[n]) && id in mid.st.pending)
      {
        LeftPendingLast(cfg, steps, mid, k, id);
      }
      assert (FailsSubmit(mid, steps[n]) && id in mid.st.pending) ==> LeftPending(cfg, steps, n, id);
    }
  }

  lemma NothingStranded(cfg: Config, id: nat)
    ensures !Stranded(Init(cfg), id)
  {
  }

  lemma CleanRun(cfg: Config, steps: seq<Step>, s: Sys)
    requires Run(Init(cfg), steps) == Some(s)
    ensures CleanStart(s)
  {
    hide Run;
    Safety(cfg, steps);
    CleanStartHolds(s);
  }

  lemma LeftPendingLast(cfg: Config, steps: seq<Step>, mid: Sys, k: nat, id: nat)
    requires steps != [] && Run(Init(cfg), steps[..|steps| - 1]) == Some(mid)
    ensures var n := |steps| - 1;
      LeftPending(cfg, steps, k, id) <==>
        (LeftPending(cfg, steps[..n], k, id) && !Drains(steps[n], id))
        || (k == n && FailsSubmit(mid, steps[n]) && id in mid.st.pending)
  {
    hide Run, FailsSubmit, Drains;
    var n := |steps| - 1;
    if k < n {
      assert steps[..n][..k] == steps[..k];
    }
  }

  /**
  A decision on an id issued for any task but the current one does nothing,
  except exactly when a failing submit left that request pending and neither
  the end of the stream nor a decision has removed it since.
  */
  lemma StaleDecisionExactly(cfg: Config, steps: seq<Step>, s: Sys, id: nat, d: Decision)
    requires Run(Init(cfg), steps) == Some(s)
    requires s.caller == Ready && id in s.issued && s.st.current != Some(s.issued[id].task)
    ensures Apply(s, RespondPermission(id, d)) == Some(s) <==> !exists k :: LeftPending(cfg, steps, k, id)
  {
    hide Run, LeftPending, Apply, Lifecycle, Correlated, OriginsOk, ForcedOk, ClockOk, TimeoutOk,
      PermissionsOk, Stranded;
    StrandedExactly(cfg, steps, s, id);
    Safety(cfg, steps);
    PendingIsStranded(s, id);
    RespondActs(s, id, d);
  }

  lemma RespondActs(s: Sys, id: nat, d: Decision)
    requires s.caller == Ready
    ensures Apply(s, RespondPermission(id, d)) == Some(s) <==> id !in s.st.pending
  {
    hide Dispatch, Lists;
    if id in s.st.pending {
      assert id !in Respond(s.st, id, d, s.now).state.pending;
    }
  }

  lemma PendingIsStranded(s: Sys, id: nat)
    requires PermissionsOk(s) && id in s.issued && s.st.current != Some(s.issued[id].task)
    ensures id in s.st.pending <==> Stranded(s, id)
  {
  }

  lemma Extend(cfg: Config, steps: seq<Step>, s: Sys, step: Step, next: Sys) returns (more: seq<Step>)
    requires Run(Init(cfg), steps) == Some(s) && Apply(s, step) == Some(next)
    ensures more == steps + [step] && Run(Init(cfg), more) == Some(next)
  {
    more := steps + [step];
    assert more[..|steps|] == steps;
  }

  /** A request made between two user frames, taken while a submit has yet to write its own. */
  lemma RequestBeforeWrite(cfg: Config) returns (steps: seq<Step>, s: Sys)
    ensures Run(Init(cfg), steps) == Some(s)
    ensures s.caller == Writing(0) && s.st.current == Some(0) && s.replies == []
    ensures s.issued == map[0 := Issue("r", 0, CanUseTool("Bash", "x", "x"))]
    ensures s.st.pending == map[0 := PendingPermission("r", "x")]
  {
    var request := ControlFrame("r", CanUseTool("Bash", "x", "x"));
    s := Init(cfg);
    assert Run(Init(cfg), []) == Some(s);
    hide Run;
    steps := Extend(cfg, [], s, SubmitStart(false), SubmitStep(s, false).value);
    s := SubmitStep(s, false).value;
    steps := Extend(cfg, steps, s, ReaderTake(request, None), ReaderTakeStep(s, request, None).value);
    s := ReaderTakeStep(s, request, None).value;
    var raised := RaisedBy(s, request);
    steps := Extend(cfg, steps, s, ReaderDispatch(map[]), raised);
    s := raised;
  }

  /** It does happen: the owner's Allow is then queued for a session without a task. */
  lemma StaleAllowHappens(cfg: Config) returns (steps: seq<Step>, s: Sys)
    ensures Run(Init(cfg), steps) == Some(s)
    ensures s.caller == Ready && 0 in s.issued && s.st.current.None? && s.st.status == Crashed
    ensures var after := Apply(s, RespondPermission(0, Allow)).value;
      after.replies == [Queued(Reply("r", Allowed("x")), ByOwner(0))]
  {
    hide Run;
    steps, s := RequestBeforeWrite(cfg);
    steps := Extend(cfg, steps, s, SubmitWrite(false), SubmitFailStep(s, 0));
    s := SubmitFailStep(s, 0);
    hide Init;
  }

  /** A user frame written, and a request its harness then made. */
  lemma RequestAfterWrite(cfg: Config) returns (steps: seq<Step>, s: Sys)
    ensures Run(Init(cfg), steps) == Some(s)
    ensures s.caller == Written(0) && s.st.current == Some(0) && s.replies == []
    ensures s.issued == map[0 := Issue("r", 0, CanUseTool("Bash", "x", "x"))]
    ensures s.st.pending == map[0 := PendingPermission("r", "x")]
  {
    var request := ControlFrame("r", CanUseTool("Bash", "x", "x"));
    s := Init(cfg);
    assert Run(Init(cfg), []) == Some(s);
    hide Run;
    steps := Extend(cfg, [], s, SubmitStart(false), SubmitStep(s, false).value);
    s := SubmitStep(s, false).value;
    steps := Extend(cfg, steps, s, SubmitWrite(true), SubmitWrittenStep(s, 0));
    s := SubmitWrittenStep(s, 0);
    steps := Extend(cfg, steps, s, ReaderTake(request, Some(0)), ReaderTakeStep(s, request, Some(0)).value);
    s := ReaderTakeStep(s, request, Some(0)).value;
    var raised := RaisedBy(s, request);
    steps := Extend(cfg, steps, s, ReaderDispatch(map[]), raised);
    s := raised;
  }

  /** What dispatch makes of a request in hand. */
  lemma RaisedBy(s: Sys, f: Frame) returns (after: Sys)
    requires s.reader.Holding? && s.reader.frame == f && f.ControlFrame? && f.request.CanUseTool?
    requires s.st.current.Some? && s.st.skipResults == 0
    ensures Apply(s, ReaderDispatch(map[])) == Some(after)
    ensures after.caller == s.caller && after.st.current == s.st.current && after.replies == s.replies
    ensures after.issued == s.issued[s.st.nextPermission := Issue(f.requestId, s.st.current.value, f.request)]
    ensures after.st.pending ==
      s.st.pending[s.st.nextPermission := PendingPermission(f.requestId, f.request.input)]
  {
    after := ReaderDispatchStep(s, map[]).value;
  }

  /**
  The same when the user frame was written, and the harness asked, before submit
  saw its write fail.
  */
  lemma StaleAllowAfterWriteHappens(cfg: Config) returns (steps: seq<Step>, s: Sys)
    ensures Run(Init(cfg), steps) == Some(s)
    ensures s.caller == Ready && s.st.current.None? && s.st.status == Crashed
    ensures s.issued == map[0 := Issue("r", 0, CanUseTool("Bash", "x", "x"))]
    ensures var after := Apply(s, RespondPermission(0, Allow)).value;
      after.replies == [Queued(Reply("r", Allowed("x")), ByOwner(0))]
  {
    hide Run;
    steps, s := RequestAfterWrite(cfg);
    steps := Extend(cfg, steps, s, SubmitReturn(false), SubmitFailStep(s, 0));
    s := SubmitFailStep(s, 0);
    hide Init;
  }
}
