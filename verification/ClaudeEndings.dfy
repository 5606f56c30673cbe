/**
Why a Claude task ended as it did, and what the session's flags tell
(crates/bastion-agent-runtime/src/claude_code.rs), over every run of
ClaudeSystem.
*/
module ClaudeEndings {
  import opened Events
  import opened ClaudeState
  import opened ClaudeSystem
  import opened ClaudeEffects
  import opened ClaudePermissions
  import ClaudeTheorems

  // ---- outcomes

  /** The outcome `step` has for a task on which none was forced. */
  ghost predicate Natural(s: Sys, step: Step, outcome: TaskOutcome) {
    match step
    case CancelKill => outcome == Cancelled
    case CancelForce => outcome == Cancelled
    case WatchForce(_) => outcome == TimedOut
    case ReaderStop(reason) => outcome == Failed(reason)
    case ReaderDispatch(_) =>
      && s.reader.Holding? && s.reader.frame.ResultFrame?
      && outcome == if s.reader.frame.success then Success else Failed(s.reader.frame.reason)
    case _ => false
  }

  /** `step` ends the current task `t` with the outcome forced on it, or its own. */
  ghost predicate Ends(s: Sys, step: Step, t: TaskId, outcome: TaskOutcome) {
    && s.st.current == Some(t)
    && exists natural :: Natural(s, step, natural) &&
         outcome == if s.st.ending.Some? then s.st.ending.value else natural
  }

  /** Every `Ended` in `events` is one that `step` sends. */
  ghost predicate EndedBy(s: Sys, step: Step, events: seq<Event>) {
    forall i :: 0 <= i < |events| && events[i].Ended? ==> Ends(s, step, events[i].task, events[i].outcome)
  }

  lemma EndStep(s: Sys, step: Step)
    requires Apply(s, step).Some?
    ensures var s' := Apply(s, step).value;
      s.trace <= s'.trace && EndedBy(s, step, s'.trace[|s.trace|..])
  {
    StepEffect(s, step);
    EffectEnds(s, step);
    hide Apply, EffectOf, EndedBy;
    var events := EffectOf(s, step).events;
    assert (s.trace + events)[|s.trace|..] == events;
  }

  lemma EffectEnds(s: Sys, step: Step)
    requires Apply(s, step).Some?
    ensures EndedBy(s, step, EffectOf(s, step).events)
  {
    hide Dispatch;
    if step.ReaderDispatch? {
      DispatchEnds(s, step.disk);
    } else if step.CancelKill? || step.CancelForce? {
      assert Natural(s, step, Cancelled);
    } else if step.WatchForce? {
      assert Natural(s, step, TimedOut);
    } else if step.ReaderStop? {
      assert Natural(s, step, Failed(step.reason));
    }
  }

  lemma DispatchEnds(s: Sys, disk: map<string, string>)
    requires Apply(s, ReaderDispatch(disk)).Some?
    ensures EndedBy(s, ReaderDispatch(disk), EffectOf(s, ReaderDispatch(disk)).events)
  {
    hide Dispatch;
    if s.st.current.Some? && s.st.skipResults == 0 {
      var f := s.reader.frame;
      DispatchShape(s.st, s.st.current.value, f, s.now, s.cfg.mode, disk);
      if f.ResultFrame? {
        assert Natural(s, ReaderDispatch(disk), if f.success then Success else Failed(f.reason));
      }
    }
  }

  /** Step `k` of the run ended task `t` so. */
  ghost predicate EndedAt(cfg: Config, steps: seq<Step>, k: nat, t: TaskId, outcome: TaskOutcome) {
    && k < |steps| && Run(Init(cfg), steps[..k]).Some?
    && Ends(Run(Init(cfg), steps[..k]).value, steps[k], t, outcome)
  }

  /**
  Over every run, each `Ended` was sent by a step that ends the then current
  task: its `result` (Success or the frame's reason), the kill, the forced end
  of a stop, or the end of the stream (with its reason); and it carries what
  that step means, unless another outcome had been forced on the task.
  */
  lemma {:induction false} OutcomeByCause(cfg: Config, steps: seq<Step>, s: Sys, i: nat)
    requires Run(Init(cfg), steps) == Some(s) && i < |s.trace| && s.trace[i].Ended?
    ensures exists k :: EndedAt(cfg, steps, k, s.trace[i].task, s.trace[i].outcome)
  {
    hide Apply, Ends;
    if steps != [] {
      var n := |steps| - 1;
      var before := Run(Init(cfg), steps[..n]).value;
      EndStep(before, steps[n]);
      if i < |before.trace| {
        assert s.trace[i] == before.trace[i];
        OutcomeByCause(cfg, steps[..n], before, i);
        var k: nat :| EndedAt(cfg, steps[..n], k, s.trace[i].task, s.trace[i].outcome);
        assert steps[..n][..k] == steps[..k];
        assert EndedAt(cfg, steps, k, s.trace[i].task, s.trace[i].outcome);
      } else {
        assert s.trace[|before.trace|..][i - |before.trace|] == s.trace[i];
        assert EndedAt(cfg, steps, n, s.trace[i].task, s.trace[i].outcome);
      }
    } else {
      NothingSent(cfg);
    }
  }

  lemma NothingSent(cfg: Config)
    ensures Init(cfg).trace == []
  {
  }

  // ---- replies of the adapter's own

  /** What the adapter answers by itself is a denial that interrupts, or the rejection of an unsupported request. */
  lemma AdapterOnlyDenies(cfg: Config, steps: seq<Step>, s: Sys, i: nat)
    requires Run(Init(cfg), steps) == Some(s) && i < |s.replies| && s.replies[i].cause == ByAdapter
    ensures s.replies[i].reply.verdict == Denied(true) || s.replies[i].reply.verdict.Unsupported?
  {
    hide Run, Init;
    ClaudeTheorems.Safety(cfg, steps);
    assert CauseOk(s, s.replies[i]);
  }

  /** An unsupported request is rejected under its own subtype, whether a task is running or not. */
  lemma UnsupportedNamed(s: State, t: TaskId, requestId: string, subtype: string, now: nat, mode: string,
                         disk: map<string, string>)
    ensures var f := ControlFrame(requestId, OtherControl(Some(subtype)));
      && Dispatch(s, t, f, now, mode, disk) == Effect(s, [], [Reply(requestId, Unsupported(subtype))])
      && DispatchIdle(s, f) == Effect(s, [], [Reply(requestId, Unsupported(subtype))])
    ensures var f := ControlFrame(requestId, OtherControl(None));
      && Dispatch(s, t, f, now, mode, disk).replies == [Reply(requestId, Unsupported(""))]
      && DispatchIdle(s, f).replies == [Reply(requestId, Unsupported("unknown"))]
  {
  }

  // ---- flags

  /** The step ends the stream, or handles a `result` that no task and no skipped task is left for. */
  ghost predicate ExitsEarly(s: Sys, step: Step) {
    || step.ReaderStop?
    || (step.ReaderIdle? && s.reader.Yielded? && s.reader.frame.ResultFrame?
        && s.st.skipResults == 0 && s.st.current.None?)
  }

  lemma EarlyExitStep(s: Sys, step: Step)
    requires Apply(s, step).Some?
    ensures Apply(s, step).value.st.earlyExit <==> s.st.earlyExit || ExitsEarly(s, step)
  {
    StepEffect(s, step);
    EffectExits(s, step);
    hide Apply, EffectOf, ExitsEarly;
  }

  lemma EffectExits(s: Sys, step: Step)
    requires Apply(s, step).Some?
    ensures EffectOf(s, step).state.earlyExit <==> s.st.earlyExit || ExitsEarly(s, step)
  {
    hide Dispatch;
    if step.ReaderDispatch? && s.st.current.Some? && s.st.skipResults == 0 {
      DispatchKeepsFlags(s.st, s.st.current.value, s.reader.frame, s.now, s.cfg.mode, step.disk);
    }
  }

  lemma DispatchKeepsFlags(s: State, t: TaskId, f: Frame, now: nat, mode: string, disk: map<string, string>)
    ensures var s' := Dispatch(s, t, f, now, mode, disk).state;
      s'.earlyExit == s.earlyExit && (s.status == Halted ==> s'.status == Halted)
  {
    hide AssistantEvents, ResultEvents, ToolsOpened, ToolsClosed, InitWarnings;
  }

  ghost predicate ExitedAt(cfg: Config, steps: seq<Step>, k: nat) {
    && k < |steps| && Run(Init(cfg), steps[..k]).Some?
    && ExitsEarly(Run(Init(cfg), steps[..k]).value, steps[k])
  }

  /** The early-exit flag tells exactly whether that ever happened. */
  lemma {:induction false} EarlyExitExactly(cfg: Config, steps: seq<Step>, s: Sys)
    requires Run(Init(cfg), steps) == Some(s)
    ensures s.st.earlyExit <==> exists k :: ExitedAt(cfg, steps, k)
  {
    hide Apply, ExitsEarly;
    if steps == [] {
      NoExitYet(cfg);
    } else {
      var n := |steps| - 1;
      var before := Run(Init(cfg), steps[..n]).value;
      EarlyExitExactly(cfg, steps[..n], before);
      EarlyExitStep(before, steps[n]);
      forall k: nat
        ensures ExitedAt(cfg, steps, k) <==> ExitedAt(cfg, steps[..n], k) || (k == n && ExitsEarly(before, steps[n]))
      {
        if k < n {
          assert steps[..n][..k] == steps[..k];
        }
      }
      assert ExitsEarly(before, steps[n]) ==> ExitedAt(cfg, steps, n);
    }
  }

  lemma NoExitYet(cfg: Config)
    ensures !Init(cfg).st.earlyExit
  {
  }

  /** A cancel marks the session, and the mark stays until the next submit, or a crash. */
  lemma CancelMarkStays(s: Sys, step: Step)
    requires Apply(s, step).Some?
    ensures var s' := Apply(s, step).value;
      && (step.CancelStart? ==> s'.st.status == if s.st.status == Crashed then Crashed else Halted)
      && (s.st.status == Halted && !step.SubmitStart? ==> s'.st.status == Halted || s'.st.status == Crashed)
  {
    StepEffect(s, step);
    hide Dispatch;
    if step.ReaderDispatch? && s.st.current.Some? && s.st.skipResults == 0 {
      DispatchKeepsFlags(s.st, s.st.current.value, s.reader.frame, s.now, s.cfg.mode, step.disk);
    }
    hide Apply;
  }

  /** Which refusal a submit meets: a killed session's first, then a crashed one's, then a busy one's. */
  lemma GateRefuses(s: State, t: TaskId, now: nat, hint: bool)
    ensures Submit(s, t, now, hint) == Killed <==> s.closing
    ensures Submit(s, t, now, hint) == AlreadyCrashed <==> !s.closing && s.status == Crashed
    ensures Submit(s, t, now, hint) == Busy <==> !s.closing && s.status != Crashed && s.current.Some?
  {
  }

  /** An admitted submit makes the next task current and warns, for that task, of a hint it cannot apply. */
  lemma SubmitAnnounces(s: Sys, hint: bool)
    requires Apply(s, SubmitStart(hint)).Some?
    ensures var s' := Apply(s, SubmitStart(hint)).value;
      if s.st.closing || s.st.status == Crashed || s.st.current.Some? then s' == s
      else
        && s'.st.current == Some(s.nextTask) && s'.nextTask == s.nextTask + 1 && s'.st.status == Running
        && s'.st.ending == None && s'.st.activeSince == Some(s.now) && s'.st.activeBefore == 0
        && s'.trace == s.trace + if hint then [Warning(s.nextTask, HINT_WARNING)] else []
  {
  }
}
