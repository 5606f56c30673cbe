/**
What holds of the codex adapter after every run of CodexTurns while the
reader's connection is up.
*/
module CodexTheorems {
  import opened Events
  import opened CodexTurns
  import opened CodexInvariant

  // ---- every run

  lemma {:induction false} Safety(steps: seq<Step>)
    requires Run(INIT, steps).Some?
    ensures Inv(Run(INIT, steps).value)
  {
    hide Inv, Apply;
    if steps == [] {
      InitInv();
    } else {
      var before, step := Run(INIT, steps[..|steps| - 1]).value, steps[|steps| - 1];
      Safety(steps[..|steps| - 1]);
      StepInv(before, step);
    }
  }

  lemma InitInv()
    ensures Inv(INIT)
  {
  }

  lemma StepInv(s: Sys, step: Step)
    requires Inv(s) && Apply(s, step).Some?
    ensures Inv(Apply(s, step).value)
  {
    hide Structure, Conserved, Markers, Apply;
    StructureStep(s, step);
    ConservedStep(s, step);
    MarkersStep(s, step);
  }

  /**
  Single terminal event: whatever the race between `turn/completed`, cancel and
  the watchdog, a registered turn is in the task map, in exactly one remover's
  hands, or ended once.
  */
  lemma SingleTerminalEvent(steps: seq<Step>, s: Sys, turn: TurnId, t: TaskId)
    requires Run(INIT, steps) == Some(s) && turn in s.registered && s.registered[turn] == t
    ensures Count(turn in s.taskMap) + Holders(s, turn) + EndedCount(s.trace, t) == 1
  {
    hide Apply, Run, EndedCount;
    Safety(steps);
  }

  /** The task map never holds two turns. */
  lemma OneTurnMapped(steps: seq<Step>, s: Sys, a: TurnId, b: TurnId)
    requires Run(INIT, steps) == Some(s) && a in s.taskMap && b in s.taskMap
    ensures a == b
  {
    hide Apply, Run, Conserved, Markers, Ids, ReaderIds, CallerIds, WatchIds;
    Safety(steps);
  }

  /**
  Once the watchdog of a turn has run to its end, the turn has its one `Ended`
  exactly when neither the reader nor a cancel still holds it.
  */
  lemma EndedOnceWatchdogDone(steps: seq<Step>, s: Sys, turn: TurnId)
    requires Run(INIT, steps) == Some(s)
    requires turn in s.watch && s.watch[turn].pc == Gone
    ensures
      && turn in s.registered
      && (EndedCount(s.trace, s.registered[turn]) == 1 <==>
            !ReaderHolds(s.reader, turn) && !CallerHolds(s.caller, turn))
      && EndedCount(s.trace, s.registered[turn]) <= 1
  {
    hide Apply, Run, EndedCount;
    Safety(steps);
    assert TaskOf(s, turn, s.watch[turn].task);
  }

  /** `Ended{TimedOut}` is only sent for a turn whose watchdog fired. */
  lemma TimedOutOnlyIfFired(steps: seq<Step>, s: Sys, t: TaskId)
    requires Run(INIT, steps) == Some(s)
    requires Ended(t, TimedOut) in s.trace
    ensures exists turn :: turn in s.fired && TaskOf(s, turn, t)
  {
    Safety(steps);
    var i :| 0 <= i < |s.trace| && s.trace[i] == Ended(t, TimedOut);
    assert FiredEnd(s, s.trace[i]);
  }

  /**
  A timeout against the wire: when the reader judges a turn it removed, the
  outcome is `TimedOut` exactly when the watchdog had set its marker before,
  whatever status the wire carries.
  */
  lemma MarkerDecides(steps: seq<Step>, s: Sys)
    requires Run(INIT, steps) == Some(s)
    requires s.reader.EndCleared? && s.reader.taken.Some?
    ensures
      var judged := Apply(s, TakeMarker).value.reader.outcome;
      && (judged == TimedOut <==> s.reader.turn in s.fired)
      && (s.reader.turn !in s.fired ==>
            match s.reader.wire
            case Completed => judged == Success
            case Interrupted => judged == Cancelled
            case FailedTurn(message) => judged == Failed(message)
            case Unexpected(_) => judged.Failed?)
  {
    Safety(steps);
  }

  // ---- the ordering requirement, exactly when it holds

  /** Only four steps send an event. */
  lemma QuietTrace(s: Sys, step: Step)
    requires Apply(s, step).Some?
    requires !step.SendNotified? && !step.SendEnded? && !step.CancelSend? && !step.WatchSend?
    ensures Apply(s, step).value.trace == s.trace
  {
  }

  lemma OwedNotEnded(s: Sys, turn: TurnId)
    requires Conserved(s) && turn in s.registered && Holders(s, turn) > 0
    ensures !EndedIn(s.trace, s.registered[turn])
  {
    hide EndedCount, Holders;
    EndedCountZero(s.trace, s.registered[turn]);
  }

  /** One step sends at most one event; an `Ended` only for a task not ended yet. */
  lemma SentWhileOwed(s: Sys, step: Step)
    requires Inv(s) && Apply(s, step).Some?
    ensures var trace := Apply(s, step).value.trace;
      if step.SendNotified? then
        NoPostTerminal(trace) <==> NoPostTerminal(s.trace) && EndedCount(s.trace, s.reader.task) == 0
      else NoPostTerminal(trace) <==> NoPostTerminal(s.trace)
  {
    hide OneTurn, Markers, NoPostTerminal, EndedCount, EndedIn, Conserved, ApplySubmit, ApplyStart;
    match step
    case SendNotified(event) =>
      AppendOne(s.trace, event);
      EndedCountZero(s.trace, s.reader.task);
    case SendEnded =>
      if s.reader.taken.Some? {
        AppendOne(s.trace, Ended(s.reader.taken.value, s.reader.outcome));
        OwedNotEnded(s, s.reader.turn);
      } else {
        assert s.trace + [] == s.trace;
      }
    case CancelSend =>
      AppendOne(s.trace, Ended(s.caller.task, Cancelled));
      OwedNotEnded(s, s.caller.turn);
    case WatchSend(turn) =>
      AppendOne(s.trace, Ended(s.watch[turn].task, TimedOut));
      OwedNotEnded(s, turn);
    case _ => QuietTrace(s, step);
  }

  // ---- which schedules send a notification late

  /** Step `i` looks a notification's turn up and finds task `t`. */
  ghost predicate LooksUp(steps: seq<Step>, i: nat, t: TaskId) {
    && i < |steps| && steps[i].ReadNotification? && Run(INIT, steps[..i]).Some?
    && Lookup(Run(INIT, steps[..i]).value.taskMap, steps[i].turn) == Some(t)
  }

  /** Step `k` is the `Ended` of task `t` sent by a cancel or by the watchdog. */
  ghost predicate EndsElsewhere(steps: seq<Step>, k: nat, t: TaskId) {
    && k < |steps| && Run(INIT, steps[..k]).Some?
    && EndsNow(Run(INIT, steps[..k]).value, steps[k], t)
  }

  ghost predicate EndsNow(s: Sys, step: Step, t: TaskId) {
    || (step.CancelSend? && s.caller.CancelOwes? && s.caller.task == t)
    || (step.WatchSend? && step.turn in s.watch && s.watch[step.turn].task == t)
  }

  /**
  The schedule that breaks the order: the reader looks a turn up at `i`, a
  cancel or the watchdog ends that task at `k`, and the reader sends at `j`,
  still for the lookup at `i`: it is not done with it before.
  */
  ghost predicate Overtaken(steps: seq<Step>, i: nat, k: nat, j: nat, t: TaskId) {
    && i < k < j < |steps| && steps[j].SendNotified?
    && (forall m :: i < m < j ==> !steps[m].NotifyDone?)
    && LooksUp(steps, i, t) && EndsElsewhere(steps, k, t)
  }

  ghost predicate SendOvertaken(steps: seq<Step>, j: nat) {
    exists i: nat, k: nat, t: TaskId :: Overtaken(steps, i, k, j, t)
  }

  /** A lookup the reader is not done with, in a run that ends there. */
  ghost predicate Held(steps: seq<Step>, i: nat, t: TaskId) {
    LooksUp(steps, i, t) && forall m :: i < m < |steps| ==> !steps[m].NotifyDone?
  }

  lemma {:induction false} RunPrefix(steps: seq<Step>, k: nat)
    requires k <= |steps| && Run(INIT, steps).Some?
    ensures Run(INIT, steps[..k]).Some?
    decreases |steps|
  {
    hide Apply;
    if k < |steps| {
      RunPrefix(steps[..|steps| - 1], k);
      assert steps[..|steps| - 1][..k] == steps[..k];
    } else {
      assert steps[..k] == steps;
    }
  }

  /** One step of a reader that holds a notification, or takes one up. */
  lemma NotifyingStep(s: Sys, step: Step, t: TaskId)
    requires Apply(s, step).Some?
    ensures var s' := Apply(s, step).value;
      && (s'.reader == Notifying(t) <==>
            || (s.reader == Notifying(t) && !step.NotifyDone?)
            || (step.ReadNotification? && Lookup(s.taskMap, step.turn) == Some(t)))
      && (step.ReadNotification? ==> s'.trace == s.trace)
      && (step.SendNotified? ==> s.reader.Notifying?)
  {
  }

  /** A turn still in the task map has not ended. */
  lemma MappedNotEnded(s: Sys, turn: TurnId, t: TaskId)
    requires Inv(s) && Lookup(s.taskMap, turn) == Some(t)
    ensures EndedCount(s.trace, t) == 0
  {
    hide OneTurn, Markers, EndedCount;
    assert TaskOf(s, turn, t);
  }

  /** While the reader holds a notification, only a cancel or the watchdog ends a task. */
  lemma EndedWhileNotifying(s: Sys, step: Step, t: TaskId)
    requires Inv(s) && Apply(s, step).Some? && s.reader.Notifying? && !step.NotifyDone?
    ensures EndedCount(Apply(s, step).value.trace, t) == EndedCount(s.trace, t) + if EndsNow(s, step, t) then 1 else 0
  {
    hide Inv, EndedCount;
    var s' := Apply(s, step).value;
    if step.SendNotified? {
      EndedCountAppend(s.trace, [step.event], t);
      CountOne(step.event, t);
    } else if step.CancelSend? || step.WatchSend? {
      var e := if step.CancelSend? then Ended(s.caller.task, Cancelled) else Ended(s.watch[step.turn].task, TimedOut);
      assert s'.trace == s.trace + [e];
      EndedCountAppend(s.trace, [e], t);
      CountOne(e, t);
    } else {
      QuietTrace(s, step);
    }
  }

  lemma CountOne(e: Event, t: TaskId)
    ensures EndedCount([e], t) == if e.Ended? && e.task == t then 1 else 0
  {
    assert [e][..0] == [] && [e][1..] == [];
  }

  lemma SamePrefix(steps: seq<Step>, n: nat, i: nat, t: TaskId)
    requires i < n <= |steps|
    ensures LooksUp(steps[..n], i, t) <==> LooksUp(steps, i, t)
    ensures EndsElsewhere(steps[..n], i, t) <==> EndsElsewhere(steps, i, t)
  {
    hide Run, EndsNow;
    assert steps[..n][..i] == steps[..i];
  }

  ghost predicate EndedSince(steps: seq<Step>, i: nat, t: TaskId) {
    exists k :: i < k && EndsElsewhere(steps, k, t)
  }

  /** After a lookup it is not done with the reader holds it; its task has ended exactly if a step since ended it. */
  lemma {:induction false} HeldStays(steps: seq<Step>, s: Sys, i: nat, t: TaskId)
    requires Run(INIT, steps) == Some(s) && Held(steps, i, t)
    ensures s.reader == Notifying(t)
    ensures EndedCount(s.trace, t) > 0 <==> EndedSince(steps, i, t)
    decreases |steps|
  {
    hide Apply, EndsNow, EndedCount, Inv;
    var n := |steps| - 1;
    var before := steps[..n];
    var mid := Run(INIT, before).value;
    Safety(before);
    NotifyingStep(mid, steps[n], t);
    if i == n {
      MappedNotEnded(mid, steps[n].turn, t);
    } else {
      HeldBefore(steps, i, t);
      HeldStays(before, mid, i, t);
      EndedWhileNotifying(mid, steps[n], t);
      EndedSinceLast(steps, mid, i, t);
    }
  }

  lemma HeldBefore(steps: seq<Step>, i: nat, t: TaskId)
    requires Held(steps, i, t) && i < |steps| - 1
    ensures Held(steps[..|steps| - 1], i, t) && !steps[|steps| - 1].NotifyDone?
  {
    hide LooksUp;
    SamePrefix(steps, |steps| - 1, i, t);
  }

  lemma EndedSinceLast(steps: seq<Step>, mid: Sys, i: nat, t: TaskId)
    requires i < |steps| - 1 && Run(INIT, steps[..|steps| - 1]) == Some(mid)
    ensures EndedSince(steps, i, t) <==>
      EndedSince(steps[..|steps| - 1], i, t) || EndsNow(mid, steps[|steps| - 1], t)
  {
    hide Run, EndsNow;
    var n := |steps| - 1;
    forall k | i < k < n
      ensures EndsElsewhere(steps[..n], k, t) <==> EndsElsewhere(steps, k, t)
    {
      SamePrefix(steps, n, k, t);
    }
    assert EndsElsewhere(steps, n, t) <==> EndsNow(mid, steps[n], t);
  }

  /** A notification in the reader's hands was looked up by some step, and not finished since. */
  lemma {:induction false} FindLookup(steps: seq<Step>, s: Sys, t: TaskId) returns (i: nat)
    requires Run(INIT, steps) == Some(s) && s.reader == Notifying(t)
    ensures Held(steps, i, t)
    decreases |steps|
  {
    hide Apply;
    var n := |steps| - 1;
    var mid := Run(INIT, steps[..n]).value;
    NotifyingStep(mid, steps[n], t);
    if mid.reader == Notifying(t) && !steps[n].NotifyDone? {
      i := FindLookup(steps[..n], mid, t);
      SamePrefix(steps, n, i, t);
    } else {
      i := n;
    }
  }

  lemma SendOvertakenBefore(steps: seq<Step>, j: nat)
    requires j < |steps| - 1
    ensures SendOvertaken(steps[..|steps| - 1], j) <==> SendOvertaken(steps, j)
  {
    hide LooksUp, EndsElsewhere;
    var n := |steps| - 1;
    forall i: nat, k: nat, t: TaskId
      ensures Overtaken(steps[..n], i, k, j, t) <==> Overtaken(steps, i, k, j, t)
    {
      if i < k < j {
        SamePrefix(steps, n, i, t);
        SamePrefix(steps, n, k, t);
      }
    }
  }

  /** The last step sends late exactly when it was overtaken. */
  lemma LastOvertaken(steps: seq<Step>, mid: Sys)
    requires steps != [] && Run(INIT, steps[..|steps| - 1]) == Some(mid) && Apply(mid, steps[|steps| - 1]).Some?
    ensures (steps[|steps| - 1].SendNotified? && EndedCount(mid.trace, mid.reader.task) > 0) <==>
      SendOvertaken(steps, |steps| - 1)
  {
    var n := |steps| - 1;
    if steps[n].SendNotified? {
      NotifyingStep(mid, steps[n], 0);
      if EndedCount(mid.trace, mid.reader.task) > 0 {
        LateIsOvertaken(steps, mid, mid.reader.task);
      }
    }
    hide Run, Apply, Overtaken;
    if i: nat, k: nat, t: TaskId :| Overtaken(steps, i, k, n, t) {
      OvertakenIsLate(steps, mid, i, k, t);
    }
  }

  lemma LateIsOvertaken(steps: seq<Step>, mid: Sys, t: TaskId)
    requires steps != [] && Run(INIT, steps[..|steps| - 1]) == Some(mid) && steps[|steps| - 1].SendNotified?
    requires mid.reader == Notifying(t) && EndedCount(mid.trace, t) > 0
    ensures SendOvertaken(steps, |steps| - 1)
  {
    hide Run, EndedCount, EndsNow;
    var n := |steps| - 1;
    var before := steps[..n];
    var i := FindLookup(before, mid, t);
    HeldStays(before, mid, i, t);
    var k :| i < k && EndsElsewhere(before, k, t);
    SamePrefix(steps, n, i, t);
    SamePrefix(steps, n, k, t);
    assert Overtaken(steps, i, k, n, t);
  }

  lemma OvertakenIsLate(steps: seq<Step>, mid: Sys, i: nat, k: nat, t: TaskId)
    requires steps != [] && Run(INIT, steps[..|steps| - 1]) == Some(mid)
    requires Overtaken(steps, i, k, |steps| - 1, t)
    ensures mid.reader == Notifying(t) && EndedCount(mid.trace, t) > 0
    ensures steps[|steps| - 1].SendNotified?
  {
    hide Run, EndedCount, EndsNow, LooksUp, EndsElsewhere;
    var n := |steps| - 1;
    SamePrefix(steps, n, i, t);
    SamePrefix(steps, n, k, t);
    assert Held(steps[..n], i, t);
    HeldStays(steps[..n], mid, i, t);
  }

  /**
  The checker accepts a run exactly when no notification was overtaken: no
  cancel and no watchdog ended its task between its lookup and any of its sends.
  */
  lemma {:induction false} AcceptedExactlyWhenNotOvertaken(steps: seq<Step>, s: Sys)
    requires Run(INIT, steps) == Some(s)
    ensures NoPostTerminal(s.trace) <==> !exists j: nat :: SendOvertaken(steps, j)
    decreases |steps|
  {
    hide Inv, Apply, EndedCount, NoPostTerminal, SendOvertaken;
    forall j: nat
      ensures SendOvertaken(steps, j) ==> j < |steps|
    {
      SendInRange(steps, j);
    }
    if steps == [] {
      NothingSent();
    } else {
      var n := |steps| - 1;
      var mid := Run(INIT, steps[..n]).value;
      AcceptedExactlyWhenNotOvertaken(steps[..n], mid);
      Safety(steps[..n]);
      SentWhileOwed(mid, steps[n]);
      LastOvertaken(steps, mid);
      forall j: nat
        ensures j < n ==> (SendOvertaken(steps[..n], j) <==> SendOvertaken(steps, j))
        ensures SendOvertaken(steps[..n], j) ==> j < n
      {
        SendInRange(steps[..n], j);
        if j < n {
          SendOvertakenBefore(steps, j);
        }
      }
    }
  }

  lemma NothingSent()
    ensures NoPostTerminal(INIT.trace)
  {
  }

  lemma SendInRange(steps: seq<Step>, j: nat)
    ensures SendOvertaken(steps, j) ==> j < |steps|
  {
  }

  // ---- runs that show it

  lemma Extend(steps: seq<Step>, step: Step) returns (more: seq<Step>)
    requires Run(INIT, steps).Some? && Apply(Run(INIT, steps).value, step).Some?
    ensures more == steps + [step] && Run(INIT, more) == Apply(Run(INIT, steps).value, step)
  {
    more := steps + [step];
    assert more[..|steps|] == steps;
  }

  /** A turn answered by the server, not yet in the task map. */
  lemma Answered() returns (steps: seq<Step>)
    ensures Run(INIT, steps).Some?
    ensures var s := Run(INIT, steps).value;
      && s.caller == Awaiting(0, 0) && s.reader == StartFound(0, 0, "u") && s.trace == [] && s.current == None
      && s.taskMap == map[] && s.registered == map[] && s.watch == map[] && s.answers == map[]
  {
    assert Run(INIT, []) == Some(INIT);
    hide Run;
    steps := Extend([], SubmitGate);
    steps := Extend(steps, SubmitPending);
    steps := Extend(steps, SubmitWrite(true));
    steps := Extend(steps, ReadStarted(0, "u"));
  }

  /** One turn started and handed to its watchdog. */
  lemma Started() returns (steps: seq<Step>)
    ensures Run(INIT, steps).Some?
    ensures var s := Run(INIT, steps).value;
      && s.caller == Ready && s.reader == Reading && s.trace == [] && s.current == Some((0, "u"))
      && s.taskMap == map["u" := 0] && s.registered == map["u" := 0] && s.watch == map["u" := Watchdog(Sleeping, 0)]
  {
    hide Run;
    steps := Answered();
    steps := Extend(steps, MapInsert);
    steps := Extend(steps, SetCurrent);
    steps := Extend(steps, Respond);
    steps := Extend(steps, SubmitReturn);
  }

  /** A cancel between the lookup and the send puts an event after `Ended`. */
  lemma EventAfterEndedHappens() returns (steps: seq<Step>)
    ensures Run(INIT, steps).Some? && !NoPostTerminal(Run(INIT, steps).value.trace)
  {
    hide Run;
    steps := Started();
    steps := Extend(steps, ReadNotification("u"));
    steps := Extend(steps, CancelRead);
    steps := Extend(steps, CancelRemove);
    steps := Extend(steps, CancelSend);
    steps := Extend(steps, SendNotified(MessageDelta(0, "late")));
    var trace := Run(INIT, steps).value.trace;
    assert trace[0] == Ended(0, Cancelled) && trace[1] == MessageDelta(0, "late");
  }

  /** So does a cancel between two sends of one lookup, while a changed file is read. */
  lemma ArtifactAfterEndedHappens() returns (steps: seq<Step>)
    ensures Run(INIT, steps).Some?
    ensures Run(INIT, steps).value.trace ==
      [ToolResult(0, "fileChange", "", false), Ended(0, Cancelled), Artifact(0, "f", "")]
    ensures !NoPostTerminal(Run(INIT, steps).value.trace)
  {
    hide Run;
    steps := Started();
    steps := Extend(steps, ReadNotification("u"));
    steps := Extend(steps, SendNotified(ToolResult(0, "fileChange", "", false)));
    steps := Extend(steps, CancelRead);
    steps := Extend(steps, CancelRemove);
    steps := Extend(steps, CancelSend);
    steps := Extend(steps, SendNotified(Artifact(0, "f", "")));
    var trace := Run(INIT, steps).value.trace;
    assert trace[1] == Ended(0, Cancelled) && trace[2] == Artifact(0, "f", "");
  }

  /** A finished watchdog does not mean the `Ended` is out: the reader may hold it. */
  lemma WatchdogDoneBeforeEndedHappens() returns (steps: seq<Step>)
    ensures Run(INIT, steps).Some?
    ensures var s := Run(INIT, steps).value;
      "u" in s.watch && s.watch["u"].pc == Gone && s.registered == map["u" := 0] && EndedCount(s.trace, 0) == 0
  {
    hide Run;
    steps := Started();
    steps := Extend(steps, ReadCompleted("u", Completed));
    steps := Extend(steps, WatchLook("u"));
  }
}
