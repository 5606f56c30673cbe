/**
The event vocabulary every runtime adapter emits
(crates/bastion-agent-runtime/src/lib.rs). Payload fields that no adapter
decision reads are kept as plain text; a digest is represented by the text it
is computed from.
*/
module Events {

  datatype Option<+T> = None | Some(value: T)

  type TaskId = nat

  datatype TaskOutcome =
    | Success
    | Failed(reason: string)
    | Cancelled
    | TimedOut

  datatype PermissionAction = RunCommand | WriteFile | Network | UseTool | Other(kind: string)

  datatype Event =
    | Started
    | MessageDelta(task: TaskId, text: string)
    | Thinking(task: TaskId, summary: string)
    | ToolCall(task: TaskId, name: string, digested: string)
    | ToolResult(task: TaskId, name: string, digested: string, isError: bool)
    | PermissionRequest(task: TaskId, id: nat, action: PermissionAction, detail: string)
    | Diff(task: TaskId, path: string, added: nat, removed: nat)
    | Artifact(task: TaskId, path: string, digested: string)
    | Usage(task: TaskId, inputTokens: nat, outputTokens: nat)
    | Warning(task: TaskId, detail: string)
    | Ended(task: TaskId, outcome: TaskOutcome)

  /** The task an event belongs to; `Started` is session-level. */
  function EventTask(e: Event): Option<TaskId> {
    match e
    case Started => None
    case _ => Some(e.task)
  }

  /** Some event of `trace` is the `Ended` of task `t`. */
  ghost predicate EndedIn(trace: seq<Event>, t: TaskId) {
    exists i :: 0 <= i < |trace| && trace[i].Ended? && trace[i].task == t
  }

  /** The ordering requirement: no event of a task after that task's `Ended`. */
  ghost predicate NoPostTerminal(trace: seq<Event>) {
    forall i, j :: 0 <= i < j < |trace| && trace[i].Ended? ==>
      EventTask(trace[j]) != Some(trace[i].task)
  }

  /** Events one critical section sends for one task: an `Ended` only at the end. */
  ghost predicate Burst(events: seq<Event>, t: TaskId) {
    forall i :: 0 <= i < |events| ==>
      && EventTask(events[i]) == Some(t)
      && (events[i].Ended? ==> i == |events| - 1)
  }

  lemma AppendBurst(trace: seq<Event>, events: seq<Event>, t: TaskId)
    requires NoPostTerminal(trace)
    requires Burst(events, t)
    requires !EndedIn(trace, t)
    ensures NoPostTerminal(trace + events)
  {
  }

  lemma AppendOne(trace: seq<Event>, e: Event)
    ensures NoPostTerminal(trace + [e]) <==>
      NoPostTerminal(trace) && (EventTask(e).Some? ==> !EndedIn(trace, EventTask(e).value))
  {
    var all := trace + [e];
    assert all[|trace|] == e && forall i :: 0 <= i < |trace| ==> all[i] == trace[i];
  }

  lemma EndedInAppend(trace: seq<Event>, events: seq<Event>, t: TaskId)
    ensures EndedIn(trace + events, t) <==> EndedIn(trace, t) || EndedIn(events, t)
  {
    if EndedIn(trace, t) {
      var i :| 0 <= i < |trace| && trace[i].Ended? && trace[i].task == t;
      assert (trace + events)[i] == trace[i];
    }
    if EndedIn(events, t) {
      var i :| 0 <= i < |events| && events[i].Ended? && events[i].task == t;
      assert (trace + events)[|trace| + i] == events[i];
    }
  }

  /** How many `Ended` events of task `t` a trace holds. */
  function EndedCount(trace: seq<Event>, t: TaskId): nat {
    if trace == [] then 0
    else
      EndedCount(trace[..|trace| - 1], t) +
      (if trace[|trace| - 1].Ended? && trace[|trace| - 1].task == t then 1 else 0)
  }

  lemma {:induction false} EndedCountZero(trace: seq<Event>, t: TaskId)
    ensures EndedCount(trace, t) == 0 <==> !EndedIn(trace, t)
  {
    if trace != [] {
      var front, last := trace[..|trace| - 1], trace[|trace| - 1];
      EndedCountZero(front, t);
      assert trace == front + [last];
      EndedInAppend(front, [last], t);
      assert EndedIn([last], t) <==> last.Ended? && last.task == t by {
        assert [last][0] == last;
      }
    }
  }

  /** A trace the checker accepts ends every task exactly once or not at all. */
  lemma {:induction false} EndedAtMostOnce(trace: seq<Event>, t: TaskId)
    requires NoPostTerminal(trace)
    ensures EndedCount(trace, t) == if EndedIn(trace, t) then 1 else 0
  {
    EndedCountZero(trace, t);
    if trace != [] {
      var front, last := trace[..|trace| - 1], trace[|trace| - 1];
      EndedAtMostOnce(front, t);
      assert trace == front + [last];
      EndedInAppend(front, [last], t);
    }
  }

  lemma {:induction false} EndedCountAppend(a: seq<Event>, b: seq<Event>, t: TaskId)
    ensures EndedCount(a + b, t) == EndedCount(a, t) + EndedCount(b, t)
  {
    if b == [] {
      assert a + b == a;
    } else {
      EndedCountAppend(a, b[..|b| - 1], t);
      assert (a + b)[..|a + b| - 1] == a + b[..|b| - 1];
    }
  }
}
