/**
The conformance suite's trace checker
(crates/bastion-agent-runtime/src/conformance.rs), proved sound and complete
for the event ordering requirement, and compositional: a trace passes exactly
when each task's own sub-trace passes.
*/
module Conformance {
  import opened Events

  datatype Verdict = Accepted | Rejected(task: TaskId, event: Event)

  /** Walks the trace keeping the set of ended tasks, as the checker does. */
  method ValidateNoPostTerminalEvents(events: seq<Event>) returns (r: Verdict)
    ensures r.Accepted? <==> NoPostTerminal(events)
    ensures r.Rejected? ==>
      exists i, j :: 0 <= i < j < |events| && events[i].Ended? && events[i].task == r.task
        && events[j] == r.event && EventTask(r.event) == Some(r.task)
        && NoPostTerminal(events[..j])
  {
    var ended: set<TaskId> := {};
    for k := 0 to |events|
      invariant forall t :: t in ended <==> EndedIn(events[..k], t)
      invariant NoPostTerminal(events[..k])
    {
      var e := events[k];
      EndedInExtend(events, k);
      var task := EventTask(e);
      if task.Some? {
        if task.value in ended {
          assert exists i :: 0 <= i < k && events[i].Ended? && events[i].task == task.value by {
            assert EndedIn(events[..k], task.value);
          }
          return Rejected(task.value, e);
        }
        if e.Ended? {
          ended := ended + {task.value};
        }
      }
      AcceptExtend(events, k);
    }
    assert events[..|events|] == events;
    return Accepted;
  }

  lemma EndedInExtend(events: seq<Event>, k: nat)
    requires k < |events|
    ensures forall t :: EndedIn(events[..k + 1], t) <==>
      EndedIn(events[..k], t) || (events[k].Ended? && events[k].task == t)
  {
    assert events[..k + 1] == events[..k] + [events[k]];
    forall t
      ensures EndedIn(events[..k + 1], t) <==>
        EndedIn(events[..k], t) || (events[k].Ended? && events[k].task == t)
    {
      EndedInAppend(events[..k], [events[k]], t);
      assert [events[k]][0] == events[k];
    }
  }

  lemma AcceptExtend(events: seq<Event>, k: nat)
    requires k < |events|
    requires NoPostTerminal(events[..k])
    requires EventTask(events[k]).Some? ==> !EndedIn(events[..k], EventTask(events[k]).value)
    ensures NoPostTerminal(events[..k + 1])
  {
    var longer := events[..k + 1];
    forall i, j | 0 <= i < j < |longer| && longer[i].Ended?
      ensures EventTask(longer[j]) != Some(longer[i].task)
    {
      assert events[..k][i] == longer[i];
      if j < k {
        assert events[..k][j] == longer[j];
      }
    }
  }

  /** The events of one task, in order. */
  function OfTask(events: seq<Event>, t: TaskId): seq<Event> {
    if events == [] then []
    else if EventTask(events[0]) == Some(t) then [events[0]] + OfTask(events[1..], t)
    else OfTask(events[1..], t)
  }

  lemma {:induction false} OfTaskEnded(events: seq<Event>, t: TaskId)
    ensures EndedIn(OfTask(events, t), t) <==> EndedIn(events, t)
    ensures forall i :: 0 <= i < |OfTask(events, t)| ==> EventTask(OfTask(events, t)[i]) == Some(t)
    ensures OfTask(events, t) == [] <==> forall i :: 0 <= i < |events| ==> EventTask(events[i]) != Some(t)
  {
    if events != [] {
      OfTaskEnded(events[1..], t);
      assert events == [events[0]] + events[1..];
      EndedInAppend([events[0]], events[1..], t);
      EndedInAppend([events[0]], OfTask(events[1..], t), t);
      assert [events[0]][0] == events[0];
    }
  }

  /** Recursive reading of the ordering requirement, from the front. */
  lemma NoPostTerminalCons(e: Event, rest: seq<Event>)
    ensures NoPostTerminal([e] + rest) <==>
      NoPostTerminal(rest) &&
      (e.Ended? ==> forall j :: 0 <= j < |rest| ==> EventTask(rest[j]) != Some(e.task))
  {
    var all := [e] + rest;
    if NoPostTerminal(all) {
      forall i, j | 0 <= i < j < |rest| && rest[i].Ended?
        ensures EventTask(rest[j]) != Some(rest[i].task)
      {
        assert all[i + 1] == rest[i] && all[j + 1] == rest[j];
      }
      forall j | 0 <= j < |rest| && e.Ended?
        ensures EventTask(rest[j]) != Some(e.task)
      {
        assert all[0] == e && all[j + 1] == rest[j];
      }
    }
  }

  /** Every task's own sub-trace is accepted. */
  ghost predicate EachTaskAccepted(events: seq<Event>) {
    forall t: TaskId :: NoPostTerminal(OfTask(events, t))
  }

  /** A trace is accepted exactly when every task's own sub-trace is. */
  lemma {:induction false} Compositional(events: seq<Event>)
    ensures NoPostTerminal(events) <==> EachTaskAccepted(events)
  {
    if events == [] {
    } else {
      var e, rest := events[0], events[1..];
      assert events == [e] + rest;
      Compositional(rest);
      NoPostTerminalCons(e, rest);
      if NoPostTerminal(events) {
        forall t: TaskId
          ensures NoPostTerminal(OfTask(events, t))
        {
          OneTaskStep(e, rest, t);
        }
      }
      if EachTaskAccepted(events) {
        forall t: TaskId
          ensures NoPostTerminal(OfTask(rest, t))
        {
          assert NoPostTerminal(OfTask(events, t));
          OneTaskStep(e, rest, t);
        }
        if e.Ended? {
          assert NoPostTerminal(OfTask(events, e.task));
          OneTaskStep(e, rest, e.task);
        }
        assert NoPostTerminal([e] + rest);
      }
    }
  }

  lemma OneTaskStep(e: Event, rest: seq<Event>, t: TaskId)
    ensures NoPostTerminal(OfTask([e] + rest, t)) <==>
      NoPostTerminal(OfTask(rest, t)) &&
      (e.Ended? && e.task == t ==>
        forall j :: 0 <= j < |rest| ==> EventTask(rest[j]) != Some(t))
  {
    assert ([e] + rest)[1..] == rest;
    OfTaskEnded(rest, t);
    if EventTask(e) == Some(t) {
      NoPostTerminalCons(e, OfTask(rest, t));
      if e.Ended? && OfTask(rest, t) != [] {
        assert EventTask(OfTask(rest, t)[0]) == Some(t);
      }
    }
  }
}
