/**
The codex adapter's shared maps in the form the source gives them: one object,
each method one lock acquisition, and the three parties' endings written as the
sequences of acquisitions they are. CodexTurns interleaves the same sections.
*/
module CodexShared {
  import opened Events
  import opened CodexTurns

  class Shared {
    var pending: map<nat, TaskId>
    var taskMap: map<TurnId, TaskId>
    var current: Option<(TaskId, TurnId)>
    var timedOut: set<TurnId>
    var sent: seq<Event>

    constructor ()
      ensures pending == map[] && taskMap == map[] && current == None && timedOut == {} && sent == []
    {
      pending, taskMap, current, timedOut, sent := map[], map[], None, {}, [];
    }

    method TakePending(req: nat) returns (task: Option<TaskId>)
      modifies `pending
      ensures pending == old(pending) - {req}
      ensures task == if req in old(pending) then Some(old(pending)[req]) else None
    {
      task := if req in pending then Some(pending[req]) else None;
      pending := pending - {req};
    }

    /** complete_pending for a started turn: the map first, then the current turn. */
    method TurnStarted(task: TaskId, turn: TurnId)
      modifies `taskMap, `current
      ensures taskMap == old(taskMap)[turn := task] && current == Some((task, turn))
    {
      taskMap := taskMap[turn := task];
      current := Some((task, turn));
    }

    method RemoveTurn(turn: TurnId) returns (taken: Option<TaskId>)
      modifies `taskMap
      ensures taskMap == old(taskMap) - {turn} && taken == Lookup(old(taskMap), turn)
    {
      taken := if turn in taskMap then Some(taskMap[turn]) else None;
      taskMap := taskMap - {turn};
    }

    method ClearCurrent(turn: TurnId)
      modifies `current
      ensures current == Cleared(old(current), turn)
    {
      if current.Some? && current.value.1 == turn {
        current := None;
      }
    }

    method TakeMarker(turn: TurnId) returns (marked: bool)
      modifies `timedOut
      ensures timedOut == old(timedOut) - {turn} && (marked <==> turn in old(timedOut))
    {
      marked := turn in timedOut;
      timedOut := timedOut - {turn};
    }

    /** The reader's `turn/completed`. */
    method TurnCompleted(turn: TurnId, wire: WireStatus)
      modifies this
      ensures taskMap == old(taskMap) - {turn} && current == Cleared(old(current), turn)
      ensures timedOut == old(timedOut) - {turn} && pending == old(pending)
      ensures sent == old(sent) +
        if turn in old(taskMap)
        then [Ended(old(taskMap)[turn], if turn in old(timedOut) then TimedOut else WireOutcome(wire))] else []
    {
      var taken := RemoveTurn(turn);
      ClearCurrent(turn);
      var marked := TakeMarker(turn);
      if taken.Some? {
        sent := sent + [Ended(taken.value, if marked then TimedOut else WireOutcome(wire))];
      }
    }

    /** cancel, after the interrupt and the grace period. */
    method CancelTurn(task: TaskId, turn: TurnId)
      modifies this
      ensures taskMap == old(taskMap) - {turn} && timedOut == old(timedOut) && pending == old(pending)
      ensures current == if turn in old(taskMap) then Cleared(old(current), turn) else old(current)
      ensures sent == old(sent) + if turn in old(taskMap) then [Ended(task, Cancelled)] else []
    {
      var taken := RemoveTurn(turn);
      if taken.Some? {
        ClearCurrent(turn);
        sent := sent + [Ended(task, Cancelled)];
      }
    }

    /** The watchdog's first half, before the interrupt. */
    method MarkTimedOut(turn: TurnId) returns (active: bool)
      modifies `timedOut
      ensures active <==> turn in taskMap
      ensures timedOut == if active then old(timedOut) + {turn} else old(timedOut)
    {
      active := turn in taskMap;
      if active {
        timedOut := timedOut + {turn};
      }
    }

    /** The watchdog's second half, after the harness had its time to answer. */
    method EndTimedOut(task: TaskId, turn: TurnId)
      modifies this
      ensures taskMap == old(taskMap) - {turn} && pending == old(pending)
      ensures turn in old(taskMap) ==>
        timedOut == old(timedOut) - {turn} && current == Cleared(old(current), turn)
        && sent == old(sent) + [Ended(task, TimedOut)]
      ensures turn !in old(taskMap) ==> timedOut == old(timedOut) && current == old(current) && sent == old(sent)
    {
      var taken := RemoveTurn(turn);
      if taken.Some? {
        var _ := TakeMarker(turn);
        ClearCurrent(turn);
        sent := sent + [Ended(task, TimedOut)];
      }
    }
  }

  /**
  Left undisturbed, the reader's four steps of the interleaved system do what
  TurnCompleted does: the small steps cut the method, they do not change it.
  */
  lemma UndisturbedCompletion(s: Sys, turn: TurnId, wire: WireStatus)
    requires s.reader == Reading
    ensures var end := Run(s, [ReadCompleted(turn, wire), ClearCurrent, TakeMarker, SendEnded]);
      && end.Some? && end.value.reader == Reading
      && end.value.taskMap == s.taskMap - {turn} && end.value.current == Cleared(s.current, turn)
      && end.value.timedOut == s.timedOut - {turn}
      && end.value.trace == s.trace +
        (if turn in s.taskMap
         then [Ended(s.taskMap[turn], if turn in s.timedOut then TimedOut else WireOutcome(wire))] else [])
  {
    hide ApplySubmit, ApplyCancel, ApplyStart, ApplyWatch;
    hide Run;
    var one := Apply(s, ReadCompleted(turn, wire)).value;
    var two := Apply(one, ClearCurrent).value;
    var three := Apply(two, TakeMarker).value;
    FourSteps(s, ReadCompleted(turn, wire), ClearCurrent, TakeMarker, SendEnded, one, two, three);
  }

  /** The reader's four steps for a started turn do what TakePending and TurnStarted do. */
  lemma UndisturbedStart(s: Sys, req: nat, turn: TurnId)
    requires s.reader == Reading && req in s.sent && req in s.pending && turn !in s.turns
    ensures var end := Run(s, [ReadStarted(req, turn), MapInsert, SetCurrent, Respond]);
      && end.Some? && end.value.reader == Reading && end.value.trace == s.trace
      && end.value.pending == s.pending - {req}
      && end.value.taskMap == s.taskMap[turn := s.pending[req]]
      && end.value.current == Some((s.pending[req], turn))
      && end.value.answers == s.answers[req := Some(turn)]
  {
    hide Run, ApplySubmit, ApplyCancel, ApplyEnd, ApplyWatch;
    var one := Apply(s, ReadStarted(req, turn)).value;
    var two := Apply(one, MapInsert).value;
    var three := Apply(two, SetCurrent).value;
    FourSteps(s, ReadStarted(req, turn), MapInsert, SetCurrent, Respond, one, two, three);
  }

  /** A cancel's steps do what CancelTurn does on the turn it read. */
  lemma UndisturbedCancel(s: Sys, task: TaskId, turn: TurnId)
    requires s.caller == CallerPc.Ready && s.current == Some((task, turn))
    ensures var end := Run(s, [CancelRead, CancelRemove] + if turn in s.taskMap then [CancelSend] else []);
      && end.Some? && end.value.caller == CallerPc.Ready && end.value.taskMap == s.taskMap - {turn}
      && end.value.current == (if turn in s.taskMap then Cleared(s.current, turn) else s.current)
      && end.value.trace == s.trace + if turn in s.taskMap then [Ended(task, Cancelled)] else []
  {
    hide Run, ApplySubmit, ApplyStart, ApplyEnd, ApplyWatch;
    var one := Apply(s, CancelRead).value;
    var two := Apply(one, CancelRemove).value;
    TwoSteps(s, CancelRead, CancelRemove, one);
    if turn in s.taskMap {
      ThreeSteps(s, CancelRead, CancelRemove, CancelSend, one, two);
      assert [CancelRead, CancelRemove] + [CancelSend] == [CancelRead, CancelRemove, CancelSend];
    } else {
      assert [CancelRead, CancelRemove] + [] == [CancelRead, CancelRemove];
      assert s.taskMap - {turn} == s.taskMap;
    }
  }

  /** A watchdog's first steps do what MarkTimedOut does. */
  lemma UndisturbedMark(s: Sys, turn: TurnId)
    requires turn in s.watch && s.watch[turn].pc == Sleeping
    ensures var end := Run(s, [WatchLook(turn)] + if turn in s.taskMap then [WatchMark(turn)] else []);
      && end.Some? && end.value.taskMap == s.taskMap && end.value.trace == s.trace
      && end.value.timedOut == (if turn in s.taskMap then s.timedOut + {turn} else s.timedOut)
      && turn in end.value.watch && end.value.watch[turn].pc == if turn in s.taskMap then Marked else Gone
  {
    hide Run, ApplySubmit, ApplyStart, ApplyEnd, ApplyCancel;
    OneStep(s, WatchLook(turn));
    var one := Apply(s, WatchLook(turn)).value;
    if turn in s.taskMap {
      TwoSteps(s, WatchLook(turn), WatchMark(turn), one);
      assert [WatchLook(turn)] + [WatchMark(turn)] == [WatchLook(turn), WatchMark(turn)];
    } else {
      assert [WatchLook(turn)] + [] == [WatchLook(turn)];
    }
  }

  /** A watchdog's last steps do what EndTimedOut does. */
  lemma UndisturbedTimeout(s: Sys, task: TaskId, turn: TurnId)
    requires turn in s.watch && s.watch[turn] == Watchdog(Marked, task)
    ensures var end :=
        Run(s, [WatchRemove(turn)] + if turn in s.taskMap then [WatchUnmark(turn), WatchSend(turn)] else []);
      && end.Some? && end.value.taskMap == s.taskMap - {turn}
      && end.value.timedOut == (if turn in s.taskMap then s.timedOut - {turn} else s.timedOut)
      && end.value.current == (if turn in s.taskMap then Cleared(s.current, turn) else s.current)
      && end.value.trace == s.trace + if turn in s.taskMap then [Ended(task, TimedOut)] else []
  {
    hide Run, ApplySubmit, ApplyStart, ApplyEnd, ApplyCancel;
    OneStep(s, WatchRemove(turn));
    var one := Apply(s, WatchRemove(turn)).value;
    if turn in s.taskMap {
      var two := Apply(one, WatchUnmark(turn)).value;
      ThreeSteps(s, WatchRemove(turn), WatchUnmark(turn), WatchSend(turn), one, two);
      assert [WatchRemove(turn)] + [WatchUnmark(turn), WatchSend(turn)] ==
        [WatchRemove(turn), WatchUnmark(turn), WatchSend(turn)];
    } else {
      assert [WatchRemove(turn)] + [] == [WatchRemove(turn)];
    }
  }

  // ---- runs of a few steps

  lemma OneStep(s: Sys, a: Step)
    ensures Run(s, [a]) == Apply(s, a)
  {
    hide Apply;
    assert [a][..0] == [];
  }

  lemma TwoSteps(s: Sys, a: Step, b: Step, one: Sys)
    requires Apply(s, a) == Some(one)
    ensures Run(s, [a, b]) == Apply(one, b)
  {
    hide Apply;
    OneStep(s, a);
    assert [a, b][..1] == [a];
  }

  lemma ThreeSteps(s: Sys, a: Step, b: Step, c: Step, one: Sys, two: Sys)
    requires Apply(s, a) == Some(one) && Apply(one, b) == Some(two)
    ensures Run(s, [a, b, c]) == Apply(two, c)
  {
    hide Apply;
    TwoSteps(s, a, b, one);
    assert [a, b, c][..2] == [a, b];
  }

  lemma FourSteps(s: Sys, a: Step, b: Step, c: Step, d: Step, one: Sys, two: Sys, three: Sys)
    requires Apply(s, a) == Some(one) && Apply(one, b) == Some(two) && Apply(two, c) == Some(three)
    ensures Run(s, [a, b, c, d]) == Apply(three, d)
  {
    hide Apply;
    ThreeSteps(s, a, b, c, one, two);
    assert [a, b, c, d][..3] == [a, b, c];
  }
}
