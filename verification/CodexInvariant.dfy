/**
The codex protocol's inductive invariant: a turn is always in exactly one place
(the task map, the hands of the one party that removed it, or ended), and a
timeout marker stays set from the watchdog's mark until the turn is judged.
*/
module CodexInvariant {
  import opened Events
  import opened CodexTurns

  // ---- who holds a removed turn

  function ReaderHolds(r: ReaderPc, turn: TurnId): bool {
    (r.EndRemoved? || r.EndCleared? || r.EndJudged?) && r.turn == turn && r.taken.Some?
  }

  function CallerHolds(c: CallerPc, turn: TurnId): bool {
    c.CancelOwes? && c.turn == turn
  }

  function WatchHolds(watch: map<TurnId, Watchdog>, turn: TurnId): bool {
    turn in watch && (watch[turn].pc == WatchOwes || watch[turn].pc == WatchUnmarked)
  }

  function Count(b: bool): nat { if b then 1 else 0 }

  /** The parties that removed `turn` and still owe its `Ended`. */
  function Holders(s: Sys, turn: TurnId): nat {
    Count(ReaderHolds(s.reader, turn)) + Count(CallerHolds(s.caller, turn)) + Count(WatchHolds(s.watch, turn))
  }

  // ---- identities

  ghost predicate TaskOf(s: Sys, turn: TurnId, t: TaskId) {
    turn in s.registered && s.registered[turn] == t
  }

  /** Tasks still waiting to be given a turn. */
  ghost predicate Unregistered(s: Sys, t: TaskId) {
    t < s.nextTask && forall turn :: turn in s.registered ==> s.registered[turn] != t
  }

  ghost predicate Ids(s: Sys) {
    && (forall turn :: turn in s.registered ==> s.registered[turn] < s.nextTask && turn in s.turns)
    && (forall a, b :: a in s.registered && b in s.registered && a != b ==> s.registered[a] != s.registered[b])
    && (forall turn :: turn in s.taskMap ==> TaskOf(s, turn, s.taskMap[turn]))
    && (forall turn :: turn in s.watch ==> TaskOf(s, turn, s.watch[turn].task))
    && (forall req :: req in s.pending ==> req < s.nextReq)
    && (forall req :: req in s.answers ==> req < s.nextReq)
    && (s.current.Some? ==> TaskOf(s, s.current.value.1, s.current.value.0))
  }

  ghost predicate ReaderIds(s: Sys) {
    match s.reader
    case StartFound(t, _, turn) => Unregistered(s, t) && turn in s.turns && turn !in s.registered
    case StartMapped(t, _, turn) => TaskOf(s, turn, t) && turn !in s.watch
    case StartSet(t, _, turn) => TaskOf(s, turn, t) && turn !in s.watch
    case EndRemoved(turn, task, _) => turn !in s.taskMap && (task.Some? ==> TaskOf(s, turn, task.value))
    case EndCleared(turn, task, _) => turn !in s.taskMap && (task.Some? ==> TaskOf(s, turn, task.value))
    case EndJudged(turn, task, _) => turn !in s.taskMap && (task.Some? ==> TaskOf(s, turn, task.value))
    case _ => true
  }

  ghost predicate CallerIds(s: Sys) {
    match s.caller
    case Ready => s.sent == {}
    case Admitted(t) => Unregistered(s, t) && s.sent == {}
    case Registered(t, req) =>
      Unregistered(s, t) && s.sent == {} && req in s.pending && s.pending[req] == t && req !in s.answers
    case Awaiting(t, req) =>
      && s.sent <= {req} && req < s.nextReq
      && (req in s.sent ==> req in s.pending && s.pending[req] == t && Unregistered(s, t) && req !in s.answers)
      && (req in s.answers && s.answers[req].Some? ==>
            TaskOf(s, s.answers[req].value, t) && s.answers[req].value !in s.watch)
    case Cancelling(t, turn) => TaskOf(s, turn, t) && s.sent == {}
    case CancelOwes(t, turn) => TaskOf(s, turn, t) && turn !in s.taskMap && s.sent == {}
  }

  ghost predicate WatchIds(s: Sys) {
    forall turn :: turn in s.watch && (s.watch[turn].pc == Gone || WatchHolds(s.watch, turn)) ==> turn !in s.taskMap
  }

  // ---- at most one turn

  /** submit is between its gate and the reader's answer. */
  ghost predicate Starting(s: Sys) {
    s.caller.Admitted? || s.caller.Registered? || (s.caller.Awaiting? && s.caller.req !in s.answers)
  }

  ghost predicate OneTurn(s: Sys) {
    match s.reader
    case StartFound(t, req, _) =>
      s.caller == Awaiting(t, req) && req !in s.answers && s.sent == {} && s.current.None? && s.taskMap == map[]
    case StartMapped(t, req, turn) =>
      && s.caller == Awaiting(t, req) && req !in s.answers && s.sent == {}
      && s.current.None? && s.taskMap == map[turn := t]
    case StartSet(t, req, turn) =>
      && s.caller == Awaiting(t, req) && req !in s.answers && s.sent == {}
      && s.current == Some((t, turn)) && s.taskMap == map[turn := t]
    case _ =>
      && (forall turn :: turn in s.taskMap ==> s.current == Some((s.taskMap[turn], turn)))
      && (Starting(s) ==> s.current.None?)
  }

  // ---- conservation

  ghost predicate Conserved(s: Sys) {
    && (forall turn :: turn in s.registered ==>
          Count(turn in s.taskMap) + Holders(s, turn) + EndedCount(s.trace, s.registered[turn]) == 1)
    && (forall t: TaskId ::
          (forall turn :: turn in s.registered ==> s.registered[turn] != t) ==> EndedCount(s.trace, t) == 0)
  }

  // ---- timeouts

  ghost predicate FiredEnd(s: Sys, e: Event) {
    e.Ended? && e.outcome == TimedOut ==> exists turn :: turn in s.fired && TaskOf(s, turn, e.task)
  }

  ghost predicate Markers(s: Sys) {
    && s.timedOut <= s.fired
    && (forall turn :: turn in s.fired ==> turn in s.watch && s.watch[turn].pc != Sleeping && s.watch[turn].pc != Seen)
    && (forall turn :: turn in s.watch && (s.watch[turn].pc == Marked || WatchHolds(s.watch, turn)) ==> turn in s.fired)
    && (forall turn :: turn in s.fired && turn in s.taskMap ==> turn in s.timedOut)
    && ((s.reader.EndRemoved? || s.reader.EndCleared?) && s.reader.taken.Some? && s.reader.turn in s.fired ==>
          s.reader.turn in s.timedOut)
    && (s.reader.EndJudged? && s.reader.taken.Some? && s.reader.outcome == TimedOut ==> s.reader.turn in s.fired)
    && (forall i :: 0 <= i < |s.trace| ==> FiredEnd(s, s.trace[i]))
  }

  /** Who names what: the part of the invariant the other two rest on. */
  ghost predicate Structure(s: Sys) {
    Ids(s) && ReaderIds(s) && CallerIds(s) && WatchIds(s) && OneTurn(s)
  }

  ghost predicate Inv(s: Sys) {
    Structure(s) && Conserved(s) && Markers(s)
  }

  // ---- each invariant, step by step

  lemma SubmitGateStructure(s: Sys)
    requires Structure(s) && ApplySubmit(s, SubmitGate).Some?
    ensures Structure(ApplySubmit(s, SubmitGate).value)
  {
    var s' := ApplySubmit(s, SubmitGate).value;
    assert Ids(s') && WatchIds(s') by {
      hide ReaderIds, CallerIds, OneTurn;
    }
    assert ReaderIds(s') by {
      hide Ids, CallerIds, WatchIds;
    }
  }

  lemma SubmitPendingStructure(s: Sys)
    requires Structure(s) && ApplySubmit(s, SubmitPending).Some?
    ensures Structure(ApplySubmit(s, SubmitPending).value)
  {
    var s' := ApplySubmit(s, SubmitPending).value;
    assert Ids(s') && WatchIds(s') by {
      hide ReaderIds, CallerIds, OneTurn;
    }
    assert ReaderIds(s') by {
      hide Ids, CallerIds, WatchIds;
    }
  }

  /** submit's write, and its return: each part of the structure on its own. */
  lemma SubmitTailStructure(s: Sys, step: Step)
    requires Structure(s) && (step.SubmitWrite? || step.SubmitReturn?) && ApplySubmit(s, step).Some?
    ensures Structure(ApplySubmit(s, step).value)
  {
    hide Ids, ReaderIds, CallerIds, WatchIds, OneTurn, ApplySubmit;
    SubmitTailIds(s, step);
    SubmitTailReader(s, step);
    SubmitTailCaller(s, step);
    SubmitTailOneTurn(s, step);
  }

  lemma SubmitTailIds(s: Sys, step: Step)
    requires Ids(s) && WatchIds(s) && CallerIds(s)
    requires (step.SubmitWrite? || step.SubmitReturn?) && ApplySubmit(s, step).Some?
    ensures Ids(ApplySubmit(s, step).value) && WatchIds(ApplySubmit(s, step).value)
  {
    hide Ids, WatchIds, Unregistered;
    var s' := ApplySubmit(s, step).value;
    if step.SubmitReturn? && s.answers[s.caller.req].Some? {
      WatchedIds(s, s', s.answers[s.caller.req].value, s.caller.task);
    } else {
      UnwatchedIds(s, s');
    }
  }

  /** Ids and watchdogs are kept when a turn gets its sleeping watchdog. */
  lemma WatchedIds(s: Sys, s': Sys, turn: TurnId, task: TaskId)
    requires Ids(s) && WatchIds(s) && TaskOf(s, turn, task)
    requires s' == s.(caller := s'.caller, sent := s'.sent, watch := s.watch[turn := Watchdog(Sleeping, task)])
    ensures Ids(s') && WatchIds(s')
  {
  }

  lemma UnwatchedIds(s: Sys, s': Sys)
    requires Ids(s) && WatchIds(s) && s' == s.(caller := s'.caller, sent := s'.sent)
    ensures Ids(s') && WatchIds(s')
  {
  }

  lemma SubmitTailReader(s: Sys, step: Step)
    requires ReaderIds(s) && OneTurn(s)
    requires (step.SubmitWrite? || step.SubmitReturn?) && ApplySubmit(s, step).Some?
    ensures ReaderIds(ApplySubmit(s, step).value)
  {
  }

  lemma SubmitTailCaller(s: Sys, step: Step)
    requires CallerIds(s) && Ids(s)
    requires (step.SubmitWrite? || step.SubmitReturn?) && ApplySubmit(s, step).Some?
    ensures CallerIds(ApplySubmit(s, step).value)
  {
  }

  lemma SubmitTailOneTurn(s: Sys, step: Step)
    requires OneTurn(s) && (step.SubmitWrite? || step.SubmitReturn?) && ApplySubmit(s, step).Some?
    requires CallerIds(s)
    ensures OneTurn(ApplySubmit(s, step).value)
  {
  }

  /** Outside submit, the caller's pc constrains only itself. */
  lemma CallerPcStructure(s: Sys, caller: CallerPc)
    requires Structure(s) && (s.caller.Ready? || s.caller.Cancelling?)
    requires caller.Ready? || caller.Cancelling? || (caller.CancelOwes? && caller.turn !in s.taskMap)
    requires !caller.Ready? ==> TaskOf(s, caller.turn, caller.task)
    ensures Structure(s.(caller := caller))
  {
    var s' := s.(caller := caller);
    assert Ids(s') && WatchIds(s') by {
      hide ReaderIds, CallerIds, OneTurn;
    }
    assert ReaderIds(s') by {
      hide Ids, CallerIds, OneTurn, WatchIds;
    }
    assert CallerIds(s') by {
      hide Ids, ReaderIds, OneTurn, WatchIds;
    }
  }

  lemma CancelReadStructure(s: Sys)
    requires Structure(s) && ApplyCancel(s, CancelRead).Some?
    ensures Structure(ApplyCancel(s, CancelRead).value)
  {
    hide ReaderIds, CallerIds, OneTurn, WatchIds;
    CallerPcStructure(s, ApplyCancel(s, CancelRead).value.caller);
  }

  lemma CancelRemoveStructure(s: Sys)
    requires Structure(s) && ApplyCancel(s, CancelRemove).Some?
    ensures Structure(ApplyCancel(s, CancelRemove).value)
  {
    hide ReaderIds, WatchIds, Ids;
    var mid := if s.caller.turn in s.taskMap then s.(taskMap := s.taskMap - {s.caller.turn}) else s;
    if s.caller.turn in s.taskMap {
      RemoveStructure(s, s.caller.turn);
    }
    CallerPcStructure(mid, ApplyCancel(s, CancelRemove).value.caller);
  }

  lemma CancelSendStructure(s: Sys, step: Step)
    requires Structure(s) && (step.CancelSend?) && ApplyCancel(s, step).Some?
    ensures Structure(ApplyCancel(s, step).value)
  {
  }

  lemma StartAnswerStructure(s: Sys, step: Step)
    requires Structure(s) && (step.ReadStarted? || step.ReadRefused?) && ApplyStart(s, step).Some?
    ensures Structure(ApplyStart(s, step).value)
  {
  }

  lemma StartMapStructure(s: Sys, step: Step)
    requires Structure(s) && (step.MapInsert?) && ApplyStart(s, step).Some?
    ensures Structure(ApplyStart(s, step).value)
  {
    var s' := ApplyStart(s, step).value;
    assert WatchIds(s') && CallerIds(s') && ReaderIds(s') by {
      hide Ids;
    }
  }

  lemma SetCurrentStructure(s: Sys)
    requires Structure(s) && ApplyStart(s, SetCurrent).Some?
    ensures Structure(ApplyStart(s, SetCurrent).value)
  {
    var s' := ApplyStart(s, SetCurrent).value;
    assert CallerIds(s') && ReaderIds(s') by {
      hide WatchIds, Ids;
    }
  }

  lemma RespondStructure(s: Sys)
    requires Structure(s) && ApplyStart(s, Respond).Some?
    ensures Structure(ApplyStart(s, Respond).value)
  {
    var s' := ApplyStart(s, Respond).value;
    assert CallerIds(s') && ReaderIds(s') by {
      hide WatchIds, Ids;
    }
  }

  lemma EndTakeStructure(s: Sys, step: Step)
    requires Structure(s) && (step.ReadCompleted?) && ApplyEnd(s, step).Some?
    ensures Structure(ApplyEnd(s, step).value)
  {
  }

  lemma EndClearStructure(s: Sys, step: Step)
    requires Structure(s) && (step.ClearCurrent?) && ApplyEnd(s, step).Some?
    ensures Structure(ApplyEnd(s, step).value)
  {
  }

  lemma EndSendStructure(s: Sys, step: Step)
    requires Structure(s) && (step.TakeMarker? || step.SendEnded?) && ApplyEnd(s, step).Some?
    ensures Structure(ApplyEnd(s, step).value)
  {
    hide Structure;
    ReaderPcStructure(s, ApplyEnd(s, step).value);
  }

  lemma NotifyStructure(s: Sys, step: Step)
    requires Structure(s) && ApplyEnd(s, step).Some?
    requires step.ReadNotification? || step.SendNotified? || step.NotifyDone?
    ensures Structure(ApplyEnd(s, step).value)
  {
    hide Structure;
    ReaderPcStructure(s, ApplyEnd(s, step).value);
  }

  lemma WatchMarkStructure(s: Sys, step: Step)
    requires Structure(s) && (step.WatchLook? || step.WatchMark? || step.WatchUnmark?) && ApplyWatch(s, step).Some?
    ensures Structure(ApplyWatch(s, step).value)
  {
    hide Ids, ReaderIds, CallerIds, OneTurn;
    WatchPcStructure(s, ApplyWatch(s, step).value, step.turn);
  }

  lemma WatchTakeStructure(s: Sys, turn: TurnId)
    requires Structure(s) && ApplyWatch(s, WatchRemove(turn)).Some?
    ensures Structure(ApplyWatch(s, WatchRemove(turn)).value)
  {
    hide Ids, ReaderIds, CallerIds, OneTurn;
    var removed := s.(taskMap := s.taskMap - {turn});
    RemoveStructure(s, turn);
    WatchPcStructure(removed, ApplyWatch(s, WatchRemove(turn)).value, turn);
  }

  lemma WatchSendStructure(s: Sys, turn: TurnId)
    requires Structure(s) && ApplyWatch(s, WatchSend(turn)).Some?
    ensures Structure(ApplyWatch(s, WatchSend(turn)).value)
  {
    hide Ids, ReaderIds, CallerIds, OneTurn;
    ClearStructure(s, turn);
    WatchPcStructure(s.(current := Cleared(s.current, turn)), ApplyWatch(s, WatchSend(turn)).value, turn);
  }

  /** Past the start of a turn, the reader's pc constrains only itself. */
  lemma ReaderPcStructure(s: Sys, s': Sys)
    requires Structure(s)
    requires s' == s.(reader := s'.reader, timedOut := s'.timedOut, trace := s'.trace)
    requires s'.reader == s.reader || s'.reader.Reading? || s'.reader.Notifying? ||
      (s.reader.EndCleared? && s'.reader.EndJudged?
       && s'.reader.turn == s.reader.turn && s'.reader.taken == s.reader.taken)
    requires s.reader.Reading? || s.reader.Notifying? || s.reader.EndCleared? || s.reader.EndJudged?
    ensures Structure(s')
  {
    hide Ids, ReaderIds, CallerIds, WatchIds, OneTurn;
    ReaderPcIds(s, s');
    ReaderPcReader(s, s');
    ReaderPcCaller(s, s');
    ReaderPcOneTurn(s, s');
  }

  lemma ReaderPcIds(s: Sys, s': Sys)
    requires Ids(s) && WatchIds(s) && s' == s.(reader := s'.reader, timedOut := s'.timedOut, trace := s'.trace)
    ensures Ids(s') && WatchIds(s')
  {
  }

  lemma ReaderPcReader(s: Sys, s': Sys)
    requires ReaderIds(s) && s' == s.(reader := s'.reader, timedOut := s'.timedOut, trace := s'.trace)
    requires s'.reader == s.reader || s'.reader.Reading? || s'.reader.Notifying? ||
      (s.reader.EndCleared? && s'.reader.EndJudged?
       && s'.reader.turn == s.reader.turn && s'.reader.taken == s.reader.taken)
    ensures ReaderIds(s')
  {
  }

  lemma ReaderPcCaller(s: Sys, s': Sys)
    requires CallerIds(s) && s' == s.(reader := s'.reader, timedOut := s'.timedOut, trace := s'.trace)
    ensures CallerIds(s')
  {
  }

  lemma ReaderPcOneTurn(s: Sys, s': Sys)
    requires OneTurn(s) && s' == s.(reader := s'.reader, timedOut := s'.timedOut, trace := s'.trace)
    requires s.reader.Reading? || s.reader.Notifying? || s.reader.EndCleared? || s.reader.EndJudged?
    requires s'.reader.Reading? || s'.reader.Notifying? || s'.reader.EndCleared? || s'.reader.EndJudged?
    ensures OneTurn(s')
  {
  }

  lemma WatchPcStructure(s: Sys, s': Sys, turn: TurnId)
    requires Structure(s) && turn in s.watch && turn in s'.watch
    requires s'.watch == s.watch[turn := Watchdog(s'.watch[turn].pc, s.watch[turn].task)]
    requires s' == s.(watch := s'.watch, timedOut := s'.timedOut, fired := s'.fired, trace := s'.trace)
    requires s'.watch[turn].pc == Gone || WatchHolds(s'.watch, turn) ==> turn !in s.taskMap
    ensures Structure(s')
  {
    hide Ids, ReaderIds, CallerIds, WatchIds, OneTurn;
    WatchPcIds(s, s', turn);
    assert s'.watch.Keys == s.watch.Keys;
    WatchPcReader(s, s');
    WatchPcCaller(s, s');
    WatchPcOneTurn(s, s');
  }

  lemma WatchPcIds(s: Sys, s': Sys, turn: TurnId)
    requires Ids(s) && WatchIds(s) && turn in s.watch && turn in s'.watch
    requires s'.watch == s.watch[turn := Watchdog(s'.watch[turn].pc, s.watch[turn].task)]
    requires s' == s.(watch := s'.watch, timedOut := s'.timedOut, fired := s'.fired, trace := s'.trace)
    requires s'.watch[turn].pc == Gone || WatchHolds(s'.watch, turn) ==> turn !in s.taskMap
    ensures Ids(s') && WatchIds(s')
  {
  }

  lemma WatchPcReader(s: Sys, s': Sys)
    requires ReaderIds(s) && s'.watch.Keys == s.watch.Keys
    requires s' == s.(watch := s'.watch, timedOut := s'.timedOut, fired := s'.fired, trace := s'.trace)
    ensures ReaderIds(s')
  {
  }

  lemma WatchPcCaller(s: Sys, s': Sys)
    requires CallerIds(s) && s'.watch.Keys == s.watch.Keys
    requires s' == s.(watch := s'.watch, timedOut := s'.timedOut, fired := s'.fired, trace := s'.trace)
    ensures CallerIds(s')
  {
  }

  lemma WatchPcOneTurn(s: Sys, s': Sys)
    requires OneTurn(s)
    requires s' == s.(watch := s'.watch, timedOut := s'.timedOut, fired := s'.fired, trace := s'.trace)
    ensures OneTurn(s')
  {
  }

  lemma RemoveStructure(s: Sys, turn: TurnId)
    requires Structure(s) && (turn in s.watch || s.caller.Cancelling?)
    ensures Structure(s.(taskMap := s.taskMap - {turn}))
  {
    if s.reader.StartMapped? || s.reader.StartSet? {
      assert s.taskMap - {turn} == s.taskMap;
    } else if s.reader.StartFound? {
      assert s.taskMap - {turn} == map[];
    }
  }

  lemma ClearStructure(s: Sys, turn: TurnId)
    requires Structure(s) && turn in s.watch && turn !in s.taskMap
    ensures Structure(s.(current := Cleared(s.current, turn)))
  {
  }

  lemma StructureStep(s: Sys, step: Step)
    requires Structure(s) && Apply(s, step).Some?
    ensures Structure(Apply(s, step).value)
  {
    hide Structure, ApplySubmit, ApplyCancel, ApplyStart, ApplyEnd, ApplyWatch;
    match step
    case SubmitGate => SubmitGateStructure(s);
    case SubmitPending => SubmitPendingStructure(s);
    case SubmitWrite(_) => SubmitTailStructure(s, step);
    case SubmitReturn => SubmitTailStructure(s, step);
    case CancelRead => CancelReadStructure(s);
    case CancelRemove => CancelRemoveStructure(s);
    case CancelSend => CancelSendStructure(s, step);
    case ReadStarted(_, _) => StartAnswerStructure(s, step);
    case ReadRefused(_) => StartAnswerStructure(s, step);
    case MapInsert => StartMapStructure(s, step);
    case SetCurrent => SetCurrentStructure(s);
    case Respond => RespondStructure(s);
    case ReadCompleted(_, _) => EndTakeStructure(s, step);
    case ClearCurrent => EndClearStructure(s, step);
    case TakeMarker => EndSendStructure(s, step);
    case SendEnded => EndSendStructure(s, step);
    case ReadNotification(_) => NotifyStructure(s, step);
    case SendNotified(_) => NotifyStructure(s, step);
    case NotifyDone => NotifyStructure(s, step);
    case WatchLook(_) => WatchMarkStructure(s, step);
    case WatchMark(_) => WatchMarkStructure(s, step);
    case WatchUnmark(_) => WatchMarkStructure(s, step);
    case WatchRemove(turn) => WatchTakeStructure(s, turn);
    case WatchSend(turn) => WatchSendStructure(s, turn);
  }

  // ---- conservation, step by step

  /** How often a registered turn is held or mapped. */
  function Places(s: Sys, turn: TurnId): nat {
    Count(turn in s.taskMap) + Holders(s, turn)
  }

  /** Moving a turn between places, without sending. */
  lemma MoveConserved(s: Sys, s': Sys)
    requires Conserved(s)
    requires s'.registered == s.registered && s'.trace == s.trace
    requires forall turn :: turn in s.registered ==> Places(s', turn) == Places(s, turn)
    ensures Conserved(s')
  {
    hide EndedCount, Holders;
    assert forall turn :: turn in s.registered ==>
      Places(s', turn) == Count(turn in s'.taskMap) + Holders(s', turn);
    assert forall turn :: turn in s.registered ==>
      Places(s, turn) == Count(turn in s.taskMap) + Holders(s, turn);
  }

  /** Sending the owed `Ended` of `turn`: one place fewer, one `Ended` more. */
  lemma SendConserved(s: Sys, s': Sys, turn: TurnId, e: Event)
    requires Conserved(s) && Ids(s) && turn in s.registered
    requires e.Ended? && e.task == s.registered[turn]
    requires s'.registered == s.registered && s'.trace == s.trace + [e]
    requires Places(s', turn) + 1 == Places(s, turn)
    requires forall x :: x in s.registered && x != turn ==> Places(s', x) == Places(s, x)
    ensures Conserved(s')
  {
    hide Holders;
    forall t: TaskId
      ensures EndedCount(s'.trace, t) == EndedCount(s.trace, t) + Count(t == e.task)
    {
      assert s'.trace[..|s'.trace| - 1] == s.trace;
    }
    forall x | x in s.registered
      ensures Count(x in s'.taskMap) + Holders(s', x) + EndedCount(s'.trace, s.registered[x]) == 1
    {
      assert Places(s, x) == Count(x in s.taskMap) + Holders(s, x);
      assert Places(s', x) == Count(x in s'.taskMap) + Holders(s', x);
    }
  }

  lemma ReaderSendConserved(s: Sys)
    requires Inv(s) && ApplyEnd(s, SendEnded).Some?
    ensures Conserved(ApplyEnd(s, SendEnded).value)
  {
    hide CallerIds, WatchIds, OneTurn, Markers;
    var s' := ApplyEnd(s, SendEnded).value;
    if s.reader.taken.Some? {
      SendConserved(s, s', s.reader.turn, Ended(s.reader.taken.value, s.reader.outcome));
    } else {
      assert s'.trace == s.trace;
      MoveConserved(s, s');
    }
  }

  lemma NotifyConserved(s: Sys, event: Event)
    requires Conserved(s) && ApplyEnd(s, SendNotified(event)).Some?
    ensures Conserved(ApplyEnd(s, SendNotified(event)).value)
  {
    var s' := ApplyEnd(s, SendNotified(event)).value;
    assert s'.trace[..|s'.trace| - 1] == s.trace;
    assert forall t :: EndedCount(s'.trace, t) == EndedCount(s.trace, t);
    assert forall turn :: Holders(s', turn) == Holders(s, turn);
  }

  lemma CancelSendConserved(s: Sys)
    requires Inv(s) && ApplyCancel(s, CancelSend).Some?
    ensures Conserved(ApplyCancel(s, CancelSend).value)
  {
    hide ReaderIds, WatchIds, OneTurn, Markers;
    SendConserved(s, ApplyCancel(s, CancelSend).value, s.caller.turn, Ended(s.caller.task, Cancelled));
  }

  lemma WatchSendConserved(s: Sys, turn: TurnId)
    requires Inv(s) && ApplyWatch(s, WatchSend(turn)).Some?
    ensures Conserved(ApplyWatch(s, WatchSend(turn)).value)
  {
    hide ReaderIds, CallerIds, OneTurn, Markers;
    SendConserved(s, ApplyWatch(s, WatchSend(turn)).value, turn, Ended(s.watch[turn].task, TimedOut));
  }

  lemma MapInsertConserved(s: Sys)
    requires Inv(s) && ApplyStart(s, MapInsert).Some?
    ensures Conserved(ApplyStart(s, MapInsert).value)
  {
    hide OneTurn, Markers, EndedCount;
    var s' := ApplyStart(s, MapInsert).value;
    var turn := s.reader.turn;
    assert EndedCount(s.trace, s.reader.task) == 0;
    assert Holders(s', turn) == 0 by {
      assert turn !in s.watch;
    }
    forall x | x in s.registered
      ensures Holders(s', x) == Holders(s, x)
    {
    }
    forall t: TaskId | forall x :: x in s'.registered ==> s'.registered[x] != t
      ensures EndedCount(s.trace, t) == 0
    {
      assert forall x :: x in s.registered ==> s.registered[x] != t by {
        forall x | x in s.registered
          ensures s.registered[x] != t
        {
          assert s'.registered[x] == s.registered[x];
        }
      }
    }
  }

  /** The three removals: the turn leaves the map for its remover's hands. */
  lemma TakeConserved(s: Sys, step: Step)
    requires Inv(s) && Apply(s, step).Some?
    requires step.CancelRemove? || step.ReadCompleted? || step.WatchRemove?
    ensures Conserved(Apply(s, step).value)
  {
    hide EndedCount, Conserved, Markers, OneTurn, Ids, ReaderIds, CallerIds, WatchIds;
    MoveConserved(s, Apply(s, step).value);
  }

  /** submit and the watchdog's marking touch no place. */
  lemma SubmitConserved(s: Sys, step: Step)
    requires Inv(s) && Apply(s, step).Some?
    requires step.SubmitGate? || step.SubmitPending? || step.SubmitWrite? || step.SubmitReturn? || step.CancelRead?
    ensures Conserved(Apply(s, step).value)
  {
    hide EndedCount, Conserved, Markers, OneTurn, Ids, ReaderIds, WatchIds;
    MoveConserved(s, Apply(s, step).value);
  }

  lemma StartConserved(s: Sys, step: Step)
    requires Inv(s) && (step.ReadStarted? || step.ReadRefused? || step.SetCurrent? || step.Respond?)
    requires ApplyStart(s, step).Some?
    ensures Conserved(ApplyStart(s, step).value)
  {
    hide EndedCount, Conserved, Markers, OneTurn, Ids, ReaderIds, WatchIds, CallerIds;
    MoveConserved(s, ApplyStart(s, step).value);
  }

  lemma EndConserved(s: Sys, step: Step)
    requires Inv(s) && (step.ClearCurrent? || step.TakeMarker? || step.ReadNotification? || step.NotifyDone?)
    requires ApplyEnd(s, step).Some?
    ensures Conserved(ApplyEnd(s, step).value)
  {
    hide EndedCount, Conserved, Markers, OneTurn, Ids, ReaderIds, WatchIds, CallerIds;
    MoveConserved(s, ApplyEnd(s, step).value);
  }

  lemma WatchConserved(s: Sys, step: Step)
    requires Inv(s) && (step.WatchLook? || step.WatchMark? || step.WatchUnmark?) && ApplyWatch(s, step).Some?
    ensures Conserved(ApplyWatch(s, step).value)
  {
    hide EndedCount, Conserved, Markers, OneTurn, Ids, ReaderIds, WatchIds, CallerIds;
    MoveConserved(s, ApplyWatch(s, step).value);
  }

  lemma ConservedStep(s: Sys, step: Step)
    requires Inv(s) && Apply(s, step).Some?
    ensures Conserved(Apply(s, step).value)
  {
    hide Inv, Conserved, ApplySubmit, ApplyCancel, ApplyStart, ApplyEnd, ApplyWatch;
    match step
    case SendEnded => ReaderSendConserved(s);
    case SendNotified(event) => assert Conserved(s) by { InvConserved(s); } NotifyConserved(s, event);
    case CancelSend => CancelSendConserved(s);
    case WatchSend(turn) => WatchSendConserved(s, turn);
    case MapInsert => MapInsertConserved(s);
    case CancelRemove => TakeConserved(s, step);
    case ReadCompleted(_, _) => TakeConserved(s, step);
    case WatchRemove(_) => TakeConserved(s, step);
    case SubmitGate => SubmitConserved(s, step);
    case SubmitPending => SubmitConserved(s, step);
    case SubmitWrite(_) => SubmitConserved(s, step);
    case SubmitReturn => SubmitConserved(s, step);
    case CancelRead => SubmitConserved(s, step);
    case ReadStarted(_, _) => StartConserved(s, step);
    case ReadRefused(_) => StartConserved(s, step);
    case SetCurrent => StartConserved(s, step);
    case Respond => StartConserved(s, step);
    case ClearCurrent => EndConserved(s, step);
    case TakeMarker => EndConserved(s, step);
    case ReadNotification(_) => EndConserved(s, step);
    case NotifyDone => EndConserved(s, step);
    case _ => WatchConserved(s, step);
  }

  lemma InvConserved(s: Sys)
    requires Inv(s)
    ensures Conserved(s)
  {
  }

  // ---- timeout markers, step by step

  /** Markers reads neither the caller nor the pending requests. */
  lemma SameMarkers(s: Sys, s': Sys)
    requires Markers(s)
    requires s'.reader == s.reader || !(s'.reader.EndRemoved? || s'.reader.EndCleared? || s'.reader.EndJudged?)
    requires forall turn :: turn in s'.taskMap ==> turn in s.taskMap
    requires s'.timedOut == s.timedOut && s'.watch == s.watch
      && s'.trace == s.trace && s'.registered == s.registered && s'.fired == s.fired
    ensures Markers(s')
  {
    assert forall e :: FiredEnd(s, e) ==> FiredEnd(s', e);
  }

  lemma SubmitMarkers(s: Sys, step: Step)
    requires Inv(s) && !step.SubmitReturn? && ApplySubmit(s, step).Some?
    ensures Markers(ApplySubmit(s, step).value)
  {
    hide Markers, Conserved, Structure;
    SameMarkers(s, ApplySubmit(s, step).value);
  }

  lemma ReturnMarkers(s: Sys)
    requires Inv(s) && ApplySubmit(s, SubmitReturn).Some?
    ensures Markers(ApplySubmit(s, SubmitReturn).value)
  {
    hide Conserved, OneTurn, ReaderIds, WatchIds, Ids;
    var s' := ApplySubmit(s, SubmitReturn).value;
    assert forall e :: FiredEnd(s, e) ==> FiredEnd(s', e);
  }

  lemma CancelMarkers(s: Sys, step: Step)
    requires Inv(s) && ApplyCancel(s, step).Some?
    ensures Markers(ApplyCancel(s, step).value)
  {
    hide Conserved, OneTurn, ReaderIds, WatchIds, CallerIds;
    if step.CancelSend? {
      CancelSendMarkers(s);
    } else {
      CancelTakeMarkers(s, step);
    }
    hide Inv, Markers, ApplyCancel;
  }

  lemma CancelTakeMarkers(s: Sys, step: Step)
    requires Inv(s) && !step.CancelSend? && ApplyCancel(s, step).Some?
    ensures Markers(ApplyCancel(s, step).value)
  {
    hide Conserved, Structure, Markers;
    SameMarkers(s, ApplyCancel(s, step).value);
  }

  lemma CancelSendMarkers(s: Sys)
    requires Inv(s) && ApplyCancel(s, CancelSend).Some?
    ensures Markers(ApplyCancel(s, CancelSend).value)
  {
    hide Conserved, OneTurn, ReaderIds, WatchIds, CallerIds;
    var s' := ApplyCancel(s, CancelSend).value;
    assert forall e :: FiredEnd(s, e) ==> FiredEnd(s', e);
  }

  lemma StartMarkers(s: Sys, step: Step)
    requires Inv(s) && !step.MapInsert? && ApplyStart(s, step).Some?
    ensures Markers(ApplyStart(s, step).value)
  {
    hide Markers, Conserved, Structure;
    SameMarkers(s, ApplyStart(s, step).value);
  }

  lemma MapInsertMarkers(s: Sys)
    requires Inv(s) && ApplyStart(s, MapInsert).Some?
    ensures Markers(ApplyStart(s, MapInsert).value)
  {
    hide Conserved, OneTurn, CallerIds, WatchIds;
    var s' := ApplyStart(s, MapInsert).value;
    forall e | FiredEnd(s, e)
      ensures FiredEnd(s', e)
    {
      if e.Ended? && e.outcome == TimedOut {
        var turn :| turn in s.fired && TaskOf(s, turn, e.task);
        assert TaskOf(s', turn, e.task);
      }
    }
  }

  /**
  The reader's ending of a turn: the marker is set exactly when the watchdog
  fired, from the removal to the moment the reader takes it.
  */
  lemma EndMarkers(s: Sys, step: Step)
    requires Inv(s) && ApplyEnd(s, step).Some?
    ensures Markers(ApplyEnd(s, step).value)
  {
    hide Conserved, OneTurn, CallerIds, WatchIds;
    if step.SendEnded? || step.SendNotified? {
      SendMarkers(s, step);
    } else {
      hide Ids, ReaderIds;
      var s' := ApplyEnd(s, step).value;
      assert forall e :: FiredEnd(s, e) ==> FiredEnd(s', e);
    }
  }

  lemma SendMarkers(s: Sys, step: Step)
    requires Inv(s) && (step.SendEnded? || step.SendNotified?) && ApplyEnd(s, step).Some?
    ensures Markers(ApplyEnd(s, step).value)
  {
    hide Conserved, OneTurn, CallerIds, WatchIds;
    var s' := ApplyEnd(s, step).value;
    assert forall e :: FiredEnd(s, e) ==> FiredEnd(s', e);
    if step.SendEnded? && s.reader.taken.Some? && s.reader.outcome == TimedOut {
      assert TaskOf(s', s.reader.turn, s.reader.taken.value);
    }
  }

  /** A turn the watchdog removed is in nobody else's hands. */
  lemma OneHolder(s: Sys, turn: TurnId)
    requires Conserved(s) && turn in s.registered && WatchHolds(s.watch, turn)
    ensures !ReaderHolds(s.reader, turn) && turn !in s.taskMap
  {
  }

  lemma WatchMarkMarkers(s: Sys, turn: TurnId)
    requires Inv(s) && ApplyWatch(s, WatchMark(turn)).Some?
    ensures Markers(ApplyWatch(s, WatchMark(turn)).value)
  {
    hide Conserved, OneTurn, CallerIds, ReaderIds, WatchIds, Ids;
    var s' := ApplyWatch(s, WatchMark(turn)).value;
    assert forall e :: FiredEnd(s, e) ==> FiredEnd(s', e);
  }

  lemma WatchRemoveMarkers(s: Sys, step: Step)
    requires Inv(s) && (step.WatchLook? || step.WatchRemove?) && ApplyWatch(s, step).Some?
    ensures Markers(ApplyWatch(s, step).value)
  {
    hide Conserved, OneTurn, CallerIds, ReaderIds, WatchIds, Ids;
    var s' := ApplyWatch(s, step).value;
    assert forall e :: FiredEnd(s, e) ==> FiredEnd(s', e);
  }

  lemma WatchUnmarkMarkers(s: Sys, turn: TurnId)
    requires Inv(s) && ApplyWatch(s, WatchUnmark(turn)).Some?
    ensures Markers(ApplyWatch(s, WatchUnmark(turn)).value)
  {
    hide Conserved, OneTurn, CallerIds, ReaderIds, WatchIds;
    var s' := ApplyWatch(s, WatchUnmark(turn)).value;
    assert forall e :: FiredEnd(s, e) ==> FiredEnd(s', e);
    OneHolder(s, turn);
  }

  lemma WatchSendMarkers(s: Sys, turn: TurnId)
    requires Inv(s) && ApplyWatch(s, WatchSend(turn)).Some?
    ensures Markers(ApplyWatch(s, WatchSend(turn)).value)
  {
    hide Conserved, OneTurn, CallerIds, ReaderIds, WatchIds;
    var s' := ApplyWatch(s, WatchSend(turn)).value;
    assert forall e :: FiredEnd(s, e) ==> FiredEnd(s', e);
    assert TaskOf(s', turn, s.watch[turn].task) && turn in s'.fired;
  }

  lemma MarkersStep(s: Sys, step: Step)
    requires Inv(s) && Apply(s, step).Some?
    ensures Markers(Apply(s, step).value)
  {
    hide Inv, Markers, ApplySubmit, ApplyCancel, ApplyStart, ApplyEnd, ApplyWatch;
    match step
    case SubmitGate => SubmitMarkers(s, step);
    case SubmitPending => SubmitMarkers(s, step);
    case SubmitWrite(_) => SubmitMarkers(s, step);
    case SubmitReturn => ReturnMarkers(s);
    case CancelRead => CancelMarkers(s, step);
    case CancelRemove => CancelMarkers(s, step);
    case CancelSend => CancelMarkers(s, step);
    case ReadStarted(_, _) => StartMarkers(s, step);
    case ReadRefused(_) => StartMarkers(s, step);
    case MapInsert => MapInsertMarkers(s);
    case SetCurrent => StartMarkers(s, step);
    case Respond => StartMarkers(s, step);
    case WatchLook(_) => WatchRemoveMarkers(s, step);
    case WatchMark(turn) => WatchMarkMarkers(s, turn);
    case WatchRemove(_) => WatchRemoveMarkers(s, step);
    case WatchUnmark(turn) => WatchUnmarkMarkers(s, turn);
    case WatchSend(turn) => WatchSendMarkers(s, turn);
    case _ => EndMarkers(s, step);
  }
}
