/**
The codex turn protocol as a concurrent system
(crates/bastion-agent-runtime/src/codex.rs). Every piece of shared state has
its own lock, so every acquisition is its own step: the stdout reader, the
caller (submit or cancel) and one watchdog per turn interleave between any two
of them. Removing a turn from the task map decides who emits its `Ended`.

The server answers a request only if it was written, gives every started turn
a turn id of its own, and may report any turn completed at any time, also
twice or unasked. The reader's connection stays up.
*/
module CodexTurns {
  import opened Events

  type TurnId = string

  /** What `turn/completed` says on the wire. */
  datatype WireStatus = Completed | Interrupted | FailedTurn(message: string) | Unexpected(status: string)

  function WireOutcome(w: WireStatus): TaskOutcome {
    match w
    case Completed => Success
    case Interrupted => Cancelled
    case FailedTurn(message) => Failed(message)
    case Unexpected(status) => Failed("unexpected turn status: " + status)
  }

  datatype CallerPc =
    | Ready
    /** submit saw no current turn and took a task id. */
    | Admitted(task: TaskId)
    /** The pending entry is in; the request is not written yet. */
    | Registered(task: TaskId, req: nat)
    | Awaiting(task: TaskId, req: nat)
    /** cancel read the current turn. */
    | Cancelling(task: TaskId, turn: TurnId)
    /** cancel removed the turn from the task map and owes its `Ended`. */
    | CancelOwes(task: TaskId, turn: TurnId)

  datatype ReaderPc =
    | Reading
    | StartFound(task: TaskId, req: nat, turn: TurnId)
    | StartMapped(task: TaskId, req: nat, turn: TurnId)
    | StartSet(task: TaskId, req: nat, turn: TurnId)
    | EndRemoved(turn: TurnId, taken: Option<TaskId>, wire: WireStatus)
    | EndCleared(turn: TurnId, taken: Option<TaskId>, wire: WireStatus)
    | EndJudged(turn: TurnId, taken: Option<TaskId>, outcome: TaskOutcome)
    /** The turn of a notification or approval request was looked up; its events are being sent. */
    | Notifying(task: TaskId)

  datatype WatchPc =
    | Sleeping
    /** The task map was seen to hold the turn after the budget. */
    | Seen
    /** The marker is set and the interrupt on its way. */
    | Marked
    /** The watchdog removed the turn and owes its `Ended`. */
    | WatchOwes
    | WatchUnmarked
    | Gone

  datatype Watchdog = Watchdog(pc: WatchPc, task: TaskId)

  datatype Sys = Sys(
    pending: map<nat, TaskId>,
    taskMap: map<TurnId, TaskId>,
    current: Option<(TaskId, TurnId)>,
    timedOut: set<TurnId>,
    nextTask: TaskId,
    nextReq: nat,
    caller: CallerPc,
    reader: ReaderPc,
    watch: map<TurnId, Watchdog>,
    // oneshot answers: the turn id, or None for an error
    answers: map<nat, Option<TurnId>>,
    trace: seq<Event>,
    // the server, and history read by no step of the adapter
    sent: set<nat>,
    turns: set<TurnId>,
    registered: map<TurnId, TaskId>,
    fired: set<TurnId>)

  const INIT := Sys(map[], map[], None, {}, 0, 0, Ready, Reading, map[], map[], [], {}, {}, map[], {})

  datatype Step =
    | SubmitGate
    | SubmitPending
    | SubmitWrite(ok: bool)
    | SubmitReturn
    | CancelRead
    | CancelRemove
    | CancelSend
    | ReadStarted(req: nat, turn: TurnId)
    | ReadRefused(req: nat)
    | MapInsert
    | SetCurrent
    | Respond
    | ReadCompleted(turn: TurnId, wire: WireStatus)
    | ClearCurrent
    | TakeMarker
    | SendEnded
    | ReadNotification(turn: TurnId)
    | SendNotified(event: Event)
    | NotifyDone
    | WatchLook(turn: TurnId)
    | WatchMark(turn: TurnId)
    | WatchRemove(turn: TurnId)
    | WatchUnmark(turn: TurnId)
    | WatchSend(turn: TurnId)

  /** Clears the current turn if it is `turn`. */
  function Cleared(current: Option<(TaskId, TurnId)>, turn: TurnId): Option<(TaskId, TurnId)> {
    if current.Some? && current.value.1 == turn then None else current
  }

  function Lookup(m: map<TurnId, TaskId>, turn: TurnId): Option<TaskId> {
    if turn in m then Some(m[turn]) else None
  }

  function ApplySubmit(s: Sys, step: Step): Option<Sys> {
    match step
    case SubmitGate =>
      if s.caller != Ready then None
      else if s.current.Some? then Some(s)
      else Some(s.(nextTask := s.nextTask + 1, caller := Admitted(s.nextTask)))
    case SubmitPending =>
      if !s.caller.Admitted? then None
      else Some(s.(pending := s.pending[s.nextReq := s.caller.task], nextReq := s.nextReq + 1,
                   caller := Registered(s.caller.task, s.nextReq)))
    case SubmitWrite(ok) =>
      if !s.caller.Registered? then None
      else if ok then Some(s.(sent := s.sent + {s.caller.req}, caller := Awaiting(s.caller.task, s.caller.req)))
      else Some(s.(caller := Ready))
    case SubmitReturn =>
      if !s.caller.Awaiting? || s.caller.req !in s.answers then None
      else
        var answer := s.answers[s.caller.req];
        var watch :=
          if answer.Some? then s.watch[answer.value := Watchdog(Sleeping, s.caller.task)] else s.watch;
        Some(s.(caller := Ready, watch := watch))
    case _ => None
  }

  function ApplyCancel(s: Sys, step: Step): Option<Sys> {
    match step
    case CancelRead =>
      if s.caller != Ready then None
      else if s.current.None? then Some(s)
      else Some(s.(caller := Cancelling(s.current.value.0, s.current.value.1)))
    case CancelRemove =>
      if !s.caller.Cancelling? then None
      else if s.caller.turn in s.taskMap then
        Some(s.(taskMap := s.taskMap - {s.caller.turn}, caller := CancelOwes(s.caller.task, s.caller.turn)))
      else Some(s.(caller := Ready))
    case CancelSend =>
      if !s.caller.CancelOwes? then None
      else Some(s.(current := Cleared(s.current, s.caller.turn),
                   trace := s.trace + [Ended(s.caller.task, Cancelled)], caller := Ready))
    case _ => None
  }

  function ApplyStart(s: Sys, step: Step): Option<Sys> {
    match step
    case ReadStarted(req, turn) =>
      if s.reader != Reading || req !in s.sent || turn in s.turns then None
      else if req !in s.pending then Some(s.(sent := s.sent - {req}, turns := s.turns + {turn}))
      else Some(s.(sent := s.sent - {req}, turns := s.turns + {turn}, pending := s.pending - {req},
                   reader := StartFound(s.pending[req], req, turn)))
    case ReadRefused(req) =>
      if s.reader != Reading || req !in s.sent then None
      else Some(s.(sent := s.sent - {req}, pending := s.pending - {req}, answers := s.answers[req := None]))
    case MapInsert =>
      if !s.reader.StartFound? then None
      else Some(s.(taskMap := s.taskMap[s.reader.turn := s.reader.task],
                   registered := s.registered[s.reader.turn := s.reader.task],
                   reader := StartMapped(s.reader.task, s.reader.req, s.reader.turn)))
    case SetCurrent =>
      if !s.reader.StartMapped? then None
      else Some(s.(current := Some((s.reader.task, s.reader.turn)),
                   reader := StartSet(s.reader.task, s.reader.req, s.reader.turn)))
    case Respond =>
      if !s.reader.StartSet? then None
      else Some(s.(answers := s.answers[s.reader.req := Some(s.reader.turn)], reader := Reading))
    case _ => None
  }

  function ApplyEnd(s: Sys, step: Step): Option<Sys> {
    match step
    case ReadCompleted(turn, wire) =>
      if s.reader != Reading then None
      else Some(s.(taskMap := s.taskMap - {turn}, reader := EndRemoved(turn, Lookup(s.taskMap, turn), wire)))
    case ClearCurrent =>
      if !s.reader.EndRemoved? then None
      else Some(s.(current := Cleared(s.current, s.reader.turn),
                   reader := EndCleared(s.reader.turn, s.reader.taken, s.reader.wire)))
    case TakeMarker =>
      if !s.reader.EndCleared? then None
      else
        var outcome := if s.reader.turn in s.timedOut then TimedOut else WireOutcome(s.reader.wire);
        Some(s.(timedOut := s.timedOut - {s.reader.turn}, reader := EndJudged(s.reader.turn, s.reader.taken, outcome)))
    case SendEnded =>
      if !s.reader.EndJudged? then None
      else
        var sent := if s.reader.taken.Some? then [Ended(s.reader.taken.value, s.reader.outcome)] else [];
        Some(s.(trace := s.trace + sent, reader := Reading))
    case ReadNotification(turn) =>
      if s.reader != Reading then None
      else if turn !in s.taskMap then Some(s)
      else Some(s.(reader := Notifying(s.taskMap[turn])))
    case SendNotified(event) =>
      if !s.reader.Notifying? || EventTask(event) != Some(s.reader.task) || event.Ended? then None
      else Some(s.(trace := s.trace + [event]))
    case NotifyDone =>
      if !s.reader.Notifying? then None else Some(s.(reader := Reading))
    case _ => None
  }

  function ApplyWatch(s: Sys, step: Step): Option<Sys> {
    match step
    case WatchLook(turn) => WatchStep(s, turn, Sleeping, if turn in s.taskMap then Seen else Gone)
    case WatchMark(turn) =>
      WatchStep(s.(timedOut := s.timedOut + {turn}, fired := s.fired + {turn}), turn, Seen, Marked)
    case WatchRemove(turn) =>
      WatchStep(s.(taskMap := s.taskMap - {turn}), turn, Marked, if turn in s.taskMap then WatchOwes else Gone)
    case WatchUnmark(turn) => WatchStep(s.(timedOut := s.timedOut - {turn}), turn, WatchOwes, WatchUnmarked)
    case WatchSend(turn) =>
      if turn !in s.watch then None
      else WatchStep(s.(current := Cleared(s.current, turn),
                        trace := s.trace + [Ended(s.watch[turn].task, TimedOut)]), turn, WatchUnmarked, Gone)
    case _ => None
  }

  /** Moves `turn`'s watchdog from `before` to `after`, if that is where it is. */
  function WatchStep(s: Sys, turn: TurnId, before: WatchPc, after: WatchPc): Option<Sys> {
    if turn in s.watch && s.watch[turn].pc == before
    then Some(s.(watch := s.watch[turn := Watchdog(after, s.watch[turn].task)]))
    else None
  }

  /** One lock acquisition, or one send. `None` when the step is not enabled. */
  function Apply(s: Sys, step: Step): Option<Sys> {
    match step
    case SubmitGate => ApplySubmit(s, step)
    case SubmitPending => ApplySubmit(s, step)
    case SubmitWrite(_) => ApplySubmit(s, step)
    case SubmitReturn => ApplySubmit(s, step)
    case CancelRead => ApplyCancel(s, step)
    case CancelRemove => ApplyCancel(s, step)
    case CancelSend => ApplyCancel(s, step)
    case ReadStarted(_, _) => ApplyStart(s, step)
    case ReadRefused(_) => ApplyStart(s, step)
    case MapInsert => ApplyStart(s, step)
    case SetCurrent => ApplyStart(s, step)
    case Respond => ApplyStart(s, step)
    case WatchLook(_) => ApplyWatch(s, step)
    case WatchMark(_) => ApplyWatch(s, step)
    case WatchRemove(_) => ApplyWatch(s, step)
    case WatchUnmark(_) => ApplyWatch(s, step)
    case WatchSend(_) => ApplyWatch(s, step)
    case _ => ApplyEnd(s, step)
  }

  function Run(s: Sys, steps: seq<Step>): Option<Sys> {
    if steps == [] then Some(s)
    else
      var mid := Run(s, steps[..|steps| - 1]);
      if mid.None? then None else Apply(mid.value, steps[|steps| - 1])
  }
}
