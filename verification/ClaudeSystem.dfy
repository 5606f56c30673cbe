/**
One Claude Code session as a concurrent system
(crates/bastion-agent-runtime/src/claude_code.rs). The stdout reader, the
caller (submit, cancel and respond_permission exclude each other) and one
watchdog per task interleave freely; each acquisition of the state lock is one
step, and the gaps between two acquisitions of one party are program counters.

The harness is a queue: it answers each written user frame with one `result`,
in order, and between two results sends frames of the user frame it is
working on, or session frames that belong to no user frame. Writes to its
stdin may fail at any moment.
*/
module ClaudeSystem {
  import opened Events
  import opened ClaudeState

  datatype CallerPc =
    | Ready
    /** submit released the lock; its user frame is not written yet. */
    | Writing(task: TaskId)
    /** The user frame is written; submit has not returned yet. */
    | Written(task: TaskId)
    /** cancel marked the status and saw `task`. */
    | Cancelling(task: TaskId, kill: bool)
    /** cancel is inside stop_task, past its first lock. */
    | CallerStopping(task: TaskId)

  datatype WatchPc =
    | Watching
    /** The budget was seen spent; the paused check comes next. */
    | Due
    /** The clock was seen running; stop_task comes next. */
    | Firing
    /** Inside stop_task, past its first lock. */
    | Stopping
    | Gone

  datatype ReaderPc =
    | Reading
    /** A frame was read; dispatch has not taken the lock yet. */
    | Holding(frame: Frame, owner: Option<TaskId>)
    /** dispatch released the lock; dispatch_idle has not taken it yet. */
    | Yielded(frame: Frame, owner: Option<TaskId>)
    | ReaderDone

  /** Where an event came from, and how long its task had run undecided-free. */
  datatype Stamp = Stamp(fromFrame: bool, owner: Option<TaskId>, ran: nat)

  datatype Cause = ByAdapter | ByOwner(id: nat)

  datatype Queued = Queued(reply: Reply, cause: Cause)

  /** What a permission id was given out for. */
  datatype Issue = Issue(requestId: string, task: TaskId, request: ControlRequest)

  datatype Config = Config(perTask: nat, mode: string)

  datatype Sys = Sys(
    cfg: Config,
    st: State,
    trace: seq<Event>,
    nextTask: TaskId,
    caller: CallerPc,
    reader: ReaderPc,
    watch: map<TaskId, WatchPc>,
    now: nat,
    // the harness: user frames written whose result the reader has not read
    owed: seq<TaskId>,
    // replies decided, in order; the indices tried, and the indices written
    replies: seq<Queued>,
    tried: set<nat>,
    wire: seq<nat>,
    // history, read by no step
    stamps: seq<Stamp>,
    accepted: set<TaskId>,
    forced: seq<(TaskId, TaskOutcome)>,
    asked: set<string>,
    issued: map<nat, Issue>,
    decided: seq<(nat, Decision)>,
    ran: nat,
    stopBegun: bool)

  function Init(cfg: Config): Sys {
    Sys(cfg, INITIAL_STATE, [], 0, Ready, Reading, map[], 0, [], [], {}, [],
        [], {}, [], {}, map[], [], 0, false)
  }

  datatype Step =
    | Tick(ticks: nat)
    | SubmitStart(hint: bool)
    | SubmitWrite(ok: bool)
    | SubmitReturn(ok: bool)
    | CancelStart(kill: bool)
    | CancelKill
    | CancelStop(order: seq<nat>)
    | CancelForce
    | WatchCheck(t: TaskId)
    | WatchConfirm(t: TaskId)
    | WatchStop(t: TaskId, order: seq<nat>)
    | WatchForce(t: TaskId)
    | ReaderTake(frame: Frame, owner: Option<TaskId>)
    | ReaderDispatch(disk: map<string, string>)
    | ReaderIdle
    | ReaderStop(reason: string)
    | RespondPermission(id: nat, decision: Decision)
    | WriteReply(index: nat, ok: bool)

  /** Applies one critical section: new state, events sent, replies queued. */
  function Commit(s: Sys, e: Effect, stamp: Stamp, cause: Cause): Sys {
    s.(st := e.state,
       trace := s.trace + e.events,
       stamps := s.stamps + seq(|e.events|, i => stamp),
       replies := s.replies + seq(|e.replies|, i requires 0 <= i < |e.replies| => Queued(e.replies[i], cause)))
  }

  function Own(s: Sys): Stamp { Stamp(false, None, s.ran) }

  function SubmitStep(s: Sys, hint: bool): Option<Sys> {
    if s.caller != Ready then None
    else match Submit(s.st, s.nextTask, s.now, hint)
      case Admitted(e) =>
        Some(Commit(s, e, Own(s).(ran := 0), ByAdapter)
             .(nextTask := s.nextTask + 1, caller := Writing(s.nextTask), ran := 0, stopBegun := false))
      case _ => Some(s)
  }

  function SubmitWrittenStep(s: Sys, t: TaskId): Sys {
    s.(owed := s.owed + [t], caller := Written(t))
  }

  function SubmitOkStep(s: Sys, t: TaskId): Sys {
    s.(accepted := s.accepted + {t}, watch := s.watch[t := Watching], caller := Ready)
  }

  function SubmitFailStep(s: Sys, t: TaskId): Sys {
    s.(st := SubmitFailed(s.st, t), caller := Ready)
  }

  function CancelStartStep(s: Sys, kill: bool): Option<Sys> {
    if s.caller != Ready then None
    else Some(s.(st := CancelMark(s.st),
                 caller := if s.st.current.Some? then Cancelling(s.st.current.value, kill) else Ready))
  }

  ghost predicate CanStop(s: Sys, t: TaskId, order: seq<nat>) {
    s.st.current == Some(t) ==> Lists(order, s.st.pending)
  }

  ghost function StopBeginStep(s: Sys, t: TaskId, outcome: TaskOutcome, order: seq<nat>): Sys
    requires CanStop(s, t, order)
  {
    if s.st.current != Some(t) then s
    else Commit(s, StopBegin(s.st, outcome, order), Own(s), ByAdapter)
         .(stopBegun := true, forced := s.forced + [(t, outcome)])
  }

  function StopForceStep(s: Sys, t: TaskId, outcome: TaskOutcome): Sys {
    Commit(s, StopForce(s.st, t, outcome), Own(s), ByAdapter)
  }

  function WatchCheckStep(s: Sys, t: TaskId): Option<Sys> {
    if t !in s.watch || s.watch[t] != Watching then None
    else if s.st.current != Some(t) then Some(s.(watch := s.watch[t := Gone]))
    else if s.st.activeSince.Some? && s.st.activeSince.value <= s.now
            && s.st.activeBefore + (s.now - s.st.activeSince.value) >= s.cfg.perTask
    then Some(s.(watch := s.watch[t := Due]))
    else Some(s)
  }

  function WatchConfirmStep(s: Sys, t: TaskId): Option<Sys> {
    if t !in s.watch || s.watch[t] != Due then None
    else Some(s.(watch := s.watch[t := if s.st.activeSince.None? then Watching else Firing]))
  }

  ghost function WatchStopStep(s: Sys, t: TaskId, order: seq<nat>): Option<Sys> {
    if t !in s.watch || s.watch[t] != Firing || !CanStop(s, t, order) then None
    else
      var stopped := StopBeginStep(s, t, TimedOut, order);
      Some(stopped.(watch := s.watch[t := if s.st.current == Some(t) then Stopping else Gone]))
  }

  function ReaderTakeStep(s: Sys, f: Frame, owner: Option<TaskId>): Option<Sys> {
    if s.reader != Reading then None
    else if owner.Some? && (s.owed == [] || owner.value != s.owed[0]) then None
    else if f.ResultFrame? then
      if owner.None? then None
      else Some(s.(reader := Holding(f, owner), owed := s.owed[1..]))
    else if f.ControlFrame? then
      if f.requestId in s.asked then None
      else Some(s.(reader := Holding(f, owner), asked := s.asked + {f.requestId}))
    else Some(s.(reader := Holding(f, owner)))
  }

  /** dispatch under its first lock: the frame is the current task's, or goes on. */
  function ReaderDispatchStep(s: Sys, disk: map<string, string>): Option<Sys> {
    if !s.reader.Holding? then None
    else if s.st.current.None? || s.st.skipResults != 0 then
      Some(s.(reader := Yielded(s.reader.frame, s.reader.owner)))
    else
      var t, f := s.st.current.value, s.reader.frame;
      var e := Dispatch(s.st, t, f, s.now, s.cfg.mode, disk);
      Some(Commit(s, e, Stamp(true, s.reader.owner, s.ran), ByAdapter)
           .(reader := Reading,
             issued := if f.ControlFrame? && f.request.CanUseTool?
                       then s.issued[s.st.nextPermission := Issue(f.requestId, t, f.request)] else s.issued))
  }

  function ReaderIdleStep(s: Sys): Option<Sys> {
    if !s.reader.Yielded? then None
    else Some(Commit(s, DispatchIdle(s.st, s.reader.frame), Own(s), ByAdapter).(reader := Reading))
  }

  function RespondStep(s: Sys, id: nat, decision: Decision): Option<Sys> {
    if s.caller != Ready then None
    else if id !in s.st.pending then Some(s)
    else
      var after := Commit(s, Respond(s.st, id, decision, s.now), Own(s), ByOwner(id));
      Some(after.(decided := s.decided + [(id, decision)],
                  forced := if decision == Deny(Turn) && s.st.current.Some?
                            then s.forced + [(s.st.current.value, Cancelled)] else s.forced))
  }

  function WriteReplyStep(s: Sys, index: nat, ok: bool): Option<Sys> {
    if index >= |s.replies| || index in s.tried then None
    else Some(s.(tried := s.tried + {index}, wire := if ok then s.wire + [index] else s.wire))
  }

  /** One atomic step of the system; `None` when the step is not enabled. */
  ghost function Apply(s: Sys, step: Step): Option<Sys> {
    match step
    case Tick(ticks) =>
      Some(s.(now := s.now + ticks,
              ran := if s.st.current.Some? && s.st.pending == map[] then s.ran + ticks else s.ran))
    case SubmitStart(hint) => SubmitStep(s, hint)
    case SubmitWrite(ok) =>
      if !s.caller.Writing? then None
      else Some(if ok then SubmitWrittenStep(s, s.caller.task) else SubmitFailStep(s, s.caller.task))
    case SubmitReturn(ok) =>
      if !s.caller.Written? then None
      else Some(if ok then SubmitOkStep(s, s.caller.task) else SubmitFailStep(s, s.caller.task))
    case CancelStart(kill) => CancelStartStep(s, kill)
    case CancelKill =>
      if !s.caller.Cancelling? || !s.caller.kill then None
      else Some(Commit(s, KillNow(s.st, s.caller.task), Own(s), ByAdapter).(caller := Ready))
    case CancelStop(order) =>
      if !s.caller.Cancelling? || s.caller.kill || !CanStop(s, s.caller.task, order) then None
      else Some(StopBeginStep(s, s.caller.task, Cancelled, order)
                .(caller := if s.st.current == Some(s.caller.task) then CallerStopping(s.caller.task) else Ready))
    case CancelForce =>
      if !s.caller.CallerStopping? then None
      else Some(StopForceStep(s, s.caller.task, Cancelled).(caller := Ready))
    case WatchCheck(t) => WatchCheckStep(s, t)
    case WatchConfirm(t) => WatchConfirmStep(s, t)
    case WatchStop(t, order) => WatchStopStep(s, t, order)
    case WatchForce(t) =>
      if t !in s.watch || s.watch[t] != Stopping then None
      else Some(StopForceStep(s, t, TimedOut).(watch := s.watch[t := Gone]))
    case ReaderTake(f, owner) => ReaderTakeStep(s, f, owner)
    case ReaderDispatch(disk) => ReaderDispatchStep(s, disk)
    case ReaderIdle => ReaderIdleStep(s)
    case ReaderStop(reason) =>
      if s.reader != Reading then None
      else Some(Commit(s, ReaderExit(s.st, reason), Own(s), ByAdapter).(reader := ReaderDone))
    case RespondPermission(id, decision) => RespondStep(s, id, decision)
    case WriteReply(index, ok) => WriteReplyStep(s, index, ok)
  }

  /** A whole run: every step enabled in turn. */
  ghost function Run(s: Sys, steps: seq<Step>): Option<Sys> {
    if steps == [] then Some(s)
    else
      var mid := Run(s, steps[..|steps| - 1]);
      if mid.None? then None else Apply(mid.value, steps[|steps| - 1])
  }
}
