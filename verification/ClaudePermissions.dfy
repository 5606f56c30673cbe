/**
Permission answers in the Claude adapter. Over every run each harness request
is answered at most once, `allow` only by the owner's own decision on the id
issued for that request, and ids are never reused.
*/
module ClaudePermissions {
  import opened Events
  import opened ClaudeState
  import opened ClaudeSystem
  import opened ClaudeLifecycle

  ghost predicate Replied(replies: seq<Queued>, requestId: string) {
    exists i :: 0 <= i < |replies| && replies[i].reply.requestId == requestId
  }

  ghost predicate RepliesDistinct(replies: seq<Queued>) {
    forall i, j :: 0 <= i < j < |replies| ==> replies[i].reply.requestId != replies[j].reply.requestId
  }

  /** Every pending id names the request it was issued for, still unanswered. */
  ghost predicate PendingOk(s: Sys) {
    forall id :: id in s.st.pending ==>
      && id in s.issued && s.issued[id].requestId == s.st.pending[id].requestId
      && s.issued[id].request.CanUseTool? && s.issued[id].request.input == s.st.pending[id].input
      && (s.st.current.Some? ==> s.issued[id].task == s.st.current.value)
      && !Replied(s.replies, s.st.pending[id].requestId)
      && (forall k :: 0 <= k < |s.decided| ==> s.decided[k].0 != id)
  }

  ghost predicate IssuedOk(s: Sys) {
    && (forall id :: id in s.issued ==>
          id < s.st.nextPermission && s.issued[id].requestId in s.asked && s.issued[id].request.CanUseTool?)
    && (forall a, b :: a in s.issued && b in s.issued && a != b ==> s.issued[a].requestId != s.issued[b].requestId)
  }

  /** The control request in the reader's hands has been given no id and no answer. */
  ghost predicate HeldOk(s: Sys) {
    (s.reader.Holding? || s.reader.Yielded?) && s.reader.frame.ControlFrame? ==>
      && s.reader.frame.requestId in s.asked
      && !Replied(s.replies, s.reader.frame.requestId)
      && (forall id :: id in s.issued ==> s.issued[id].requestId != s.reader.frame.requestId)
  }

  /** How a decision goes on the wire: an allowed tool gets the input it asked with. */
  ghost predicate Carries(v: Verdict, d: Decision, input: string) {
    match d
    case Allow => v == Allowed(input)
    case Deny(Instance) => v == Denied(false)
    case Deny(Turn) => v == Denied(true)
  }

  /** Why a reply was sent: an owner's is some decision on the id issued for it. */
  ghost predicate CauseOk(s: Sys, q: Queued) {
    && q.reply.requestId in s.asked
    && (q.cause.ByOwner? ==>
          && q.cause.id in s.issued && s.issued[q.cause.id].requestId == q.reply.requestId
          && s.issued[q.cause.id].request.CanUseTool?
          && exists d ::
               (q.cause.id, d) in s.decided && Carries(q.reply.verdict, d, s.issued[q.cause.id].request.input))
    && (q.cause.ByAdapter? ==> q.reply.verdict == Denied(true) || q.reply.verdict.Unsupported?)
  }

  ghost predicate RepliesOk(s: Sys) {
    && RepliesDistinct(s.replies)
    && (forall i :: 0 <= i < |s.replies| ==> CauseOk(s, s.replies[i]))
  }

  ghost predicate DecidedOk(s: Sys) {
    && (forall k :: 0 <= k < |s.decided| ==> s.decided[k].0 in s.issued)
    && (forall k, m :: 0 <= k < m < |s.decided| ==> s.decided[k].0 != s.decided[m].0)
  }

  ghost predicate WireOk(s: Sys) {
    && (forall k :: 0 <= k < |s.wire| ==> s.wire[k] < |s.replies| && s.wire[k] in s.tried)
    && (forall k, m :: 0 <= k < m < |s.wire| ==> s.wire[k] != s.wire[m])
  }

  ghost predicate PermissionsOk(s: Sys) {
    PendingOk(s) && IssuedOk(s) && HeldOk(s) && RepliesOk(s) && DecidedOk(s) && WireOk(s)
  }

  lemma RepliedAppend(replies: seq<Queued>, more: seq<Queued>, requestId: string)
    ensures Replied(replies + more, requestId) <==> Replied(replies, requestId) || Replied(more, requestId)
  {
    if Replied(replies, requestId) {
      var i :| 0 <= i < |replies| && replies[i].reply.requestId == requestId;
      assert (replies + more)[i] == replies[i];
    }
    if Replied(more, requestId) {
      var i :| 0 <= i < |more| && more[i].reply.requestId == requestId;
      assert (replies + more)[|replies| + i] == more[i];
    }
  }

  /** A section that queues no reply and only shrinks `pending`. */
  lemma ShrinkKeeps(s: Sys, s': Sys)
    requires PermissionsOk(s)
    requires s'.replies == s.replies && s'.tried == s.tried && s'.wire == s.wire && s'.issued == s.issued
      && s'.asked == s.asked && s'.decided == s.decided
    requires s'.st.nextPermission == s.st.nextPermission
    requires s'.reader == s.reader || s'.reader == Reading || s'.reader == ReaderDone
      || (s.reader.Holding? && s'.reader == Yielded(s.reader.frame, s.reader.owner))
    requires s'.st.pending == map[] ||
      (s'.st.pending == s.st.pending && (s'.st.current == s.st.current || s'.st.current.None?))
    ensures PermissionsOk(s')
  {
    assert forall q :: CauseOk(s, q) ==> CauseOk(s', q);
  }

  /** One reply of the adapter's own, to the request the reader holds. */
  lemma HeldReplyKeeps(s: Sys, s': Sys, q: Queued)
    requires PermissionsOk(s)
    requires (s.reader.Holding? || s.reader.Yielded?) && s.reader.frame.ControlFrame?
    requires q.reply.requestId == s.reader.frame.requestId && q.cause == ByAdapter
    requires q.reply.verdict == Denied(true) || q.reply.verdict.Unsupported?
    requires s' == s.(replies := s.replies + [q], reader := Reading)
    ensures PermissionsOk(s')
  {
    forall id | id in s.st.pending
      ensures !Replied(s'.replies, s.st.pending[id].requestId)
    {
      RepliedAppend(s.replies, [q], s.st.pending[id].requestId);
    }
    assert forall x :: CauseOk(s, x) ==> CauseOk(s', x);
    forall i | 0 <= i < |s.replies|
      ensures s.replies[i].reply.requestId != q.reply.requestId
    {
    }
  }

  lemma RaiseKeeps(s: Sys, s': Sys, e: Effect, t: TaskId)
    requires PermissionsOk(s) && Raises(s, s', e, t)
    ensures PermissionsOk(s')
  {
    hide PendingOk, IssuedOk, HeldOk, RepliesOk, DecidedOk, WireOk, Raises;
    RaisePending(s, s', e, t);
    RaiseReplies(s, s', e, t);
    RaiseIssued(s, s', e, t);
  }

  /** `s'` is `s` after the held request was given the next id. */
  ghost predicate Raises(s: Sys, s': Sys, e: Effect, t: TaskId) {
    && s.reader.Holding? && s.reader.frame.ControlFrame? && s.reader.frame.request.CanUseTool?
    && s.st.current == Some(t)
    && e == RaisePermission(s.st, t, s.reader.frame.requestId, s.reader.frame.request, s.now)
    && s'.st == e.state && s'.replies == s.replies && s'.tried == s.tried && s'.wire == s.wire
    && s'.asked == s.asked && s'.decided == s.decided && s'.reader == Reading
    && s'.issued == s.issued[s.st.nextPermission := Issue(s.reader.frame.requestId, t, s.reader.frame.request)]
  }

  lemma RaisePending(s: Sys, s': Sys, e: Effect, t: TaskId)
    requires PendingOk(s) && IssuedOk(s) && HeldOk(s) && DecidedOk(s) && Raises(s, s', e, t)
    ensures PendingOk(s')
  {
    hide Replied;
  }

  lemma RaiseReplies(s: Sys, s': Sys, e: Effect, t: TaskId)
    requires RepliesOk(s) && IssuedOk(s) && Raises(s, s', e, t)
    ensures RepliesOk(s')
  {
    hide Replied;
    assert forall x :: CauseOk(s, x) ==> CauseOk(s', x);
  }

  lemma RaiseIssued(s: Sys, s': Sys, e: Effect, t: TaskId)
    requires IssuedOk(s) && HeldOk(s) && DecidedOk(s) && WireOk(s) && Raises(s, s', e, t)
    ensures IssuedOk(s') && HeldOk(s') && DecidedOk(s') && WireOk(s')
  {
    hide Replied;
  }

  /** Only a control request makes a frame ask for or queue anything. */
  lemma DispatchPending(s: State, t: TaskId, f: Frame, now: nat, mode: string, disk: map<string, string>)
    ensures var e := Dispatch(s, t, f, now, mode, disk);
      if f.ControlFrame? && f.request.CanUseTool? then e == RaisePermission(s, t, f.requestId, f.request, now)
      else
        && e.state.nextPermission == s.nextPermission
        && (e.state.current == s.current || e.state.current.None?)
        && (e.state.pending == s.pending || e.state.pending == map[])
        && e.replies == if f.ControlFrame? then [Reply(f.requestId, Unsupported(Named(f.request, "")))] else []
  {
  }

  lemma DispatchPermissions(s: Sys, disk: map<string, string>)
    requires PermissionsOk(s) && ReaderDispatchStep(s, disk).Some?
    ensures PermissionsOk(ReaderDispatchStep(s, disk).value)
  {
    hide PermissionsOk, Dispatch;
    var s' := ReaderDispatchStep(s, disk).value;
    if s.st.current.Some? && s.st.skipResults == 0 {
      var t, f := s.st.current.value, s.reader.frame;
      DispatchPending(s.st, t, f, s.now, s.cfg.mode, disk);
      if f.ControlFrame? && f.request.CanUseTool? {
        assert s'.replies == s.replies;
        RaiseKeeps(s, s', Dispatch(s.st, t, f, s.now, s.cfg.mode, disk), t);
      } else if f.ControlFrame? {
        var q := Queued(Reply(f.requestId, Unsupported(Named(f.request, ""))), ByAdapter);
        var mid := s.(replies := s.replies + [q], reader := Reading);
        assert s'.replies == mid.replies;
        HeldReplyKeeps(s, mid, q);
        ShrinkKeeps(mid, s');
      } else {
        assert s'.replies == s.replies;
        ShrinkKeeps(s, s');
      }
    } else {
      ShrinkKeeps(s, s');
    }
  }

  lemma IdlePermissions(s: Sys)
    requires PermissionsOk(s) && ReaderIdleStep(s).Some?
    ensures PermissionsOk(ReaderIdleStep(s).value)
  {
    hide PermissionsOk;
    var s', f := ReaderIdleStep(s).value, s.reader.frame;
    if f.ControlFrame? {
      var q := Queued(DispatchIdle(s.st, f).replies[0], ByAdapter);
      assert s'.replies == s.replies + [q];
      HeldReplyKeeps(s, s.(replies := s.replies + [q], reader := Reading), q);
      ShrinkKeeps(s.(replies := s.replies + [q], reader := Reading), s');
    } else {
      assert s'.replies == s.replies + [] == s.replies;
      ShrinkKeeps(s, s');
    }
  }

  lemma DistinctAppend(replies: seq<Queued>, more: seq<Queued>)
    requires RepliesDistinct(replies) && RepliesDistinct(more)
    requires forall k :: 0 <= k < |more| ==> !Replied(replies, more[k].reply.requestId)
    ensures RepliesDistinct(replies + more)
  {
    var all := replies + more;
    forall i, j | 0 <= i < j < |all|
      ensures all[i].reply.requestId != all[j].reply.requestId
    {
      if i < |replies| <= j {
        assert all[j] == more[j - |replies|] && all[i] == replies[i];
      } else if |replies| <= i {
        assert all[i] == more[i - |replies|] && all[j] == more[j - |replies|];
      }
    }
  }

  /** stop_task denies every pending request once, in whatever order the map drains. */
  lemma StopBeginPermissions(s: Sys, t: TaskId, outcome: TaskOutcome, order: seq<nat>)
    requires PermissionsOk(s) && CanStop(s, t, order)
    ensures PermissionsOk(StopBeginStep(s, t, outcome, order))
  {
    var s' := StopBeginStep(s, t, outcome, order);
    if s.st.current == Some(t) {
      var more := seq(|order|, k requires 0 <= k < |order| => Queued(Denials(order, s.st.pending)[k], ByAdapter));
      assert s'.replies == s.replies + more;
      assert RepliesDistinct(more);
      DistinctAppend(s.replies, more);
      assert forall x :: CauseOk(s, x) ==> CauseOk(s', x);
      forall i | 0 <= i < |s'.replies|
        ensures CauseOk(s', s'.replies[i])
      {
        if i >= |s.replies| {
          assert s'.replies[i] == more[i - |s.replies|];
        }
      }
      if (s.reader.Holding? || s.reader.Yielded?) && s.reader.frame.ControlFrame? {
        RepliedAppend(s.replies, more, s.reader.frame.requestId);
      }
    }
  }

  lemma RespondPermissions(s: Sys, id: nat, decision: Decision)
    requires PermissionsOk(s) && RespondStep(s, id, decision).Some?
    ensures PermissionsOk(RespondStep(s, id, decision).value)
  {
    hide PendingOk, IssuedOk, HeldOk, RepliesOk, DecidedOk, WireOk, Respond;
    if id in s.st.pending {
      RespondReplies(s, id, decision);
      RespondPending(s, id, decision);
    }
  }

  /** The reply of a decision: its request was still unanswered. */
  lemma RespondReplies(s: Sys, id: nat, decision: Decision)
    requires PendingOk(s) && IssuedOk(s) && RepliesOk(s) && RespondStep(s, id, decision).Some? && id in s.st.pending
    ensures RepliesOk(RespondStep(s, id, decision).value)
  {
    var s' := RespondStep(s, id, decision).value;
    var q := Queued(Respond(s.st, id, decision, s.now).replies[0], ByOwner(id));
    assert s'.replies == s.replies + [q];
    assert forall x :: CauseOk(s, x) ==> CauseOk(s', x);
    assert s'.decided[|s.decided|] == (id, decision);
    assert CauseOk(s', q);
    DistinctAppend(s.replies, [q]);
  }

  /** The other requests stay as they were. */
  lemma RespondPending(s: Sys, id: nat, decision: Decision)
    requires PermissionsOk(s) && RespondStep(s, id, decision).Some? && id in s.st.pending
    ensures var s' := RespondStep(s, id, decision).value;
      PendingOk(s') && IssuedOk(s') && HeldOk(s') && DecidedOk(s') && WireOk(s')
  {
    hide RepliesOk, Replied, CauseOk;
    var s' := RespondStep(s, id, decision).value;
    var q := Queued(Respond(s.st, id, decision, s.now).replies[0], ByOwner(id));
    assert s'.replies == s.replies + [q];
    forall r: string
      ensures Replied(s'.replies, r) <==> Replied(s.replies, r) || r == q.reply.requestId
    {
      RepliedAppend(s.replies, [q], r);
      RepliedOne(q, r);
    }
  }

  lemma RepliedOne(q: Queued, r: string)
    ensures Replied([q], r) <==> q.reply.requestId == r
  {
    assert [q][0] == q;
  }

  lemma RepliedAsked(s: Sys, requestId: string)
    requires PermissionsOk(s)
    ensures Replied(s.replies, requestId) ==> requestId in s.asked
  {
    if Replied(s.replies, requestId) {
      var i :| 0 <= i < |s.replies| && s.replies[i].reply.requestId == requestId;
      assert CauseOk(s, s.replies[i]);
    }
  }

  lemma TakePermissions(s: Sys, f: Frame, owner: Option<TaskId>)
    requires PermissionsOk(s) && ReaderTakeStep(s, f, owner).Some?
    ensures PermissionsOk(ReaderTakeStep(s, f, owner).value)
  {
    var s' := ReaderTakeStep(s, f, owner).value;
    assert forall x :: CauseOk(s, x) ==> CauseOk(s', x);
    if f.ControlFrame? {
      RepliedAsked(s, f.requestId);
    }
  }

  lemma WritePermissions(s: Sys, index: nat, ok: bool)
    requires PermissionsOk(s) && WriteReplyStep(s, index, ok).Some?
    ensures PermissionsOk(WriteReplyStep(s, index, ok).value)
  {
    var s' := WriteReplyStep(s, index, ok).value;
    assert forall x :: CauseOk(s, x) ==> CauseOk(s', x);
  }

  /** A live session without a task has nothing pending, so a new task starts clean. */
  ghost predicate CleanStart(s: Sys) {
    Live(s) && s.st.current.None? ==> s.st.pending == map[]
  }

  lemma SubmitPermissions(s: Sys, hint: bool)
    requires PermissionsOk(s) && CleanStart(s) && SubmitStep(s, hint).Some?
    ensures PermissionsOk(SubmitStep(s, hint).value)
  {
    hide PermissionsOk;
    var s' := SubmitStep(s, hint).value;
    assert s'.replies == s.replies;
    ShrinkKeeps(s, s');
  }

  /** The sections that end a task, or close the session, queue no reply. */
  lemma EndPermissions(s: Sys, e: Effect, s': Sys)
    requires PermissionsOk(s)
    requires e.replies == [] && e.state.nextPermission == s.st.nextPermission
    requires s'.st == e.state && s'.replies == Commit(s, e, Own(s), ByAdapter).replies
    requires s'.tried == s.tried && s'.wire == s.wire && s'.issued == s.issued
      && s'.asked == s.asked && s'.decided == s.decided
    requires s'.reader == s.reader || s'.reader == ReaderDone
    requires e.state.pending == map[] ||
      (e.state.pending == s.st.pending && (e.state.current == s.st.current || e.state.current.None?))
    ensures PermissionsOk(s')
  {
    hide PermissionsOk;
    assert s'.replies == s.replies;
    ShrinkKeeps(s, s');
  }

  lemma StopPermissions(s: Sys, step: Step)
    requires PermissionsOk(s) && Apply(s, step).Some?
    requires step.CancelStop? || step.WatchStop?
    ensures PermissionsOk(Apply(s, step).value)
  {
    hide PermissionsOk, StopBeginStep;
    match step
    case CancelStop(order) =>
      StopBeginPermissions(s, s.caller.task, Cancelled, order);
      ShrinkKeeps(StopBeginStep(s, s.caller.task, Cancelled, order), Apply(s, step).value);
    case WatchStop(t, order) =>
      StopBeginPermissions(s, t, TimedOut, order);
      ShrinkKeeps(StopBeginStep(s, t, TimedOut, order), Apply(s, step).value);
  }

  lemma SubmitTailPermissions(s: Sys, step: Step)
    requires PermissionsOk(s) && Apply(s, step).Some?
    requires step.SubmitWrite? || step.SubmitReturn? || step.CancelStart?
    ensures PermissionsOk(Apply(s, step).value)
  {
    hide PermissionsOk;
    ShrinkKeeps(s, Apply(s, step).value);
  }

  lemma ForcePermissions(s: Sys, step: Step)
    requires PermissionsOk(s) && Apply(s, step).Some?
    requires step.CancelForce? || step.CancelKill? || step.WatchForce? || step.ReaderStop?
    ensures PermissionsOk(Apply(s, step).value)
  {
    hide PermissionsOk;
    var s' := Apply(s, step).value;
    match step
    case CancelForce => EndPermissions(s, StopForce(s.st, s.caller.task, Cancelled), s');
    case CancelKill => EndPermissions(s, KillNow(s.st, s.caller.task), s');
    case WatchForce(t) => EndPermissions(s, StopForce(s.st, t, TimedOut), s');
    case ReaderStop(reason) => EndPermissions(s, ReaderExit(s.st, reason), s');
  }

  lemma PermissionsStep(s: Sys, step: Step)
    requires PermissionsOk(s) && CleanStart(s) && Apply(s, step).Some?
    ensures PermissionsOk(Apply(s, step).value)
  {
    hide PermissionsOk, CanStop, Dispatch, Submit, StopBeginStep, ReaderDispatchStep, ReaderIdleStep, RespondStep,
      ReaderTakeStep, WriteReplyStep, SubmitStep;
    var s' := Apply(s, step).value;
    match step
    case SubmitStart(hint) => SubmitPermissions(s, hint);
    case SubmitWrite(_) => SubmitTailPermissions(s, step);
    case SubmitReturn(_) => SubmitTailPermissions(s, step);
    case CancelStart(_) => SubmitTailPermissions(s, step);
    case CancelStop(_) => StopPermissions(s, step);
    case WatchStop(_, _) => StopPermissions(s, step);
    case CancelForce => ForcePermissions(s, step);
    case CancelKill => ForcePermissions(s, step);
    case WatchForce(_) => ForcePermissions(s, step);
    case ReaderStop(_) => ForcePermissions(s, step);
    case ReaderDispatch(disk) => DispatchPermissions(s, disk);
    case ReaderIdle => IdlePermissions(s);
    case RespondPermission(id, decision) => RespondPermissions(s, id, decision);
    case ReaderTake(f, owner) => TakePermissions(s, f, owner);
    case WriteReply(index, ok) => WritePermissions(s, index, ok);
    case _ => ShrinkKeeps(s, s');
  }
}
