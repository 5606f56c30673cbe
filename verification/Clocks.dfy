/**
The two watchdog clocks that pause while a person decides: claude's running
stretch (crates/bastion-agent-runtime/src/claude_code.rs) and acp's counted
wait (crates/bastion-agent-runtime/src/acp.rs). Both are proved to measure the
same thing, defined here from the requests' own intervals: the instants of the
task at which no request was waiting for its decision.
*/
module Clocks {
  import opened Events
  import opened ClaudeState

  // ---- the reference: intervals of requests

  datatype Interval = Interval(start: nat, end: Option<nat>)

  /** Every request raised so far, by id, and the time since the task started. */
  datatype Log = Log(now: nat, requests: map<nat, Interval>)

  datatype Moment = Tick(ticks: nat) | Raise(id: nat) | Decide(id: nat)

  /** `None` for a decision on a request that is not waiting, or a reused id. */
  function Record(log: Log, m: Moment): Option<Log> {
    match m
    case Tick(ticks) => Some(log.(now := log.now + ticks))
    case Raise(id) =>
      if id in log.requests then None
      else Some(log.(requests := log.requests[id := Interval(log.now, None)]))
    case Decide(id) =>
      if id !in log.requests || log.requests[id].end.Some? then None
      else Some(log.(requests := log.requests[id := Interval(log.requests[id].start, Some(log.now))]))
  }

  function History(start: Log, schedule: seq<Moment>): Option<Log> {
    if schedule == [] then Some(start)
    else
      var before := History(start, schedule[..|schedule| - 1]);
      if before.None? then None else Record(before.value, schedule[|schedule| - 1])
  }

  /** Request `id` was waiting for its decision at instant `x`. */
  ghost predicate Spans(log: Log, id: nat, x: nat) {
    && id in log.requests && log.requests[id].start <= x
    && (log.requests[id].end.None? || x < log.requests[id].end.value)
  }

  ghost predicate WaitingAt(log: Log, x: nat) {
    exists id :: Spans(log, id, x)
  }

  /** How many of the first `n` instants had no request waiting. */
  ghost function FreeTime(log: Log, n: nat): nat {
    if n == 0 then 0 else FreeTime(log, n - 1) + (if WaitingAt(log, n - 1) then 0 else 1)
  }

  ghost function Open(log: Log): set<nat> {
    set id | id in log.requests && log.requests[id].end.None?
  }

  ghost predicate WellFormed(log: Log) {
    forall id :: id in log.requests ==>
      log.requests[id].start <= log.now && (log.requests[id].end.Some? ==> log.requests[id].end.value <= log.now)
  }

  function OpenAfter(open: set<nat>, m: Moment): set<nat> {
    if m.Tick? then open else if m.Raise? then open + {m.id} else open - {m.id}
  }

  lemma {:induction false} SameFreeTime(a: Log, b: Log, n: nat)
    requires forall x :: 0 <= x < n ==> (WaitingAt(a, x) <==> WaitingAt(b, x))
    ensures FreeTime(a, n) == FreeTime(b, n)
  {
    hide WaitingAt;
    if n > 0 {
      SameFreeTime(a, b, n - 1);
    }
  }

  /** From now on, an instant is free exactly when no request is open. */
  lemma {:induction false} FreeTimeGrows(log: Log, ticks: nat)
    requires WellFormed(log)
    ensures FreeTime(log, log.now + ticks) == FreeTime(log, log.now) + (if Open(log) == {} then ticks else 0)
  {
    if ticks > 0 {
      FreeTimeGrows(log, ticks - 1);
      var x := log.now + ticks - 1;
      assert WaitingAt(log, x) <==> Open(log) != {} by {
        if Open(log) != {} {
          var id :| id in Open(log);
          assert Spans(log, id, x);
        }
        if WaitingAt(log, x) {
          var id :| Spans(log, id, x);
          assert id in Open(log);
        }
      }
    }
  }

  /** One moment changes the past of no instant. */
  lemma RecordKeepsFreeTime(log: Log, m: Moment)
    requires WellFormed(log) && Record(log, m).Some?
    ensures var log' := Record(log, m).value;
      && WellFormed(log')
      && FreeTime(log', log'.now) == FreeTime(log, log.now) + (if m.Tick? && Open(log) == {} then m.ticks else 0)
      && Open(log') == OpenAfter(Open(log), m)
  {
    var log' := Record(log, m).value;
    if m.Tick? {
      FreeTimeGrows(log, m.ticks);
      forall x | 0 <= x < log'.now
        ensures WaitingAt(log', x) <==> WaitingAt(log, x)
      {
        assert forall id :: Spans(log', id, x) <==> Spans(log, id, x);
      }
      SameFreeTime(log, log', log'.now);
    } else {
      forall x | 0 <= x < log.now
        ensures WaitingAt(log', x) <==> WaitingAt(log, x)
      {
        RecordKeepsWaiting(log, m, x);
      }
      SameFreeTime(log, log', log.now);
    }
  }

  lemma RecordKeepsWaiting(log: Log, m: Moment, x: nat)
    requires WellFormed(log) && Record(log, m).Some? && !m.Tick? && x < log.now
    ensures WaitingAt(Record(log, m).value, x) <==> WaitingAt(log, x)
  {
    var log' := Record(log, m).value;
    if WaitingAt(log, x) {
      var id :| Spans(log, id, x);
      assert Spans(log', id, x);
    }
    if WaitingAt(log', x) {
      var id :| Spans(log', id, x);
      assert Spans(log, id, x);
    }
  }

  // ---- acp: a counter and a running wait

  datatype Wait = Wait(outstanding: nat, since: Option<nat>, total: nat)

  function WaitStarted(w: Wait, now: nat): Wait {
    w.(since := if w.outstanding == 0 then Some(now) else w.since, outstanding := w.outstanding + 1)
  }

  function Elapsed(since: nat, now: nat): nat { if since <= now then now - since else 0 }

  function WaitEnded(w: Wait, now: nat): Wait {
    var left := if w.outstanding == 0 then 0 else w.outstanding - 1;
    if left == 0 && w.since.Some?
    then Wait(0, None, w.total + Elapsed(w.since.value, now))
    else w.(outstanding := left)
  }

  function Waited(w: Wait, now: nat): nat {
    w.total + (if w.since.Some? then Elapsed(w.since.value, now) else 0)
  }

  function WaitReset(w: Wait, now: nat): Wait {
    w.(total := 0, since := if w.outstanding > 0 then Some(now) else w.since)
  }

  /** run_turn's check: its budget, extended by the waits, is spent and nobody decides. */
  predicate AcpTimesOut(w: Wait, now: nat, timeout: nat) {
    timeout + Waited(w, now) <= now && w.outstanding == 0
  }

  /** The counters as the source updates them, behind their own lock. */
  class DecisionWait {
    var outstanding: nat
    var since: Option<nat>
    var total: nat

    ghost function Abs(): Wait
      reads this
    {
      Wait(outstanding, since, total)
    }

    constructor ()
      ensures Abs() == Wait(0, None, 0)
    {
      outstanding, since, total := 0, None, 0;
    }

    method Started(now: nat)
      modifies this
      ensures Abs() == WaitStarted(old(Abs()), now)
    {
      if outstanding == 0 {
        since := Some(now);
      }
      outstanding := outstanding + 1;
    }

    method Ended(now: nat)
      modifies this
      ensures Abs() == WaitEnded(old(Abs()), now)
    {
      outstanding := if outstanding == 0 then 0 else outstanding - 1;
      if outstanding == 0 {
        if since.Some? {
          total := total + Elapsed(since.value, now);
          since := None;
        }
      }
    }

    method Current(now: nat) returns (waited: nat, waiting: bool)
      ensures waited == Waited(Abs(), now) && (waiting <==> outstanding > 0)
    {
      var ongoing := if since.Some? then Elapsed(since.value, now) else 0;
      waited := total + ongoing;
      waiting := outstanding > 0;
    }

    method Reset(now: nat)
      modifies this
      ensures Abs() == WaitReset(old(Abs()), now)
    {
      total := 0;
      if outstanding > 0 {
        since := Some(now);
      }
    }
  }

  function AcpMoment(w: Wait, now: nat, m: Moment): Wait {
    match m
    case Tick(_) => w
    case Raise(_) => WaitStarted(w, now)
    case Decide(_) => WaitEnded(w, now)
  }

  /** acp's counters after a schedule, from their value at the start of the turn. */
  function AcpAfter(w: Wait, start: Log, schedule: seq<Moment>): Wait
    requires History(start, schedule).Some?
    decreases |schedule|
  {
    if schedule == [] then w
    else
      var n := |schedule| - 1;
      AcpMoment(AcpAfter(w, start, schedule[..n]), History(start, schedule[..n]).value.now, schedule[n])
  }

  ghost predicate AcpTracks(w: Wait, log: Log) {
    && WellFormed(log)
    && w.outstanding == |Open(log)|
    && (w.since.Some? <==> w.outstanding > 0)
    && (w.since.Some? ==> w.since.value <= log.now)
    && Waited(w, log.now) + FreeTime(log, log.now) == log.now
  }

  lemma AcpMomentTracks(w: Wait, log: Log, m: Moment)
    requires AcpTracks(w, log) && Record(log, m).Some?
    ensures AcpTracks(AcpMoment(w, log.now, m), Record(log, m).value)
  {
    hide FreeTime, Record;
    RecordKeepsFreeTime(log, m);
    RecordFacts(log, m);
    assert Open(log) == {} <==> w.outstanding == 0;
    if m.Decide? {
      assert |Open(log) - {m.id}| == |Open(log)| - 1;
    }
  }

  lemma RecordFacts(log: Log, m: Moment)
    requires Record(log, m).Some?
    ensures Record(log, m).value.now == log.now + (if m.Tick? then m.ticks else 0)
    ensures m.Raise? ==> m.id !in Open(log)
    ensures m.Decide? ==> m.id in Open(log)
  {
  }

  // ---- claude: time before the current stretch, and the stretch

  function ClaudeMoment(s: State, now: nat, m: Moment): State {
    match m
    case Tick(_) => s
    case Raise(id) => RaisePermission(s.(nextPermission := id), 0, "", CanUseTool("", "", ""), now).state
    case Decide(id) => if id in s.pending then Respond(s, id, Allow, now).state else s
  }

  function ClaudeAfter(s: State, start: Log, schedule: seq<Moment>): State
    requires History(start, schedule).Some?
    decreases |schedule|
  {
    if schedule == [] then s
    else
      var n := |schedule| - 1;
      ClaudeMoment(ClaudeAfter(s, start, schedule[..n]), History(start, schedule[..n]).value.now, schedule[n])
  }

  function ClaudeRan(s: State, now: nat): nat {
    s.activeBefore + (if s.activeSince.Some? then Elapsed(s.activeSince.value, now) else 0)
  }

  /** The watchdog's check: the clock runs and the budget is spent. */
  predicate ClaudeTimesOut(s: State, now: nat, perTask: nat) {
    s.activeSince.Some? && ClaudeRan(s, now) >= perTask
  }

  ghost predicate ClaudeTracks(s: State, log: Log) {
    && WellFormed(log)
    && s.current.Some?
    && s.pending.Keys == Open(log)
    && (s.activeSince.None? <==> s.pending != map[])
    && (s.activeSince.Some? ==> s.activeSince.value <= log.now)
    && ClaudeRan(s, log.now) == FreeTime(log, log.now)
  }

  lemma ClaudeMomentTracks(s: State, log: Log, m: Moment)
    requires ClaudeTracks(s, log) && Record(log, m).Some?
    ensures ClaudeTracks(ClaudeMoment(s, log.now, m), Record(log, m).value)
  {
    hide FreeTime, Record;
    RecordKeepsFreeTime(log, m);
    RecordFacts(log, m);
    var s' := ClaudeMoment(s, log.now, m);
    assert s'.pending.Keys == OpenAfter(s.pending.Keys, m);
    if m.Raise? {
      assert m.id in s'.pending;
    }
    if m.Decide? && s.pending.Keys - {m.id} == {} {
      assert s'.pending == map[];
    }
    if s.pending == map[] {
      assert s.pending.Keys == {};
    }
  }

  // ---- the main results

  /** The requests still waiting from an earlier turn when this one starts. */
  function Carried(n: nat): Log {
    Log(0, CarriedRequests(n))
  }

  function CarriedRequests(n: nat): map<nat, Interval> {
    if n == 0 then map[] else CarriedRequests(n - 1)[n - 1 := Interval(0, None)]
  }

  lemma {:induction false} CarriedOpen(n: nat)
    ensures |Open(Carried(n))| == n
    ensures forall id :: id in CarriedRequests(n) ==> id < n && CarriedRequests(n)[id] == Interval(0, None)
  {
    if n > 0 {
      CarriedOpen(n - 1);
      assert Open(Carried(n)) == Open(Carried(n - 1)) + {n - 1};
    } else {
      assert Open(Carried(0)) == {};
    }
  }

  /**
  acp: on every schedule of overlapping requests and decisions, the time since
  the turn started minus the counted wait is the time no request was waiting,
  also when requests of an earlier turn are still open; so run_turn gives up
  exactly when that time has reached the budget and nothing waits.
  */
  lemma {:induction false} AcpMeasuresFreeTime(w: Wait, schedule: seq<Moment>)
    requires w.since.None? || w.outstanding > 0
    requires History(Carried(w.outstanding), schedule).Some?
    ensures var log := History(Carried(w.outstanding), schedule).value;
      var after := AcpAfter(WaitReset(w, 0), Carried(w.outstanding), schedule);
      && log.now - Waited(after, log.now) == FreeTime(log, log.now)
      && (after.outstanding > 0 <==> Open(log) != {})
      && (forall timeout: nat :: AcpTimesOut(after, log.now, timeout) <==>
            FreeTime(log, log.now) >= timeout && Open(log) == {})
  {
    AcpAlwaysTracks(w, schedule);
  }

  lemma {:induction false} AcpAlwaysTracks(w: Wait, schedule: seq<Moment>)
    requires w.since.None? || w.outstanding > 0
    requires History(Carried(w.outstanding), schedule).Some?
    ensures AcpTracks(AcpAfter(WaitReset(w, 0), Carried(w.outstanding), schedule),
                      History(Carried(w.outstanding), schedule).value)
    decreases |schedule|
  {
    hide AcpTracks, AcpMoment, Record;
    var start := Carried(w.outstanding);
    if schedule == [] {
      AcpStartTracks(w);
    } else {
      var n := |schedule| - 1;
      AcpAlwaysTracks(w, schedule[..n]);
      var before := History(start, schedule[..n]).value;
      AcpMomentTracks(AcpAfter(WaitReset(w, 0), start, schedule[..n]), before, schedule[n]);
    }
  }

  lemma AcpStartTracks(w: Wait)
    requires w.since.None? || w.outstanding > 0
    ensures AcpTracks(WaitReset(w, 0), Carried(w.outstanding))
  {
    CarriedOpen(w.outstanding);
  }

  /**
  claude: on every schedule, the clock the watchdog reads is the time no
  request was waiting, and it fires exactly when that time has reached the
  budget and nothing waits.
  */
  lemma {:induction false} ClaudeMeasuresFreeTime(t: TaskId, schedule: seq<Moment>)
    requires History(Carried(0), schedule).Some?
    ensures var log := History(Carried(0), schedule).value;
      var after := ClaudeAfter(Submit(INITIAL_STATE, t, 0, false).effect.state, Carried(0), schedule);
      && ClaudeRan(after, log.now) == FreeTime(log, log.now)
      && (forall perTask: nat :: ClaudeTimesOut(after, log.now, perTask) <==>
            FreeTime(log, log.now) >= perTask && Open(log) == {})
  {
    ClaudeAlwaysTracks(t, schedule);
    var after := ClaudeAfter(Submit(INITIAL_STATE, t, 0, false).effect.state, Carried(0), schedule);
    assert after.pending == map[] <==> after.pending.Keys == {};
  }

  lemma {:induction false} ClaudeAlwaysTracks(t: TaskId, schedule: seq<Moment>)
    requires History(Carried(0), schedule).Some?
    ensures ClaudeTracks(ClaudeAfter(Submit(INITIAL_STATE, t, 0, false).effect.state, Carried(0), schedule),
                         History(Carried(0), schedule).value)
    decreases |schedule|
  {
    hide ClaudeTracks, ClaudeMoment, Record;
    var s := Submit(INITIAL_STATE, t, 0, false).effect.state;
    if schedule == [] {
      ClaudeStartTracks(t);
    } else {
      var n := |schedule| - 1;
      ClaudeAlwaysTracks(t, schedule[..n]);
      var before := History(Carried(0), schedule[..n]).value;
      ClaudeMomentTracks(ClaudeAfter(s, Carried(0), schedule[..n]), before, schedule[n]);
    }
  }

  lemma ClaudeStartTracks(t: TaskId)
    ensures ClaudeTracks(Submit(INITIAL_STATE, t, 0, false).effect.state, Carried(0))
  {
    assert Open(Carried(0)) == {};
  }

  /** The two adapters' watchdogs time the same task out at the same moments. */
  lemma ClocksAgree(t: TaskId, schedule: seq<Moment>, budget: nat)
    requires History(Carried(0), schedule).Some?
    ensures var now := History(Carried(0), schedule).value.now;
      var submitted := Submit(INITIAL_STATE, t, 0, false).effect.state;
      ClaudeTimesOut(ClaudeAfter(submitted, Carried(0), schedule), now, budget) <==>
      AcpTimesOut(AcpAfter(WaitReset(Wait(0, None, 0), 0), Carried(0), schedule), now, budget)
  {
    ClaudeMeasuresFreeTime(t, schedule);
    AcpMeasuresFreeTime(Wait(0, None, 0), schedule);
  }
}
