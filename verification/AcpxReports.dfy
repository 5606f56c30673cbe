/**
What an acpx prompt reader sends, frame by frame, and what its outcome means,
said of the frames themselves (crates/bastion-agent-runtime/src/acpx.rs).
*/
module AcpxReports {
  import opened Events
  import opened Filters
  import opened JsonValues
  import opened Acpx
  import LineCounts

  // ---- one frame

  ghost function IsDiff(items: seq<Json>): nat -> bool {
    (i: nat) => i < |items| && AsText(Get(items[i], "type")) == Some("diff")
  }

  /** One `Diff` for each item of type `diff`, in order, with the lines it gains and loses. */
  ghost predicate ShowsDiffs(t: TaskId, items: seq<Json>, events: seq<Event>) {
    exists at: seq<nat> :: Picks(at, |items|, IsDiff(items)) && ShownAt(t, items, at, events)
  }

  ghost predicate ShownAt(t: TaskId, items: seq<Json>, at: seq<nat>, events: seq<Event>) {
    |events| == |at| && forall k :: 0 <= k < |events| ==> at[k] < |items| && IsDiffOf(t, items[at[k]], events[k])
  }

  ghost predicate IsDiffOf(t: TaskId, item: Json, e: Event) {
    var before, after := AsText(Get(item, "oldText")), Or(AsText(Get(item, "newText")), "");
    var was := if before.Some? then multiset(LineCounts.Lines(before.value)) else multiset{};
    && e.Diff? && e.task == t && e.path == Or(AsText(Get(item, "path")), "")
    && e.added == |multiset(LineCounts.Lines(after)) - was| && e.removed == |was - multiset(LineCounts.Lines(after))|
  }

  lemma {:induction false} ShownSoFar(t: TaskId, items: seq<Json>, n: nat) returns (at: seq<nat>)
    requires n <= |items|
    ensures Picks(at, n, IsDiff(items)) && ShownAt(t, items, at, DiffEvents(t, items[..n]))
  {
    hide Picks, ShownAt, DiffEvents;
    if n == 0 {
      at := [];
      PicksNone(IsDiff(items));
      ShownNone(t, items);
    } else {
      at := ShownSoFar(t, items, n - 1);
      PicksNext(at, n - 1, IsDiff(items));
      ShownNext(t, items, at, n - 1);
      if AsText(Get(items[n - 1], "type")) == Some("diff") {
        at := at + [n - 1];
      }
    }
  }

  lemma ShownNone(t: TaskId, items: seq<Json>)
    ensures ShownAt(t, items, [], DiffEvents(t, items[..0]))
  {
  }

  lemma ShownNext(t: TaskId, items: seq<Json>, at: seq<nat>, n: nat)
    requires n < |items| && ShownAt(t, items, at, DiffEvents(t, items[..n]))
    ensures ShownAt(t, items, if AsText(Get(items[n], "type")) == Some("diff") then at + [n] else at,
                    DiffEvents(t, items[..n + 1]))
  {
    hide IsDiffOf, DiffEvent;
    assert items[..n + 1][..n] == items[..n];
    OneDiff(t, items[n]);
  }

  lemma OneDiff(t: TaskId, item: Json)
    ensures IsDiffOf(t, item, DiffEvent(t, item))
  {
    var before, after := AsText(Get(item, "oldText")), Or(AsText(Get(item, "newText")), "");
    assert multiset(LineCounts.Lines(after)) - multiset{} == multiset(LineCounts.Lines(after));
    assert multiset{} - multiset(LineCounts.Lines(after)) == multiset{};
  }

  /** The name a tool call goes by: its title, else its `_meta` name, else a stock one. */
  ghost predicate Named(update: Json, name: string) {
    match AsText(Get(update, "title"))
    case Some(title) => name == title
    case None =>
      match AsText(Then(Then(Get(update, "_meta"), "claudeCode"), "toolName"))
      case Some(meta) => name == meta
      case None => name == "tool"
  }

  ghost predicate Printed(w: World, v: Option<Json>, text: string) {
    match v
    case None => text == ""
    case Some(value) => text == w.render(value)
  }

  /** The result a tool-call update reports, if it says that the call ended. */
  ghost predicate ReportsEnd(w: World, t: TaskId, update: Json, events: seq<Event>) {
    var status := AsText(Get(update, "status"));
    if status != Some("completed") && status != Some("failed") then events == []
    else
      && |events| == 1 && events[0].ToolResult? && events[0].task == t
      && Named(update, events[0].name) && Printed(w, Get(update, "rawOutput"), events[0].digested)
      && (events[0].isError <==> status == Some("failed"))
  }

  ghost predicate UpdateSays(w: World, t: TaskId, update: Json, events: seq<Event>) {
    match AsText(Get(update, "sessionUpdate"))
    case None => events == []
    case Some(kind) =>
      if kind == "agent_message_chunk" then
        match AsText(Then(Get(update, "content"), "text"))
        case None => events == []
        case Some(text) => events == if text == "" then [] else [MessageDelta(t, text)]
      else if kind == "tool_call" then
        && |events| == 1 && events[0].ToolCall? && events[0].task == t
        && Named(update, events[0].name) && Printed(w, Get(update, "rawInput"), events[0].digested)
      else if kind == "tool_call_update" then
        exists diffs, end ::
          && events == diffs + end && ReportsEnd(w, t, update, end)
          && ShowsDiffs(t, Or(AsItems(Get(update, "content")), []), diffs)
      else events == []
  }

  /** The permission requests asked before give the next one its id. */
  ghost predicate AskSays(t: TaskId, params: Json, asked: nat, events: seq<Event>) {
    var call := Get(params, "toolCall");
    && |events| == 1 && events[0].PermissionRequest? && events[0].task == t && events[0].id == asked
    && events[0].detail == Or(AsText(Then(call, "title")), "permission request")
    && match Or(AsText(Then(call, "kind")), "")
       case "edit" => events[0].action == WriteFile
       case "execute" => events[0].action == RunCommand
       case kind => events[0].action == PermissionAction.Other(kind)
  }

  /** What frame `v`, which does not answer the prompt, is sent as after the frames `before`. */
  ghost predicate FrameSays(w: World, t: TaskId, before: seq<Json>, v: Json, events: seq<Event>) {
    match AsText(Get(v, "method"))
    case Some("session/update") =>
      (match Then(Get(v, "params"), "update")
       case None => events == []
       case Some(update) => UpdateSays(w, t, update, events))
    case Some("session/request_permission") =>
      (match Get(v, "params")
       case None => events == []
       case Some(params) => AskSays(t, params, PermissionCount(before), events))
    case _ => events == []
  }

  lemma UpdateReads(w: World, t: TaskId, s: Interpreter, update: Json)
    ensures UpdateSays(w, t, update, ReadUpdate(w, t, s, update).events)
  {
    hide ShowsDiffs;
    var items := Or(AsItems(Get(update, "content")), []);
    DiffsShown(t, items);
    if AsText(Get(update, "sessionUpdate")) == Some("tool_call_update") {
      EndReports(w, t, update);
      hide ReportsEnd, ResultEvents;
      assert ReadUpdate(w, t, s, update).events == DiffEvents(t, items) + ResultEvents(w, t, update);
    }
  }

  lemma EndReports(w: World, t: TaskId, update: Json)
    ensures ReportsEnd(w, t, update, ResultEvents(w, t, update))
  {
  }

  lemma DiffsShown(t: TaskId, items: seq<Json>)
    ensures ShowsDiffs(t, items, DiffEvents(t, items))
  {
    assert items[..|items|] == items;
    var at := ShownSoFar(t, items, |items|);
  }

  lemma AskReads(t: TaskId, s: Interpreter, params: Json)
    ensures AskSays(t, params, s.nextPermId, OnPermission(t, s, params).events)
  {
  }

  lemma FrameReads(w: World, t: TaskId, frames: seq<Json>, v: Json)
    requires Quiet(frames + [v])
    ensures FrameSays(w, t, frames, v, ReadValue(w, t, Fold(w, t, frames), v).events)
  {
    hide UpdateSays, AskSays, ReadUpdate, OnPermission, Fold;
    QuietTail(frames, v);
    StateFromHistory(w, t, frames);
    var s := Fold(w, t, frames);
    var known := if s.promptId.None? && Method(v) == Some("session/prompt") then s.(promptId := FrameId(v)) else s;
    if Update(v).Some? {
      UpdateReads(w, t, known, Update(v).value);
    }
    if Get(v, "params").Some? {
      AskReads(t, known, Get(v, "params").value);
    }
  }

  lemma QuietTail(frames: seq<Json>, v: Json)
    requires Quiet(frames + [v])
    ensures Quiet(frames)
    ensures !Terminal(if PromptId(frames).None? && Method(v) == Some("session/prompt") then FrameId(v)
                      else PromptId(frames), v)
  {
    var all := frames + [v];
    assert all[..|all| - 1] == frames;
    QuietPrefix(all);
    PromptIdExtend(frames, v);
    assert !EndsAt(all, |frames|) && all[..|all|] == all;
  }

  // ---- the file a frame publishes

  ghost predicate FilePublished(w: World, t: TaskId, before: seq<Json>, v: Json, content: Option<string>,
                                events: seq<Event>)
  {
    var update := Or(Then(Get(v, "params"), "update"), Null);
    var id := AsText(Get(update, "toolCallId"));
    var completed := Method(v) == Some("session/update") && AsText(Get(update, "sessionUpdate")) ==
      Some("tool_call_update") && AsText(Get(update, "status")) == Some("completed");
    if completed && id.Some? && LastPath(before + [v], id.value).Some? && content.Some?
    then events == [Artifact(t, w.relative(LastPath(before + [v], id.value).value), content.value)]
    else events == []
  }

  lemma FilePublishes(w: World, t: TaskId, frames: seq<Json>, v: Json, content: Option<string>)
    requires Quiet(frames + [v])
    ensures FilePublished(w, t, frames, v, content,
                          ArtifactEvents(w, t, ReadValue(w, t, Fold(w, t, frames), v).artifact, content))
  {
    hide Fold, LastPath, ReadValue;
    if Method(v) == Some("session/update") && Update(v).Some? {
      ArtifactFromHistory(w, t, frames, v);
    } else {
      OthersPublishNothing(w, t, Fold(w, t, frames), v);
    }
  }

  lemma OthersPublishNothing(w: World, t: TaskId, s: Interpreter, v: Json)
    requires Method(v) != Some("session/update") || Update(v).None?
    ensures ReadValue(w, t, s, v).artifact.None?
  {
  }

  // ---- the answer

  /** What the frame that answers the prompt means. */
  ghost predicate AnswerMeans(v: Json, outcome: TaskOutcome) {
    match Get(v, "result")
    case Some(result) =>
      (match AsText(Get(result, "stopReason"))
       case Some("end_turn") => outcome == Success
       case Some("cancelled") => outcome == Cancelled
       case Some(other) => outcome == Failed("stopReason=" + other)
       case None => outcome == Failed("stopReason="))
    case None =>
      var message := AsText(Then(Get(v, "error"), "message"));
      && outcome.Failed?
      && (message.None? ==> outcome.reason == "unknown error")
      && (message.Some? ==>
            outcome.reason == if AboutCredentials(message.value) then HIDDEN else message.value)
  }

  const HIDDEN := "authentication error reported by harness"

  /** The text speaks of credentials, in upper or lower case. */
  ghost predicate AboutCredentials(message: string) {
    Speaks(message, "auth") || Speaks(message, "login") || Speaks(message, "unauthorized") || Speaks(message, "401")
    || Speaks(message, "credential")
  }

  ghost predicate Speaks(message: string, word: string) {
    exists i :: SpelledAt(message, i, word)
  }

  ghost predicate SpelledAt(message: string, i: int, word: string) {
    0 <= i && i + |word| <= |message| && forall j :: 0 <= j < |word| ==> SameLetter(message[i + j], word[j])
  }

  ghost predicate SameLetter(c: char, lower: char) {
    if 'A' <= c <= 'Z' then c - 'A' + 'a' == lower else c == lower
  }

  lemma ContainsSpeaks(message: string, word: string)
    ensures Contains(Lower(message), word) <==> Speaks(message, word)
  {
    var lower := Lower(message);
    forall i | 0 <= i <= |message|
      ensures word <= lower[i..] <==> SpelledAt(message, i, word)
    {
      assert forall j :: 0 <= j < |lower| - i ==> lower[i..][j] == lower[i + j];
      if SpelledAt(message, i, word) {
        assert word == lower[i..][..|word|];
      }
    }
    if i :| SpelledAt(message, i, word) {
      assert word <= lower[i..];
    }
  }

  lemma AuthLikeExactly(message: string)
    ensures AuthLike(message) <==> AboutCredentials(message)
  {
    hide Contains, Lower, Speaks;
    ContainsSpeaks(message, "auth");
    ContainsSpeaks(message, "login");
    ContainsSpeaks(message, "unauthorized");
    ContainsSpeaks(message, "401");
    ContainsSpeaks(message, "credential");
  }

  lemma TerminalMeans(v: Json)
    ensures AnswerMeans(v, TerminalOutcome(v))
  {
    hide AuthLike, AboutCredentials;
    AuthLikeExactly("unknown error");
    if AsText(Then(Get(v, "error"), "message")).Some? {
      AuthLikeExactly(AsText(Then(Get(v, "error"), "message")).value);
    }
    UnknownErrorPlain();
  }

  lemma UnknownErrorPlain()
    ensures !AboutCredentials("unknown error")
  {
    var m := "unknown error";
    NotSpoken(m, "auth");
    NotSpoken(m, "login");
    NotSpoken(m, "401");
    NotSpoken(m, "credential");
    if i :| SpelledAt(m, i, "unauthorized") {
      Letter(m, i, "unauthorized", 2);
    }
  }

  lemma NotSpoken(message: string, word: string)
    requires word != "" && forall i :: 0 <= i < |message| ==> !SameLetter(message[i], word[0])
    ensures !Speaks(message, word)
  {
    if i :| SpelledAt(message, i, word) {
      Letter(message, i, word, 0);
    }
  }

  lemma Letter(message: string, i: int, word: string, j: nat)
    requires SpelledAt(message, i, word) && j < |word|
    ensures SameLetter(message[i + j], word[j])
  {
  }

  /** The usage an answer reports, before the end of the task. */
  ghost predicate UsageSaid(t: TaskId, v: Json, events: seq<Event>) {
    match Then(Get(v, "result"), "usage")
    case None => events == []
    case Some(usage) =>
      events == [Usage(t, Or(AsNat(Get(usage, "inputTokens")), 0), Or(AsNat(Get(usage, "outputTokens")), 0))]
  }

  // ---- the whole reader

  /** What the task ends with when input `k` decides, or the stream ends there. */
  ghost predicate CauseMeans(inputs: seq<Input>, k: nat, cancelled: bool, garbage: bool, outcome: TaskOutcome) {
    if k < |inputs| && inputs[k].Deadline? then outcome == TimedOut
    else if k < |inputs| && inputs[k].Frame? then AnswerMeans(inputs[k].value, outcome)
    else if cancelled then outcome == Cancelled
    else if garbage || (k < |inputs| && inputs[k].Malformed?) then outcome == Failed("malformed frame on transport")
    else outcome == Failed("acpx process ended without a terminal frame (crash or premature exit)")
  }

  /** What one frame before the deciding input is sent as: its events, and its file. */
  ghost predicate FrameSent(w: World, t: TaskId, before: seq<Json>, input: Input, events: seq<Event>) {
    input.Frame? && exists said, file ::
      && events == said + file && FrameSays(w, t, before, input.value, said)
      && FilePublished(w, t, before, input.value, input.content, file)
  }

  /**
  For every input sequence: the reader sends, frame by frame, what each frame
  before the deciding input says, then the usage its answer reports, if it is
  an answer, and the one `Ended` with the outcome that input means.
  */
  lemma ReaderSends(w: World, t: TaskId, inputs: seq<Input>, k: nat, cancelled: bool, garbage: bool)
    returns (segments: seq<seq<Event>>, usage: seq<Event>, outcome: TaskOutcome)
    requires Decides(inputs, k)
    ensures Output(w, t, FRESH, inputs, cancelled, garbage) == Flat(segments) + usage + [Ended(t, outcome)]
    ensures |segments| == k && forall j :: 0 <= j < k ==>
      inputs[j].Frame? && FrameSent(w, t, Frames(inputs[..j]), inputs[j], segments[j])
    ensures if k < |inputs| && inputs[k].Frame? then UsageSaid(t, inputs[k].value, usage) else usage == []
    ensures CauseMeans(inputs, k, cancelled, garbage, outcome)
  {
    hide Decides, Output, FrameSent, CauseMeans, UsageSaid, Undecided, Fold;
    DecidesUndecided(inputs, k);
    segments := SentSoFar(w, t, inputs, k, cancelled, garbage);
    usage, outcome := SentAtLast(w, t, inputs, k, cancelled, garbage);
  }

  lemma DecidesUndecided(inputs: seq<Input>, k: nat)
    requires Decides(inputs, k)
    ensures Undecided(inputs, k)
  {
  }

  lemma {:induction false} SentSoFar(w: World, t: TaskId, inputs: seq<Input>, k: nat, cancelled: bool, garbage: bool)
    returns (segments: seq<seq<Event>>)
    requires Undecided(inputs, k)
    ensures |segments| == k && forall j :: 0 <= j < k ==>
      inputs[j].Frame? && FrameSent(w, t, Frames(inputs[..j]), inputs[j], segments[j])
    ensures Output(w, t, FRESH, inputs, cancelled, garbage) ==
      Flat(segments) + Output(w, t, Fold(w, t, Frames(inputs[..k])), inputs[k..], cancelled, garbage)
  {
    hide Output, FrameSent, Fold;
    if k == 0 {
      segments := [];
      FreshStart(w, t, inputs);
    } else {
      UndecidedPrefix(inputs, k - 1, k);
      var init := SentSoFar(w, t, inputs, k - 1, cancelled, garbage);
      var last := SentHere(w, t, inputs, k - 1, cancelled, garbage);
      segments := init + [last];
      FlatLast(init, last);
    }
  }

  lemma FreshStart(w: World, t: TaskId, inputs: seq<Input>)
    ensures Fold(w, t, Frames(inputs[..0])) == FRESH && inputs[0..] == inputs
  {
  }

  lemma SentHere(w: World, t: TaskId, inputs: seq<Input>, i: nat, cancelled: bool, garbage: bool)
    returns (segment: seq<Event>)
    requires Undecided(inputs, i + 1)
    ensures FrameSent(w, t, Frames(inputs[..i]), inputs[i], segment)
    ensures Output(w, t, Fold(w, t, Frames(inputs[..i])), inputs[i..], cancelled, garbage) ==
      segment + Output(w, t, Fold(w, t, Frames(inputs[..i + 1])), inputs[i + 1..], cancelled, garbage)
  {
    hide ReadValue, Output, ArtifactEvents, Fold, FrameSays, FilePublished;
    FoldExtend(w, t, inputs, i);
    StateFromHistory(w, t, Frames(inputs[..i + 1]));
    OutputAtFrame(w, t, Fold(w, t, Frames(inputs[..i])), inputs, i, cancelled, garbage);
    FrameReads(w, t, Frames(inputs[..i]), inputs[i].value);
    FilePublishes(w, t, Frames(inputs[..i]), inputs[i].value, inputs[i].content);
    var line := ReadValue(w, t, Fold(w, t, Frames(inputs[..i])), inputs[i].value);
    segment := line.events + ArtifactEvents(w, t, line.artifact, inputs[i].content);
  }

  lemma SentAtLast(w: World, t: TaskId, inputs: seq<Input>, k: nat, cancelled: bool, garbage: bool)
    returns (usage: seq<Event>, outcome: TaskOutcome)
    requires Decides(inputs, k)
    ensures Output(w, t, Fold(w, t, Frames(inputs[..k])), inputs[k..], cancelled, garbage) ==
      usage + [Ended(t, outcome)]
    ensures if k < |inputs| && inputs[k].Frame? then UsageSaid(t, inputs[k].value, usage) else usage == []
    ensures CauseMeans(inputs, k, cancelled, garbage, outcome)
  {
    hide ReadValue, Fold, Output, AnswerMeans, Quiet, EndsAt;
    if k < |inputs| && inputs[k].Frame? {
      var frames, v := Frames(inputs[..k]), inputs[k].value;
      FoldExtend(w, t, inputs, k);
      usage, outcome := UsageEvents(t, v), TerminalOutcome(v);
      TerminalMeans(v);
      AnswerSends(w, t, frames, v);
      OutputAtFrame(w, t, Fold(w, t, frames), inputs, k, cancelled, garbage);
    } else {
      OutputAtStop(w, t, Fold(w, t, Frames(inputs[..k])), inputs, k, cancelled, garbage);
      usage, outcome := [], if k < |inputs| && inputs[k].Deadline? then TimedOut
        else Premature(cancelled, garbage || (k < |inputs| && inputs[k].Malformed?));
    }
  }

  lemma AnswerSends(w: World, t: TaskId, frames: seq<Json>, v: Json)
    requires Quiet(frames) && EndsAt(frames + [v], |frames|)
    ensures ReadValue(w, t, Fold(w, t, frames), v).events == UsageEvents(t, v) + [Ended(t, TerminalOutcome(v))]
    ensures ReadValue(w, t, Fold(w, t, frames), v).after.ended
    ensures ReadValue(w, t, Fold(w, t, frames), v).artifact.None?
  {
    hide Fold, TerminalOutcome, UsageEvents, ReadUpdate, OnPermission;
    StateFromHistory(w, t, frames);
    PromptIdExtend(frames, v);
    assert (frames + [v])[..|frames| + 1] == frames + [v];
  }
}
