/**
The tool-call accumulator of the acp adapter
(crates/bastion-agent-runtime/src/acp.rs). Patches of many calls interleave and
the terminal one knows least; what is reported at it is proved to be what that
call's own patches since its last terminal one say.
*/
module ToolCalls {
  import opened Events
  import opened Filters
  import LineCounts
  import Paths

  datatype Status = Pending | InProgress | Completed | Failed

  datatype Block = DiffBlock(path: string, before: Option<string>, after: string) | OtherBlock

  /** A `tool_call` frame, or a `tool_call_update` with the fields it carries. */
  datatype Patch =
    | Call(id: string, name: string, places: seq<string>, blocks: seq<Block>, input: string)
    | Update(id: string, title: Option<string>, locations: Option<seq<string>>, content: Option<seq<Block>>,
             status: Option<Status>, output: string)

  /** The workspace: which paths are inside it, how they are shown, and what can be read. */
  datatype World = World(allowed: string -> bool, relative: string -> string, read: string -> Option<string>)

  datatype ToolCallState = ToolCallState(title: string, locations: seq<string>)

  const UNKNOWN := ToolCallState("", [])

  // ---- one patch

  function TitleOf(p: Patch): string {
    if p.Call? then p.name else if p.title.Some? then p.title.value else ""
  }

  function BlocksOf(p: Patch): seq<Block> {
    if p.Call? then p.blocks else if p.content.Some? then p.content.value else []
  }

  function DiffPaths(blocks: seq<Block>): seq<string> {
    if blocks == [] then []
    else
      var rest, last := DiffPaths(blocks[..|blocks| - 1]), blocks[|blocks| - 1];
      if last.DiffBlock? then rest + [last.path] else rest
  }

  /** The paths a patch mentions: its locations, then those of its diffs. */
  function Mentions(p: Patch): seq<string> {
    (if p.Call? then p.places else if p.locations.Some? then p.locations.value else []) + DiffPaths(BlocksOf(p))
  }

  predicate IsTerminal(p: Patch) {
    p.Update? && (p.status == Some(Completed) || p.status == Some(Status.Failed))
  }

  // ---- the accumulator

  /** Paths are equal when their components are, however they are written. */
  predicate SamePath(a: string, b: string) {
    Paths.Components(a) == Paths.Components(b)
  }

  predicate Recorded(known: seq<string>, path: string) {
    exists i :: 0 <= i < |known| && SamePath(known[i], path)
  }

  /** remember_location, over several paths. */
  function RememberAll(known: seq<string>, paths: seq<string>): seq<string> {
    if paths == [] then known
    else
      var rest, last := RememberAll(known, paths[..|paths| - 1]), paths[|paths| - 1];
      if Recorded(rest, last) then rest else rest + [last]
  }

  function Folded(s: ToolCallState, p: Patch): ToolCallState {
    ToolCallState(if TitleOf(p) != "" then TitleOf(p) else s.title, RememberAll(s.locations, Mentions(p)))
  }

  function StateOf(calls: map<string, ToolCallState>, id: string): ToolCallState {
    if id in calls then calls[id] else UNKNOWN
  }

  function After(calls: map<string, ToolCallState>, p: Patch): map<string, ToolCallState> {
    if IsTerminal(p) then calls - {p.id} else calls[p.id := Folded(StateOf(calls, p.id), p)]
  }

  // ---- what is emitted

  function DiffEvents(w: World, t: TaskId, blocks: seq<Block>): seq<Event> {
    if blocks == [] then []
    else
      var rest, last := DiffEvents(w, t, blocks[..|blocks| - 1]), blocks[|blocks| - 1];
      if last.OtherBlock? then rest
      else
        var counts := LineCounts.AcpCounts(last.before, last.after);
        rest + [Diff(t, w.relative(last.path), counts.0, counts.1)]
  }

  function ArtifactEvents(w: World, t: TaskId, paths: seq<string>): seq<Event> {
    if paths == [] then []
    else
      var rest, last := ArtifactEvents(w, t, paths[..|paths| - 1]), paths[|paths| - 1];
      if w.allowed(last) && w.read(last).Some? then rest + [Artifact(t, w.relative(last), w.read(last).value)] else rest
  }

  /** The report at a terminal patch, from what is known about the call. */
  function Report(w: World, t: TaskId, s: ToolCallState, p: Patch): seq<Event>
    requires IsTerminal(p)
  {
    [ToolResult(t, s.title, p.output, p.status == Some(Status.Failed))] +
    if p.status == Some(Completed) then ArtifactEvents(w, t, s.locations) else []
  }

  function Emitted(w: World, t: TaskId, calls: map<string, ToolCallState>, p: Patch): seq<Event> {
    if p.Call? then [ToolCall(t, p.name, p.input)] + DiffEvents(w, t, p.blocks)
    else
      DiffEvents(w, t, BlocksOf(p)) +
      if IsTerminal(p) then Report(w, t, Folded(StateOf(calls, p.id), p), p) else []
  }

  class Shared {
    const world: World
    var toolCalls: map<string, ToolCallState>

    constructor (world: World)
      ensures this.world == world && toolCalls == map[]
    {
      this.world, toolCalls := world, map[];
    }

    /** Merges the paths into those recorded, each once. */
    static method RememberLocations(known: seq<string>, paths: seq<string>) returns (locations: seq<string>)
      ensures locations == RememberAll(known, paths)
    {
      locations := known;
      for i := 0 to |paths|
        invariant locations == RememberAll(known, paths[..i])
      {
        assert paths[..i + 1][..i] == paths[..i];
        if !Recorded(locations, paths[i]) {
          locations := locations + [paths[i]];
        }
      }
      assert paths[..|paths|] == paths;
    }

    static method RememberDiffs(known: seq<string>, blocks: seq<Block>) returns (locations: seq<string>)
      ensures locations == RememberAll(known, DiffPaths(blocks))
    {
      locations := known;
      for i := 0 to |blocks|
        invariant locations == RememberAll(known, DiffPaths(blocks[..i]))
      {
        assert blocks[..i + 1][..i] == blocks[..i];
        if blocks[i].DiffBlock? {
          var paths := DiffPaths(blocks[..i]);
          assert (paths + [blocks[i].path])[..|paths|] == paths;
          if !Recorded(locations, blocks[i].path) {
            locations := locations + [blocks[i].path];
          }
        }
      }
      assert blocks[..|blocks|] == blocks;
    }

    method EmitToolCall(task: TaskId, call: Patch) returns (events: seq<Event>)
      requires call.Call?
      modifies this
      ensures toolCalls == After(old(toolCalls), call)
      ensures events == Emitted(world, task, old(toolCalls), call)
    {
      hide ShowsDiffs, DiffEvents;
      var state := StateOf(toolCalls, call.id);
      if call.name != "" {
        state := state.(title := call.name);
      }
      var locations := RememberLocations(state.locations, call.places);
      locations := RememberDiffs(locations, call.blocks);
      RememberAppend(state.locations, call.places, DiffPaths(call.blocks));
      toolCalls := toolCalls[call.id := state.(locations := locations)];
      var diffs := EmitDiffs(task, call.blocks);
      events := [ToolCall(task, call.name, call.input)] + diffs;
    }

    method EmitToolCallUpdate(task: TaskId, update: Patch) returns (events: seq<Event>)
      requires update.Update?
      modifies this
      ensures toolCalls == After(old(toolCalls), update)
      ensures events == Emitted(world, task, old(toolCalls), update)
    {
      hide Publishes, ShowsDiffs, Folded, ArtifactEvents;
      var state := FoldUpdate(update);
      toolCalls := toolCalls[update.id := state];
      events := [];
      if update.content.Some? {
        events := EmitDiffs(task, update.content.value);
      }
      if !IsTerminal(update) {
        return;
      }
      var isError := update.status == Some(Status.Failed);
      var result := [ToolResult(task, state.title, update.output, isError)];
      if !isError {
        var artifacts := EmitArtifacts(task, state.locations);
        result := result + artifacts;
      }
      events := events + result;
      toolCalls := toolCalls - {update.id};
    }

    /** The patch folded into what is known about its call, before its status is looked at. */
    method FoldUpdate(update: Patch) returns (state: ToolCallState)
      requires update.Update?
      ensures state == Folded(StateOf(toolCalls, update.id), update)
    {
      state := StateOf(toolCalls, update.id);
      ghost var known, places := state.locations, if update.locations.Some? then update.locations.value else [];
      if update.title.Some? && update.title.value != "" {
        state := state.(title := update.title.value);
      }
      if update.locations.Some? {
        var locations := RememberLocations(state.locations, update.locations.value);
        state := state.(locations := locations);
      }
      if update.content.Some? {
        var locations := RememberDiffs(state.locations, update.content.value);
        state := state.(locations := locations);
      }
      RememberAppend(known, places, DiffPaths(BlocksOf(update)));
    }

    method EmitDiffs(task: TaskId, blocks: seq<Block>) returns (events: seq<Event>)
      ensures events == DiffEvents(world, task, blocks)
      ensures ShowsDiffs(world, task, blocks, events)
    {
      events := [];
      for i := 0 to |blocks|
        invariant events == DiffEvents(world, task, blocks[..i])
      {
        assert blocks[..i + 1][..i] == blocks[..i];
        if blocks[i].DiffBlock? {
          var counts := LineCounts.AcpCounts(blocks[i].before, blocks[i].after);
          events := events + [Diff(task, world.relative(blocks[i].path), counts.0, counts.1)];
        }
      }
      assert blocks[..|blocks|] == blocks;
      DiffsShown(world, task, blocks);
    }

    method EmitArtifacts(task: TaskId, paths: seq<string>) returns (events: seq<Event>)
      ensures events == ArtifactEvents(world, task, paths)
      ensures Publishes(world, task, paths, events)
    {
      events := [];
      for i := 0 to |paths|
        invariant events == ArtifactEvents(world, task, paths[..i])
      {
        assert paths[..i + 1][..i] == paths[..i];
        if !world.allowed(paths[i]) {
          continue;
        }
        var bytes := world.read(paths[i]);
        if bytes.None? {
          continue;
        }
        events := events + [Artifact(task, world.relative(paths[i]), bytes.value)];
      }
      assert paths[..|paths|] == paths;
      ArtifactsPublished(world, task, paths);
    }
  }

  // ---- what is published and shown, path by path and block by block

  /** The listed paths inside the workspace that can be read. */
  ghost function Publishable(w: World, paths: seq<string>): nat -> bool {
    (i: nat) => i < |paths| && w.allowed(paths[i]) && w.read(paths[i]).Some?
  }

  /** Exactly those are published, in the order of the list, each with its content. */
  ghost predicate Publishes(w: World, t: TaskId, paths: seq<string>, events: seq<Event>) {
    exists at: seq<nat> :: Picks(at, |paths|, Publishable(w, paths)) && PublishedAt(w, t, paths, at, events)
  }

  ghost predicate PublishedAt(w: World, t: TaskId, paths: seq<string>, at: seq<nat>, events: seq<Event>) {
    && |events| == |at|
    && forall k :: 0 <= k < |events| ==>
         && at[k] < |paths| && events[k].Artifact? && events[k].task == t
         && events[k].path == w.relative(paths[at[k]]) && w.read(paths[at[k]]) == Some(events[k].digested)
  }

  lemma ArtifactsPublished(w: World, t: TaskId, paths: seq<string>)
    ensures Publishes(w, t, paths, ArtifactEvents(w, t, paths))
  {
    assert paths[..|paths|] == paths;
    var at := PublishedSoFar(w, t, paths, |paths|);
  }

  lemma {:induction false} PublishedSoFar(w: World, t: TaskId, paths: seq<string>, n: nat) returns (at: seq<nat>)
    requires n <= |paths|
    ensures Picks(at, n, Publishable(w, paths))
    ensures PublishedAt(w, t, paths, at, ArtifactEvents(w, t, paths[..n]))
  {
    if n == 0 {
      at := [];
    } else {
      at := PublishedSoFar(w, t, paths, n - 1);
      assert paths[..n][..n - 1] == paths[..n - 1];
      PicksNext(at, n - 1, Publishable(w, paths));
      if Publishable(w, paths)(n - 1) {
        at := at + [n - 1];
      }
    }
  }

  ghost function Diffs(blocks: seq<Block>): nat -> bool {
    (i: nat) => i < |blocks| && blocks[i].DiffBlock?
  }

  /** One `Diff` for each diff block, in order, with the lines of its two texts. */
  ghost predicate ShowsDiffs(w: World, t: TaskId, blocks: seq<Block>, events: seq<Event>) {
    exists at: seq<nat> :: Picks(at, |blocks|, Diffs(blocks)) && ShownAt(w, t, blocks, at, events)
  }

  ghost predicate ShownAt(w: World, t: TaskId, blocks: seq<Block>, at: seq<nat>, events: seq<Event>) {
    && |events| == |at|
    && forall k :: 0 <= k < |events| ==>
         && at[k] < |blocks| && blocks[at[k]].DiffBlock?
         && events[k] == Diff(t, w.relative(blocks[at[k]].path), |LineCounts.Lines(blocks[at[k]].after)|,
                              match blocks[at[k]].before
                              case None => 0
                              case Some(text) => |LineCounts.Lines(text)|)
  }

  lemma DiffsShown(w: World, t: TaskId, blocks: seq<Block>)
    ensures ShowsDiffs(w, t, blocks, DiffEvents(w, t, blocks))
  {
    assert blocks[..|blocks|] == blocks;
    var at := ShownSoFar(w, t, blocks, |blocks|);
  }

  lemma {:induction false} ShownSoFar(w: World, t: TaskId, blocks: seq<Block>, n: nat) returns (at: seq<nat>)
    requires n <= |blocks|
    ensures Picks(at, n, Diffs(blocks))
    ensures ShownAt(w, t, blocks, at, DiffEvents(w, t, blocks[..n]))
  {
    hide Picks, ShownAt, DiffEvents;
    if n == 0 {
      at := [];
      PicksNone(Diffs(blocks));
      ShownNone(w, t, blocks);
    } else {
      at := ShownSoFar(w, t, blocks, n - 1);
      PicksNext(at, n - 1, Diffs(blocks));
      ShownNext(w, t, blocks, at, n - 1);
      if blocks[n - 1].DiffBlock? {
        at := at + [n - 1];
      }
    }
  }

  lemma ShownNone(w: World, t: TaskId, blocks: seq<Block>)
    ensures ShownAt(w, t, blocks, [], DiffEvents(w, t, blocks[..0]))
  {
  }

  lemma ShownNext(w: World, t: TaskId, blocks: seq<Block>, at: seq<nat>, n: nat)
    requires n < |blocks| && ShownAt(w, t, blocks, at, DiffEvents(w, t, blocks[..n]))
    ensures ShownAt(w, t, blocks, if blocks[n].DiffBlock? then at + [n] else at, DiffEvents(w, t, blocks[..n + 1]))
  {
    hide LineCounts.Lines;
    assert blocks[..n + 1][..n] == blocks[..n];
  }

  lemma {:induction false} RememberAppend(known: seq<string>, a: seq<string>, b: seq<string>)
    ensures RememberAll(known, a + b) == RememberAll(RememberAll(known, a), b)
  {
    hide Recorded;
    if b == [] {
      assert a + b == a;
    } else {
      var init, last := b[..|b| - 1], b[|b| - 1];
      RememberAppend(known, a, init);
      RememberLast(known, a + init, last);
      RememberLast(RememberAll(known, a), init, last);
      hide RememberAll;
      assert a + b == (a + init) + [last] && b == init + [last];
    }
  }

  lemma RememberLast(known: seq<string>, paths: seq<string>, last: string)
    ensures var rest := RememberAll(known, paths);
      RememberAll(known, paths + [last]) == if Recorded(rest, last) then rest else rest + [last]
  {
    hide Recorded;
    assert (paths + [last])[..|paths|] == paths;
  }

  // ---- what the history of a call says

  /** The patches of call `id` since its last terminal one. */
  function SinceTerminal(patches: seq<Patch>, id: string): seq<Patch> {
    if patches == [] then []
    else
      var before, last := SinceTerminal(patches[..|patches| - 1], id), patches[|patches| - 1];
      if last.id != id then before else if IsTerminal(last) then [] else before + [last]
  }

  /** The last title that is not empty. */
  function LastTitle(patches: seq<Patch>): string {
    if patches == [] then ""
    else
      var last := patches[|patches| - 1];
      if TitleOf(last) != "" then TitleOf(last) else LastTitle(patches[..|patches| - 1])
  }

  function AllMentions(patches: seq<Patch>): seq<string> {
    if patches == [] then [] else AllMentions(patches[..|patches| - 1]) + Mentions(patches[|patches| - 1])
  }

  /** `kept` lists the paths of `all` once each, as first written, in the order they first occur. */
  ghost predicate FirstOccurrences(kept: seq<string>, all: seq<string>) {
    && (forall p :: p in all ==> Recorded(kept, p))
    && (forall i :: 0 <= i < |kept| ==> FirstIndex(all, kept[i]) < |all| && all[FirstIndex(all, kept[i])] == kept[i])
    && (forall i, j :: 0 <= i < j < |kept| ==> FirstIndex(all, kept[i]) < FirstIndex(all, kept[j]))
  }

  /** Where a path is first mentioned, in whatever spelling. */
  function FirstIndex(all: seq<string>, p: string): (i: nat)
    ensures i <= |all|
  {
    if all == [] || SamePath(all[0], p) then 0 else 1 + FirstIndex(all[1..], p)
  }

  lemma {:induction false} FirstIndexIsFirst(all: seq<string>, p: string)
    ensures FirstIndex(all, p) < |all| ==> SamePath(all[FirstIndex(all, p)], p)
    ensures forall j :: 0 <= j < FirstIndex(all, p) ==> !SamePath(all[j], p)
  {
    hide SamePath;
    if all != [] && !SamePath(all[0], p) {
      FirstIndexIsFirst(all[1..], p);
      assert forall j :: 0 < j < |all| ==> all[j] == all[1..][j - 1];
    }
  }

  lemma {:induction false} FirstIndexAppend(all: seq<string>, q: string, p: string)
    ensures FirstIndex(all + [q], p) ==
      if Recorded(all, p) then FirstIndex(all, p) else if SamePath(q, p) then |all| else |all| + 1
    ensures Recorded(all, p) <==> FirstIndex(all, p) < |all|
  {
    hide SamePath;
    if all == [] {
      assert all + [q] == [q] && [q][1..] == [];
    } else {
      assert (all + [q])[1..] == all[1..] + [q];
      FirstIndexAppend(all[1..], q, p);
      RecordedCons(all, p);
    }
  }

  lemma RecordedCons(all: seq<string>, p: string)
    requires all != []
    ensures Recorded(all, p) <==> SamePath(all[0], p) || Recorded(all[1..], p)
  {
    hide SamePath;
    assert forall i :: 0 < i < |all| ==> all[1..][i - 1] == all[i];
  }

  /** Spelling does not matter to where a path is first mentioned. */
  lemma {:induction false} SameFirstIndex(all: seq<string>, p: string, q: string)
    requires SamePath(p, q)
    ensures FirstIndex(all, p) == FirstIndex(all, q)
  {
    if all != [] {
      SameFirstIndex(all[1..], p, q);
    }
  }

  /** One list only has that content and order. */
  lemma FirstOccurrencesUnique(a: seq<string>, b: seq<string>, all: seq<string>)
    requires FirstOccurrences(a, all) && FirstOccurrences(b, all)
    ensures a == b
  {
    NotShorter(a, b, all);
    NotShorter(b, a, all);
    forall k | 0 <= k < |a|
      ensures a[k] == b[k]
    {
      SamePlace(a, b, all, k);
    }
  }

  /** A kept path is the first mention, so it is in every such list. */
  lemma KeptInBoth(a: seq<string>, b: seq<string>, all: seq<string>, k: nat) returns (i: nat)
    requires FirstOccurrences(a, all) && FirstOccurrences(b, all) && k < |a|
    ensures i < |b| && b[i] == a[k]
  {
    hide SamePath;
    var p := a[k];
    assert p in all by {
      assert all[FirstIndex(all, p)] == p;
    }
    assert Recorded(b, p);
    i :| 0 <= i < |b| && SamePath(b[i], p);
    SameFirstIndex(all, b[i], p);
  }

  lemma {:induction false} SamePlace(a: seq<string>, b: seq<string>, all: seq<string>, k: nat)
    requires FirstOccurrences(a, all) && FirstOccurrences(b, all) && k < |a| && k < |b|
    ensures a[k] == b[k]
  {
    hide SamePath, Recorded;
    forall i | 0 <= i < k
      ensures a[i] == b[i]
    {
      SamePlace(a, b, all, i);
    }
    var i := KeptInBoth(a, b, all, k);
    var j := KeptInBoth(b, a, all, k);
    NoRepeats(a, all);
    NoRepeats(b, all);
    assert i >= k && j >= k;
  }

  lemma NoRepeats(a: seq<string>, all: seq<string>)
    requires FirstOccurrences(a, all)
    ensures forall i, j :: 0 <= i < j < |a| ==> a[i] != a[j]
  {
  }

  lemma NotShorter(a: seq<string>, b: seq<string>, all: seq<string>)
    requires FirstOccurrences(a, all) && FirstOccurrences(b, all)
    ensures |a| >= |b|
  {
    hide SamePath, Recorded;
    if |a| < |b| {
      var i := KeptInBoth(b, a, all, |a|);
      NoRepeats(b, all);
      SamePlace(a, b, all, i);
    }
  }

  /** No path is kept twice, in whatever spellings. */
  lemma NoSamePaths(kept: seq<string>, all: seq<string>, i: nat, j: nat)
    requires FirstOccurrences(kept, all) && i < j < |kept|
    ensures !SamePath(kept[i], kept[j])
  {
    if SamePath(kept[i], kept[j]) {
      SameFirstIndex(all, kept[i], kept[j]);
    }
  }

  /** Remembering paths one by one yields exactly the first occurrences. */
  lemma {:induction false} RememberedFirst(all: seq<string>)
    ensures FirstOccurrences(RememberAll([], all), all)
  {
    hide SamePath;
    if all != [] {
      var before, q := all[..|all| - 1], all[|all| - 1];
      RememberedFirst(before);
      assert all == before + [q];
      RememberedLast(RememberAll([], before), before, q);
    }
  }

  lemma RememberedLast(kept: seq<string>, before: seq<string>, q: string)
    requires FirstOccurrences(kept, before)
    ensures FirstOccurrences(if Recorded(kept, q) then kept else kept + [q], before + [q])
  {
    hide FirstOccurrences;
    RecordedBoth(kept, before, q);
    if Recorded(kept, q) {
      MentionedAgain(kept, before, q);
    } else {
      MentionedFirst(kept, before, q);
    }
  }

  /** Where the kept paths are first mentioned does not change. */
  lemma KeptIndex(kept: seq<string>, before: seq<string>, q: string, i: nat)
    requires FirstOccurrences(kept, before) && i < |kept|
    ensures FirstIndex(before + [q], kept[i]) == FirstIndex(before, kept[i]) < |before|
    ensures (before + [q])[FirstIndex(before, kept[i])] == kept[i]
  {
    hide SamePath, Recorded;
    FirstIndexAppend(before, q, kept[i]);
  }

  lemma MentionedAgain(kept: seq<string>, before: seq<string>, q: string)
    requires FirstOccurrences(kept, before) && Recorded(kept, q)
    ensures FirstOccurrences(kept, before + [q])
  {
    hide SamePath, Recorded, FirstIndex;
    forall i | 0 <= i < |kept|
      ensures FirstIndex(before + [q], kept[i]) == FirstIndex(before, kept[i]) < |before|
      ensures (before + [q])[FirstIndex(before, kept[i])] == kept[i]
    {
      KeptIndex(kept, before, q, i);
    }
  }

  lemma MentionedFirst(kept: seq<string>, before: seq<string>, q: string)
    requires FirstOccurrences(kept, before) && !Recorded(before, q)
    ensures FirstOccurrences(kept + [q], before + [q])
  {
    hide SamePath, Recorded, FirstIndex;
    var now := kept + [q];
    forall i | 0 <= i < |kept|
      ensures FirstIndex(before + [q], kept[i]) == FirstIndex(before, kept[i]) < |before|
      ensures (before + [q])[FirstIndex(before, kept[i])] == kept[i]
    {
      KeptIndex(kept, before, q, i);
    }
    FirstIndexAppend(before, q, q);
    assert SamePath(q, q) by {
      Reflexive(q);
    }
    forall p | p in before + [q]
      ensures Recorded(now, p)
    {
      StillRecorded(kept, q, p);
    }
  }

  lemma StillRecorded(kept: seq<string>, q: string, p: string)
    requires Recorded(kept, p) || p == q
    ensures Recorded(kept + [q], p)
  {
    var now := kept + [q];
    if i :| 0 <= i < |kept| && SamePath(kept[i], p) {
      assert now[i] == kept[i];
    } else {
      assert now[|kept|] == q;
    }
  }

  lemma Reflexive(p: string)
    ensures SamePath(p, p)
  {
  }

  /** What is kept and what was mentioned record the same paths. */
  lemma RecordedBoth(kept: seq<string>, before: seq<string>, q: string)
    requires FirstOccurrences(kept, before)
    ensures Recorded(kept, q) <==> Recorded(before, q)
  {
    if i :| 0 <= i < |kept| && SamePath(kept[i], q) {
      assert before[FirstIndex(before, kept[i])] == kept[i];
    }
    if i :| 0 <= i < |before| && SamePath(before[i], q) {
      assert Recorded(kept, before[i]);
      var j :| 0 <= j < |kept| && SamePath(kept[j], before[i]);
      assert SamePath(kept[j], q);
    }
  }

  // ---- the accumulator is the history

  function Accumulated(patches: seq<Patch>): map<string, ToolCallState> {
    if patches == [] then map[] else After(Accumulated(patches[..|patches| - 1]), patches[|patches| - 1])
  }

  /** Recomputing a call's state from its patches. */
  function Recomputed(own: seq<Patch>): ToolCallState {
    ToolCallState(LastTitle(own), RememberAll([], AllMentions(own)))
  }

  lemma FoldedRecomputed(own: seq<Patch>, p: Patch)
    ensures Folded(Recomputed(own), p) == Recomputed(own + [p])
  {
    assert (own + [p])[..|own|] == own;
    RememberAppend([], AllMentions(own), Mentions(p));
  }

  /** Whatever patches of other calls came between. */
  lemma {:induction false} AccumulatorIsHistory(patches: seq<Patch>, id: string)
    ensures StateOf(Accumulated(patches), id) == Recomputed(SinceTerminal(patches, id))
    ensures id in Accumulated(patches) <==> SinceTerminal(patches, id) != []
  {
    if patches != [] {
      var before, last := patches[..|patches| - 1], patches[|patches| - 1];
      AccumulatorIsHistory(before, id);
      if last.id == id {
        FoldedRecomputed(SinceTerminal(before, id), last);
      }
    }
  }

  /** What patch `p` calls its tool call, if it names it. */
  ghost predicate Titled(p: Patch, title: string) {
    title != "" && match p
      case Call(_, name, _, _, _) => name == title
      case Update(_, newTitle, _, _, _, _) => newTitle == Some(title)
  }

  /** The last title that one of the patches gives. */
  lemma {:induction false} LastTitleExactly(own: seq<Patch>, title: string)
    ensures LastTitle(own) == title <==>
      || (title == "" && forall i, other :: 0 <= i < |own| ==> !Titled(own[i], other))
      || (exists k :: 0 <= k < |own| && Titled(own[k], title) &&
            forall i, other :: k < i < |own| ==> !Titled(own[i], other))
  {
    if own != [] {
      var n := |own| - 1;
      LastTitleExactly(own[..n], title);
      LastTitleExactly(own[..n], LastTitle(own[..n]));
      assert Titled(own[n], TitleOf(own[n])) <==> TitleOf(own[n]) != "";
    }
  }

  /** A patch mentions a path as one of its locations or in one of its diffs. */
  ghost predicate MentionedBy(p: Patch, path: string) {
    match p
    case Call(_, _, places, blocks, _) => path in places || InDiff(blocks, path)
    case Update(_, _, locations, content, _, _) =>
      (locations.Some? && path in locations.value) || (content.Some? && InDiff(content.value, path))
  }

  ghost predicate InDiff(blocks: seq<Block>, path: string) {
    exists i :: 0 <= i < |blocks| && blocks[i].DiffBlock? && blocks[i].path == path
  }

  lemma {:induction false} DiffPathsExactly(blocks: seq<Block>, path: string)
    ensures path in DiffPaths(blocks) <==> InDiff(blocks, path)
  {
    if blocks != [] {
      DiffPathsExactly(blocks[..|blocks| - 1], path);
    }
  }

  /** The paths collected are those the patches mention. */
  lemma {:induction false} MentionsExactly(own: seq<Patch>, path: string)
    ensures path in AllMentions(own) <==> exists i :: 0 <= i < |own| && MentionedBy(own[i], path)
  {
    if own != [] {
      var n := |own| - 1;
      MentionsExactly(own[..n], path);
      DiffPathsExactly(BlocksOf(own[n]), path);
      assert path in Mentions(own[n]) <==> MentionedBy(own[n], path);
      assert forall i :: 0 <= i < n ==> own[..n][i] == own[i];
    }
  }

  /** A patch mentions its locations first, then the files of its diffs, in order. */
  lemma MentionsInOrder(p: Patch) returns (at: seq<nat>)
    ensures Picks(at, |BlocksOf(p)|, Diffs(BlocksOf(p)))
    ensures (if p.Call? then p.places else if p.locations.Some? then p.locations.value else []) + DiffPaths(BlocksOf(p))
      == Mentions(p)
    ensures PathsAt(BlocksOf(p), at, DiffPaths(BlocksOf(p)))
  {
    var blocks := BlocksOf(p);
    assert blocks[..|blocks|] == blocks;
    at := PathsSoFar(blocks, |blocks|);
  }

  ghost predicate PathsAt(blocks: seq<Block>, at: seq<nat>, paths: seq<string>) {
    && |paths| == |at|
    && forall k :: 0 <= k < |paths| ==>
         at[k] < |blocks| && blocks[at[k]].DiffBlock? && blocks[at[k]].path == paths[k]
  }

  lemma {:induction false} PathsSoFar(blocks: seq<Block>, n: nat) returns (at: seq<nat>)
    requires n <= |blocks|
    ensures Picks(at, n, Diffs(blocks)) && PathsAt(blocks, at, DiffPaths(blocks[..n]))
  {
    hide Picks, PathsAt, DiffPaths;
    if n == 0 {
      at := [];
      PicksNone(Diffs(blocks));
      PathsAtNone(blocks);
    } else {
      at := PathsSoFar(blocks, n - 1);
      PicksNext(at, n - 1, Diffs(blocks));
      PathsAtNext(blocks, at, n - 1);
      if blocks[n - 1].DiffBlock? {
        at := at + [n - 1];
      }
    }
  }

  lemma PathsAtNone(blocks: seq<Block>)
    ensures PathsAt(blocks, [], DiffPaths(blocks[..0]))
  {
  }

  lemma PathsAtNext(blocks: seq<Block>, at: seq<nat>, n: nat)
    requires n < |blocks| && PathsAt(blocks, at, DiffPaths(blocks[..n]))
    ensures PathsAt(blocks, if blocks[n].DiffBlock? then at + [n] else at, DiffPaths(blocks[..n + 1]))
  {
    assert blocks[..n + 1][..n] == blocks[..n];
  }

  /** Everything sent for a run of patches. */
  function Sent(w: World, t: TaskId, patches: seq<Patch>): seq<Event> {
    if patches == [] then []
    else
      var before := patches[..|patches| - 1];
      Sent(w, t, before) + Emitted(w, t, Accumulated(before), patches[|patches| - 1])
  }

  /**
  At every terminal patch: the patch's own diffs, the result under the last
  title given, and, when it completed, the allowed and readable ones of the
  paths that call's own patches mention, each once, in order of first mention.
  */
  lemma TerminalReport(w: World, t: TaskId, patches: seq<Patch>, p: Patch)
    returns (diffs: seq<Event>, kept: seq<string>, files: seq<Event>)
    requires IsTerminal(p)
    ensures var own := SinceTerminal(patches, p.id) + [p];
      && Emitted(w, t, Accumulated(patches), p) ==
           diffs + [ToolResult(t, LastTitle(own), p.output, p.status == Some(Status.Failed))] + files
      && ShowsDiffs(w, t, if p.content.Some? then p.content.value else [], diffs)
      && FirstOccurrences(kept, AllMentions(own))
      && if p.status == Some(Completed) then Publishes(w, t, kept, files) else files == []
  {
    hide ShowsDiffs, Publishes, FirstOccurrences, Accumulated, SinceTerminal, AllMentions, LastTitle, RememberAll;
    var own := SinceTerminal(patches, p.id) + [p];
    diffs, kept := DiffEvents(w, t, BlocksOf(p)), RememberAll([], AllMentions(own));
    files := if p.status == Some(Completed) then ArtifactEvents(w, t, kept) else [];
    StateAtEnd(patches, p);
    hide DiffEvents, ArtifactEvents, Folded, StateOf;
    RememberedFirst(AllMentions(own));
    DiffsShown(w, t, BlocksOf(p));
    ArtifactsPublished(w, t, kept);
  }

  lemma StateAtEnd(patches: seq<Patch>, p: Patch)
    ensures Folded(StateOf(Accumulated(patches), p.id), p) == Recomputed(SinceTerminal(patches, p.id) + [p])
  {
    hide Folded, Recomputed, Accumulated, SinceTerminal;
    AccumulatorIsHistory(patches, p.id);
    FoldedRecomputed(SinceTerminal(patches, p.id), p);
  }

  /** The other patches: a call announces itself, and both show their diffs. */
  lemma RunningReport(w: World, t: TaskId, patches: seq<Patch>, p: Patch) returns (diffs: seq<Event>)
    requires !IsTerminal(p)
    ensures Emitted(w, t, Accumulated(patches), p) ==
      (if p.Call? then [ToolCall(t, p.name, p.input)] else []) + diffs
    ensures ShowsDiffs(w, t, if p.Call? then p.blocks else if p.content.Some? then p.content.value else [], diffs)
  {
    hide ShowsDiffs, DiffEvents, Accumulated, Report;
    diffs := DiffEvents(w, t, BlocksOf(p));
    DiffsShown(w, t, BlocksOf(p));
  }

  /** `e` publishes a file of the workspace, as it is there. */
  ghost predicate InsideOnly(w: World, e: Event) {
    e.Artifact? ==> exists path :: w.allowed(path) && w.read(path) == Some(e.digested) && e.path == w.relative(path)
  }

  ghost predicate AllInside(w: World, events: seq<Event>) {
    forall i :: 0 <= i < |events| ==> InsideOnly(w, events[i])
  }

  lemma InsideAppend(w: World, a: seq<Event>, b: seq<Event>)
    requires AllInside(w, a) && AllInside(w, b)
    ensures AllInside(w, a + b)
  {
    hide InsideOnly;
  }

  /** Whatever the harness reports, no file outside the workspace is published. */
  lemma {:induction false} OnlyWorkspaceFiles(w: World, t: TaskId, patches: seq<Patch>)
    ensures AllInside(w, Sent(w, t, patches))
  {
    hide Emitted, InsideOnly, Accumulated;
    if patches != [] {
      var before, p := patches[..|patches| - 1], patches[|patches| - 1];
      OnlyWorkspaceFiles(w, t, before);
      PatchInside(w, t, before, p);
      InsideAppend(w, Sent(w, t, before), Emitted(w, t, Accumulated(before), p));
    }
  }

  lemma PatchInside(w: World, t: TaskId, patches: seq<Patch>, p: Patch)
    ensures AllInside(w, Emitted(w, t, Accumulated(patches), p))
  {
    hide ShowsDiffs, Publishes, FirstOccurrences, Accumulated, Emitted, AllInside, SinceTerminal, LastTitle;
    if IsTerminal(p) {
      var diffs, kept, files := TerminalReport(w, t, patches, p);
      ShownInside(w, t, if p.content.Some? then p.content.value else [], diffs);
      if p.status == Some(Completed) {
        PublishedInside(w, t, kept, files);
      } else {
        NothingInside(w);
      }
      var result := ToolResult(t, LastTitle(SinceTerminal(patches, p.id) + [p]), p.output,
                               p.status == Some(Status.Failed));
      SilentInside(w, result);
      InsideAppend(w, diffs, [result]);
      InsideAppend(w, diffs + [result], files);
    } else {
      var diffs := RunningReport(w, t, patches, p);
      ShownInside(w, t, if p.Call? then p.blocks else if p.content.Some? then p.content.value else [], diffs);
      NothingInside(w);
      if p.Call? {
        SilentInside(w, ToolCall(t, p.name, p.input));
      }
      InsideAppend(w, if p.Call? then [ToolCall(t, p.name, p.input)] else [], diffs);
    }
  }

  lemma NothingInside(w: World)
    ensures AllInside(w, [])
  {
  }

  lemma SilentInside(w: World, e: Event)
    requires !e.Artifact?
    ensures AllInside(w, [e])
  {
  }

  lemma ShownInside(w: World, t: TaskId, blocks: seq<Block>, events: seq<Event>)
    requires ShowsDiffs(w, t, blocks, events)
    ensures AllInside(w, events)
  {
  }

  lemma PublishedInside(w: World, t: TaskId, paths: seq<string>, events: seq<Event>)
    requires Publishes(w, t, paths, events)
    ensures AllInside(w, events)
  {
    var at: seq<nat> :| Picks(at, |paths|, Publishable(w, paths)) && PublishedAt(w, t, paths, at, events);
    forall i | 0 <= i < |events|
      ensures InsideOnly(w, events[i])
    {
      assert Publishable(w, paths)(at[i]);
    }
  }

  function Own(patches: seq<Patch>, id: string): seq<Patch> {
    if patches == [] then []
    else
      var before, last := Own(patches[..|patches| - 1], id), patches[|patches| - 1];
      if last.id == id then before + [last] else before
  }

  /** Only a call's own patches matter, so interleaving calls changes no report. */
  lemma {:induction false} OtherCallsIrrelevant(patches: seq<Patch>, id: string)
    ensures SinceTerminal(Own(patches, id), id) == SinceTerminal(patches, id)
  {
    if patches != [] {
      var before, last := patches[..|patches| - 1], patches[|patches| - 1];
      OtherCallsIrrelevant(before, id);
      if last.id == id {
        assert (Own(before, id) + [last])[..|Own(before, id)|] == Own(before, id);
      }
    }
  }

  /** Two interleavings with the same patches of a call leave it in the same state. */
  lemma InterleavingIrrelevant(a: seq<Patch>, b: seq<Patch>, id: string)
    requires Own(a, id) == Own(b, id)
    ensures StateOf(Accumulated(a), id) == StateOf(Accumulated(b), id)
  {
    OtherCallsIrrelevant(a, id);
    OtherCallsIrrelevant(b, id);
    AccumulatorIsHistory(a, id);
    AccumulatorIsHistory(b, id);
  }
}
