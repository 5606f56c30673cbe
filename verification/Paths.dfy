/**
Lexical path resolution in the claude adapter
(crates/bastion-agent-runtime/src/claude_code.rs): how a proposed edit's path
is shown. Paths are Unix paths, read as their components.
*/
module Paths {
  import opened Content

  datatype Component = RootDir | CurDir | ParentDir | Normal(name: string)

  type Path = seq<Component>

  // ---- components

  /** A name a component can have. */
  ghost predicate GoodName(name: string) {
    !BadSegment(name) && '/' !in name
  }

  function SegmentComponent(segment: string): Path {
    if segment == "" || segment == "." then []
    else if segment == ".." then [ParentDir]
    else [Normal(segment)]
  }

  function SegmentComponents(segments: seq<string>): Path {
    if segments == [] then [] else SegmentComponent(segments[0]) + SegmentComponents(segments[1..])
  }

  /** `Path::components`: `.` is kept at the start of a relative path only. */
  function Components(text: string): Path {
    var segments := Split(text);
    if text != "" && text[0] == '/' then [RootDir] + SegmentComponents(segments)
    else if segments[0] == "." then [CurDir] + SegmentComponents(segments[1..])
    else SegmentComponents(segments)
  }

  // ---- normalize

  /** Keeps the root where it is. */
  function Popped(out: Path): Path {
    if out != [] && out[|out| - 1].Normal? then out[..|out| - 1] else out
  }

  function Step(out: Path, c: Component): Path {
    match c
    case CurDir => out
    case ParentDir => Popped(out)
    case RootDir => [RootDir]
    case Normal(_) => out + [c]
  }

  function Resolve(out: Path, path: Path): Path
    decreases |path|
  {
    if path == [] then out else Resolve(Step(out, path[0]), path[1..])
  }

  function Normalized(path: Path): Path { Resolve([], path) }

  /** normalize. */
  method Normalize(path: Path) returns (out: Path)
    ensures out == Normalized(path)
    ensures Clean(out)
  {
    out := [];
    for i := 0 to |path|
      invariant Resolve(out, path[i..]) == Normalized(path)
    {
      assert path[i..][0] == path[i] && path[i..][1..] == path[i + 1..];
      match path[i] {
        case CurDir =>
        case ParentDir =>
          if out != [] && out[|out| - 1].Normal? {
            out := out[..|out| - 1];
          }
        case RootDir => out := [RootDir];
        case Normal(_) => out := out + [path[i]];
      }
    }
    ResolveClean([], path);
  }

  /** A root at most, then names: no `.` and no `..`. */
  ghost predicate Clean(path: Path) {
    forall i :: 0 <= i < |path| ==> path[i].Normal? || (i == 0 && path[i].RootDir?)
  }

  predicate Absolute(path: Path) {
    path != [] && path[0].RootDir?
  }

  lemma {:induction false} ResolveClean(out: Path, path: Path)
    requires Clean(out)
    ensures Clean(Resolve(out, path))
    ensures Absolute(out) ==> Absolute(Resolve(out, path))
    decreases |path|
  {
    if path != [] {
      ResolveClean(Step(out, path[0]), path[1..]);
    }
  }

  lemma {:induction false} ResolveAppend(out: Path, a: Path, b: Path)
    ensures Resolve(out, a + b) == Resolve(Resolve(out, a), b)
    decreases |a|
  {
    hide Step;
    if a == [] {
      assert a + b == b;
    } else {
      var first, rest := a[0], a[1..];
      ResolveAppend(Step(out, first), rest, b);
      assert (a + b)[0] == first && (a + b)[1..] == rest + b;
    }
  }

  /** Names are simply appended. */
  lemma {:induction false} ResolveNames(out: Path, names: Path)
    requires forall i :: 0 <= i < |names| ==> names[i].Normal?
    ensures Resolve(out, names) == out + names
    decreases |names|
  {
    if names != [] {
      ResolveNames(out + [names[0]], names[1..]);
      assert names == [names[0]] + names[1..];
    }
  }

  lemma CleanFixed(path: Path)
    requires Clean(path)
    ensures Normalized(path) == path
  {
    if Absolute(path) {
      ResolveNames([RootDir], path[1..]);
    } else {
      ResolveNames([], path);
    }
  }

  /** Normalizing is idempotent, and leaves no `.` or `..`. */
  lemma NormalizedIdempotent(path: Path)
    ensures Clean(Normalized(path)) && Normalized(Normalized(path)) == Normalized(path)
  {
    ResolveClean([], path);
    CleanFixed(Normalized(path));
  }

  /** `.` changes nothing, `..` takes back the name before it, a root starts over. */
  lemma ComponentLaws(p: Path, n: string, q: Path)
    ensures Normalized(p + [CurDir] + q) == Normalized(p + q)
    ensures Normalized(p + [Normal(n), ParentDir] + q) == Normalized(p + q)
    ensures Normalized(p + [RootDir] + q) == Normalized([RootDir] + q)
  {
    var out := Resolve([], p);
    ResolveAppend([], p, q);
    ResolveAppend([], p + [CurDir], q);
    ResolveAppend([], p, [CurDir]);
    ResolveAppend([], p + [Normal(n), ParentDir], q);
    ResolveAppend([], p, [Normal(n), ParentDir]);
    ResolveAppend([], p + [RootDir], q);
    ResolveAppend([], p, [RootDir]);
    ResolveAppend([], [RootDir], q);
    assert [Normal(n), ParentDir][1..] == [ParentDir];
    assert Step(out, Normal(n)) == out + [Normal(n)];
    assert Step(out + [Normal(n)], ParentDir) == out;
    assert Resolve(out, [Normal(n), ParentDir]) == Resolve(Step(out, Normal(n)), [ParentDir]);
    assert Resolve(out + [Normal(n)], [ParentDir]) == Resolve(out, []);
  }

  /** What one more component makes of a normalized path. */
  lemma OneMore(p: Path, c: Component)
    ensures var before := Normalized(p);
      Normalized(p + [c]) ==
        match c
        case Normal(_) => before + [c]
        case CurDir => before
        case RootDir => [RootDir]
        case ParentDir => if before == [] || before == [RootDir] then before else before[..|before| - 1]
  {
    ResolveAppend([], p, [c]);
    ResolveClean([], p);
  }

  // ---- joining

  /** `Path::join`: an absolute second path wins; a leading `.` of it disappears. */
  function Joined(a: Path, b: Path): Path {
    if Absolute(b) then b else if a != [] && b != [] && b[0].CurDir? then a + b[1..] else a + b
  }

  lemma JoinedResolves(out: Path, a: Path, b: Path)
    ensures Resolve(out, Joined(a, b)) == Resolve(Resolve(out, a), b)
  {
    ResolveAppend(out, a, b);
    if Absolute(b) {
      assert Step(out, b[0]) == Step(Resolve(out, a), b[0]);
    } else if a != [] && b != [] && b[0].CurDir? {
      ResolveAppend(out, a, b[1..]);
    }
  }

  /** The first path may be normalized before joining. */
  lemma NormalizedJoin(a: Path, b: Path)
    ensures Normalized(Joined(a, b)) == Normalized(Joined(Normalized(a), b))
  {
    JoinedResolves([], a, b);
    JoinedResolves([], Normalized(a), b);
    NormalizedIdempotent(a);
  }

  // ---- what an edit's path is shown as

  /** display_path: relative inside the root, normalized and absolute elsewhere. */
  function DisplayPath(path: Path, root: Path): Path {
    var normalized, base := Normalized(path), Normalized(root);
    if base < normalized then normalized[|base|..] else normalized
  }

  /** edit_path's last step: the path as given, or under the root. */
  function EditPath(raw: Path, root: Path): Path { Joined(root, raw) }

  lemma {:induction false} NormalizedAbsolute(path: Path)
    requires Absolute(path)
    ensures Absolute(Normalized(path)) && Clean(Normalized(path))
  {
    ResolveClean([RootDir], path[1..]);
  }

  lemma JoinedAbsolute(root: Path, raw: Path)
    requires Absolute(root)
    ensures Absolute(Joined(root, raw))
  {
  }

  /**
  Whatever path an edit names, it is shown relative exactly when it resolves
  strictly inside the root, and what is shown leads back to the same place.
  */
  lemma DisplayExact(raw: Path, root: Path)
    requires Absolute(root)
    ensures var path := EditPath(raw, root);
      && (!Absolute(DisplayPath(path, root)) <==> Normalized(root) < Normalized(path))
      && Normalized(Joined(root, DisplayPath(path, root))) == Normalized(path)
      && Clean(DisplayPath(path, root))
  {
    var path := EditPath(raw, root);
    var normalized, base, shown := Normalized(path), Normalized(root), DisplayPath(path, root);
    JoinedAbsolute(root, raw);
    NormalizedAbsolute(path);
    NormalizedAbsolute(root);
    if base < normalized {
      assert forall i :: 0 <= i < |shown| ==> shown[i] == normalized[|base| + i];
      NormalizedJoin(root, shown);
      assert Joined(base, shown) == normalized;
      CleanFixed(normalized);
    } else {
      CleanFixed(normalized);
    }
  }

  /** Two edits shown alike are edits of the same file. */
  lemma DisplayFaithful(a: Path, b: Path, root: Path)
    requires Absolute(root)
    ensures DisplayPath(EditPath(a, root), root) == DisplayPath(EditPath(b, root), root) <==>
      Normalized(EditPath(a, root)) == Normalized(EditPath(b, root))
  {
    DisplayExact(a, root);
    DisplayExact(b, root);
  }

  /**
  An edit one level above the root is shown absolute, so that it stays visibly
  outside; unless it names the root's own directory again and goes on below it.
  */
  lemma AboveRootShown(root: Path, base: Path, last: string, names: Path)
    requires Absolute(root) && Normalized(root) == base + [Normal(last)]
    requires forall i :: 0 <= i < |names| ==> names[i].Normal?
    ensures Normalized(EditPath([ParentDir] + names, root)) == base + names
    ensures DisplayPath(EditPath([ParentDir] + names, root), root) ==
      if |names| > 1 && names[0] == Normal(last) then names[1..] else base + names
  {
    var path := EditPath([ParentDir] + names, root);
    assert path == (root + [ParentDir]) + names;
    OneMore(root, ParentDir);
    assert base + [Normal(last)] != [RootDir] by {
      assert (base + [Normal(last)])[|base|] == Normal(last);
    }
    assert (base + [Normal(last)])[..|base|] == base;
    ResolveAppend([], root + [ParentDir], names);
    ResolveNames(base, names);
    var whole, top := base + names, base + [Normal(last)];
    assert top[|base|] == Normal(last) && (names != [] ==> whole[|base|] == names[0]);
    if |names| > 1 && names[0] == Normal(last) {
      assert whole[..|top|] == top && whole[|top|..] == names[1..];
    }
  }

  // ---- the text of a path

  function SegmentText(c: Component): string {
    match c
    case RootDir => ""
    case CurDir => "."
    case ParentDir => ".."
    case Normal(name) => name
  }

  function Segments(path: Path): seq<string> {
    seq(|path|, i requires 0 <= i < |path| => SegmentText(path[i]))
  }

  /** The text of a path: what `PathBuf` holds after pushing its components. */
  function Text(path: Path): string {
    if path == [] then ""
    else if path == [RootDir] then "/"
    else if Absolute(path) then "/" + Join(Segments(path[1..])) else Join(Segments(path))
  }

  /** Components as they can stand in a text: a root or a `.` at the front only, and proper names. */
  ghost predicate Written(path: Path) {
    forall i :: 0 <= i < |path| ==>
      ((path[i].RootDir? || path[i].CurDir?) ==> i == 0) && (path[i].Normal? ==> GoodName(path[i].name))
  }

  ghost predicate Plain(path: Path) {
    forall i :: 0 <= i < |path| ==> path[i].ParentDir? || (path[i].Normal? && GoodName(path[i].name))
  }

  lemma {:induction false} PlainComponents(path: Path)
    requires Plain(path)
    ensures SegmentComponents(Segments(path)) == path
    ensures NoSlash(Segments(path))
  {
    if path != [] {
      PlainComponents(path[1..]);
      assert Segments(path)[1..] == Segments(path[1..]);
    }
  }

  /** Reading the text of a path gives the path back, `..` included. */
  lemma TextComponents(path: Path)
    requires Written(path)
    ensures Components(Text(path)) == path
  {
    if path == [] || path == [RootDir] {
      ShortText();
    } else if Absolute(path) {
      hide Join, Split, SegmentComponents, Segments;
      assert path == [RootDir] + path[1..];
      RelativeText(path[1..]);
      RootedComponents(Join(Segments(path[1..])));
    } else if path[0].CurDir? {
      DottedText(path);
    } else {
      hide Join, Split, SegmentComponents, Segments;
      RelativeText(path);
    }
  }

  lemma ShortText()
    ensures Components("") == [] && Components("/") == [RootDir]
  {
    assert "/"[1..] == "" && Split("/") == ["", ""];
    assert ["", ""][1..] == [""] && [""][1..] == [];
  }

  lemma RelativeText(path: Path)
    requires path != [] && Plain(path)
    ensures var text := Join(Segments(path));
      && text != "" && text[0] != '/'
      && Split(text)[0] != "." && SegmentComponents(Split(text)) == path
  {
    PlainComponents(path);
    FirstCharacter(Segments(path));
    SplitJoin(Segments(path));
  }

  lemma DottedText(path: Path)
    requires path != [] && path[0].CurDir? && Plain(path[1..])
    ensures Components(Join(Segments(path))) == path
  {
    var segments := Segments(path);
    PlainComponents(path[1..]);
    assert segments[1..] == Segments(path[1..]);
    assert NoSlash(segments) by {
      assert forall i :: 0 < i < |segments| ==> segments[1..][i - 1] == segments[i];
    }
    SplitJoin(segments);
    FirstCharacter(segments);
  }

  lemma RootedComponents(text: string)
    ensures Split("/" + text) == [""] + Split(text)
    ensures SegmentComponents([""] + Split(text)) == SegmentComponents(Split(text))
  {
    assert ("/" + text)[1..] == text;
    assert ([""] + Split(text))[1..] == Split(text);
  }

  lemma FirstCharacter(names: seq<string>)
    requires names != [] && names[0] != "" && '/' !in names[0]
    ensures Join(names) != "" && Join(names)[0] != '/'
  {
    assert Join(names)[0] == names[0][0];
    assert names[0][0] in names[0];
  }

  lemma {:induction false} SegmentsAppend(a: seq<string>, b: seq<string>)
    ensures SegmentComponents(a + b) == SegmentComponents(a) + SegmentComponents(b)
  {
    hide SegmentComponent;
    if a == [] {
      assert a + b == b;
    } else {
      SegmentsAppend(a[1..], b);
      assert (a + b)[0] == a[0] && (a + b)[1..] == a[1..] + b;
    }
  }

  /** A doubled or trailing separator and a `.` on the way are not components. */
  lemma RedundantSegment(a: seq<string>, dot: string, b: seq<string>)
    requires a != [] && NoSlash(a) && NoSlash(b) && a + b != [""] && (dot == "" || dot == ".")
    ensures Components(Join(a + [dot] + b)) == Components(Join(a + b))
  {
    hide Join, SegmentComponents, Components, NoSlash;
    var with, without := a + [dot] + b, a + b;
    NoSlashJoined(a, dot, b);
    ReadSegments(with);
    ReadSegments(without);
    DroppedSegment(a, dot, b);
    DroppedSegment(a[1..], dot, b);
    assert with[1..] == a[1..] + [dot] + b && without[1..] == a[1..] + b;
    assert with[0] == a[0] && without[0] == a[0];
  }

  lemma NoSlashJoined(a: seq<string>, dot: string, b: seq<string>)
    requires NoSlash(a) && NoSlash(b) && (dot == "" || dot == ".")
    ensures NoSlash(a + [dot] + b) && NoSlash(a + b)
  {
  }

  /** The components of a joined path, from its names. */
  lemma ReadSegments(segments: seq<string>)
    requires segments != [] && NoSlash(segments)
    ensures Components(Join(segments)) ==
      if segments[0] == "" && |segments| > 1 then [RootDir] + SegmentComponents(segments)
      else if segments[0] == "." then [CurDir] + SegmentComponents(segments[1..])
      else SegmentComponents(segments)
  {
    hide Join, Split, SegmentComponents, NoSlash;
    SplitJoin(segments);
    FirstSlash(segments);
  }

  lemma DroppedSegment(a: seq<string>, dot: string, b: seq<string>)
    requires dot == "" || dot == "."
    ensures SegmentComponents(a + [dot] + b) == SegmentComponents(a + b)
  {
    hide SegmentComponents, SegmentComponent;
    SegmentsAppend(a + [dot], b);
    SegmentsAppend(a, [dot]);
    SegmentsAppend(a, b);
    NoComponent(dot);
    assert SegmentComponents(a) + [] == SegmentComponents(a);
  }

  lemma NoComponent(dot: string)
    requires dot == "" || dot == "."
    ensures SegmentComponents([dot]) == []
  {
    assert [dot][1..] == [];
  }

  /** A text starts with a separator exactly when its first name is empty and not alone. */
  lemma FirstSlash(segments: seq<string>)
    requires segments != [] && NoSlash(segments)
    ensures Join(segments) != "" && Join(segments)[0] == '/' <==> segments[0] == "" && |segments| > 1
  {
    if segments[0] != "" {
      FirstCharacter(segments);
    }
  }

  // ---- names

  ghost predicate GoodNames(path: Path) {
    forall i :: 0 <= i < |path| && path[i].Normal? ==> GoodName(path[i].name)
  }

  /** What is shown is always in normal form. */
  lemma DisplayClean(path: Path, root: Path)
    ensures Clean(DisplayPath(path, root))
  {
    ResolveClean([], path);
    var normalized, base := Normalized(path), Normalized(root);
    if base < normalized {
      assert forall i :: 0 <= i < |normalized| - |base| ==> normalized[|base|..][i] == normalized[|base| + i];
    }
  }

  /** Reading a path's text gives components with proper names. */
  lemma ComponentsGood(text: string)
    ensures GoodNames(Components(text))
  {
    SplitNoSlash(text);
    SegmentsGood(Split(text));
    SegmentsGood(Split(text)[1..]);
  }

  lemma {:induction false} SplitNoSlash(s: string)
    ensures NoSlash(Split(s))
  {
    if s != "" {
      SplitNoSlash(s[1..]);
      var rest := Split(s[1..]);
      assert forall i :: 0 < i < |rest| ==> rest[1..][i - 1] == rest[i];
    }
  }

  lemma {:induction false} SegmentsGood(segments: seq<string>)
    requires NoSlash(segments)
    ensures GoodNames(SegmentComponents(segments))
  {
    if segments != [] {
      SegmentsGood(segments[1..]);
      assert '/' !in segments[0];
    }
  }

  lemma {:induction false} ResolveGood(out: Path, path: Path)
    requires GoodNames(out) && GoodNames(path)
    ensures GoodNames(Resolve(out, path))
    decreases |path|
  {
    if path != [] {
      ResolveGood(Step(out, path[0]), path[1..]);
    }
  }

  /** An edit of a well-named path under a well-named root is shown well named. */
  lemma EditGoodNames(raw: Path, root: Path)
    requires GoodNames(raw) && GoodNames(root)
    ensures GoodNames(Normalized(EditPath(raw, root))) && GoodNames(DisplayPath(EditPath(raw, root), root))
  {
    var path := EditPath(raw, root);
    assert GoodNames(path);
    ResolveGood([], path);
  }
}
