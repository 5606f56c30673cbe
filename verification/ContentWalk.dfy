/**
The directory walk that decides which files a signature covers
(crates/bastion-extension-protocol/src/content.rs). A directory lists its
entries in some order; the walk's result is characterized without that order,
by what looking a path up in the tree finds.
*/
module ContentWalk {
  import opened Events
  import opened Content

  /** A file name; `Raw` when its bytes are not valid UTF-8. */
  datatype Name = Utf8(text: string) | Raw(bytes: seq<nat>)

  /**
  `Unreadable` is a regular file that cannot be read; `Special` is anything
  that is neither a file nor a directory, and a directory that cannot be listed.
  */
  datatype Node =
    | File(digest: Digest)
    | Unreadable
    | Dir(entries: seq<Child>)
    | Symlink
    | Special

  /** One directory entry. */
  datatype Child = Child(name: Name, node: Node)

  const SIGNATURE_SUFFIX := ".sig"

  predicate IsSignature(path: string) {
    |path| >= 4 && path[|path| - 4..] == SIGNATURE_SUFFIX
  }

  /** The names from the root to an entry, joined with `/` when all are UTF-8. */
  function Relative(names: seq<Name>): Option<string>
    requires names != []
  {
    if forall i :: 0 <= i < |names| ==> names[i].Utf8?
    then Some(Join(seq(|names|, i requires 0 <= i < |names| => Text(names[i]))))
    else None
  }

  function Text(name: Name): string { if name.Utf8? then name.text else "" }

  // ---- the walk

  /** What the walk does with one file reached through `names`. */
  function WalkFile(names: seq<Name>, digest: Digest, out: Entries): Outcome<Entries>
    requires names != []
  {
    match Relative(names)
    case None => ContentUnreadable
    case Some(path) =>
      if IsSignature(path) then Ok(out)
      else if ValidPath(path) then Ok(Put(out, path, digest))
      else ContentUnreadable
  }

  function WalkChild(dir: seq<Name>, child: Child, out: Entries): Outcome<Entries>
    decreases child
  {
    var names := dir + [child.name];
    match child.node
    case Symlink => ContentUnreadable
    case Special => ContentUnreadable
    case Dir(entries) => WalkEntries(names, entries, out)
    case File(digest) => WalkFile(names, digest, out)
    case Unreadable => WalkUnreadable(names, out)
  }

  /** A file that cannot be read fails the walk unless it is a signature file. */
  function WalkUnreadable(names: seq<Name>, out: Entries): Outcome<Entries>
    requires names != []
  {
    match Relative(names)
    case None => ContentUnreadable
    case Some(path) => if IsSignature(path) then Ok(out) else ContentUnreadable
  }

  function WalkEntries(dir: seq<Name>, entries: seq<Child>, out: Entries): Outcome<Entries>
    decreases entries
  {
    if entries == [] then Ok(out)
    else match WalkChild(dir, entries[0], out)
      case ContentUnreadable => ContentUnreadable
      case Ok(more) => WalkEntries(dir, entries[1..], more)
  }

  /** The recursive walk with its accumulator, entry by entry. */
  method Walk(dir: seq<Name>, entries: seq<Child>, out: ContentDigests) returns (ok: bool)
    requires Valid(out.entries)
    modifies out
    ensures Valid(out.entries)
    ensures ok <==> WalkEntries(dir, entries, old(out.entries)).Ok?
    ensures ok ==> out.entries == WalkEntries(dir, entries, old(out.entries)).value
    decreases entries
  {
    for k := 0 to |entries|
      invariant Valid(out.entries)
      invariant WalkEntries(dir, entries, old(out.entries)) == WalkEntries(dir, entries[k..], out.entries)
    {
      assert entries[k..][1..] == entries[k + 1..] && entries[k..][0] == entries[k];
      var walked := WalkOne(dir, entries[k], out);
      if !walked {
        return false;
      }
    }
    ok := true;
  }

  method WalkOne(dir: seq<Name>, child: Child, out: ContentDigests) returns (ok: bool)
    requires Valid(out.entries)
    modifies out
    ensures Valid(out.entries)
    ensures ok <==> WalkChild(dir, child, old(out.entries)).Ok?
    ensures ok ==> out.entries == WalkChild(dir, child, old(out.entries)).value
    decreases child
  {
    var names := dir + [child.name];
    match child.node {
      case Symlink => return false;
      case Special => return false;
      case Dir(entries) => ok := Walk(names, entries, out);
      case File(digest) =>
        var relative := Relative(names);
        if relative.None? {
          return false;
        }
        if IsSignature(relative.value) {
          return true;
        }
        ok := InsertFile(out, relative.value, digest);
      case Unreadable =>
        var relative := Relative(names);
        ok := relative.Some? && IsSignature(relative.value);
    }
  }

  method InsertFile(out: ContentDigests, path: string, digest: Digest) returns (ok: bool)
    requires Valid(out.entries)
    modifies out
    ensures Valid(out.entries) && (ok <==> ValidPath(path))
    ensures out.entries == if ok then Put(old(out.entries), path, digest) else old(out.entries)
  {
    ghost var before := out.entries;
    ok := out.Insert(path, digest);
    if ok {
      PutKeeps(before, path, digest);
      PutValid(before, path, digest);
      Canonical(out.entries, Put(before, path, digest));
    }
  }

  /** from_dir. */
  method FromDir(entries: seq<Child>) returns (r: Outcome<Entries>)
    ensures r == WalkEntries([], entries, [])
  {
    var out := new ContentDigests();
    var ok := Walk([], entries, out);
    r := if ok then Ok(out.entries) else ContentUnreadable;
  }

  // ---- what looking a path up in the tree finds, whatever the listing order

  ghost predicate At(entries: seq<Child>, names: seq<Name>, node: Node)
    decreases |names|
  {
    exists i :: 0 <= i < |entries| && AtChild(entries[i], names, node)
  }

  ghost predicate AtChild(child: Child, names: seq<Name>, node: Node)
    decreases |names|, 0
  {
    && names != [] && child.name == names[0]
    && (if |names| == 1 then child.node == node
        else child.node.Dir? && At(child.node.entries, names[1..], node))
  }

  /** What a file system guarantees: sibling names differ, and hold no `/`. */
  ghost predicate Tree(entries: seq<Child>)
    decreases entries
  {
    && (forall i, j :: 0 <= i < j < |entries| ==> entries[i].name != entries[j].name)
    && (forall i :: 0 <= i < |entries| ==> TreeChild(entries[i]))
  }

  ghost predicate TreeChild(child: Child)
    decreases child
  {
    && '/' !in Text(child.name)
    && (child.node.Dir? ==> Tree(child.node.entries))
  }

  ghost predicate Plain(names: seq<Name>) {
    forall i :: 0 <= i < |names| ==> '/' !in Text(names[i])
  }

  /** An entry that makes the walk fail. */
  ghost predicate Rejects(names: seq<Name>, node: Node)
    requires names != []
  {
    match node
    case Symlink => true
    case Special => true
    case Dir(_) => false
    case Unreadable => Relative(names).None? || !IsSignature(Relative(names).value)
    case File(_) =>
      Relative(names).None? || (!IsSignature(Relative(names).value) && !ValidPath(Relative(names).value))
  }

  ghost predicate RejectedAt(dir: seq<Name>, entries: seq<Child>, names: seq<Name>, node: Node) {
    At(entries, names, node) && names != [] && Rejects(dir + names, node)
  }

  ghost predicate HasRejected(dir: seq<Name>, entries: seq<Child>) {
    exists names, node :: RejectedAt(dir, entries, names, node)
  }

  ghost predicate CollectedAt(dir: seq<Name>, entries: seq<Child>, names: seq<Name>, path: string, digest: Digest) {
    && At(entries, names, File(digest)) && names != []
    && Relative(dir + names) == Some(path) && !IsSignature(path)
  }

  /** The tree has a regular file at `path`, not a signature, with `digest`. */
  ghost predicate Collects(dir: seq<Name>, entries: seq<Child>, path: string, digest: Digest) {
    exists names :: CollectedAt(dir, entries, names, path, digest)
  }

  lemma AtPlain(entries: seq<Child>, names: seq<Name>, node: Node)
    requires Tree(entries) && At(entries, names, node)
    ensures Plain(names)
    decreases |names|
  {
    var i :| 0 <= i < |entries| && AtChild(entries[i], names, node);
    assert TreeChild(entries[i]);
    if |names| > 1 {
      AtPlain(entries[i].node.entries, names[1..], node);
      assert names == [names[0]] + names[1..];
    }
  }

  /** Distinct names make a path find one node only. */
  lemma AtUnique(entries: seq<Child>, names: seq<Name>, a: Node, b: Node)
    requires Tree(entries) && At(entries, names, a) && At(entries, names, b)
    ensures a == b
    decreases |names|
  {
    var i :| 0 <= i < |entries| && AtChild(entries[i], names, a);
    var j :| 0 <= j < |entries| && AtChild(entries[j], names, b);
    assert i == j;
    assert TreeChild(entries[i]);
    if |names| > 1 {
      AtUnique(entries[i].node.entries, names[1..], a, b);
    }
  }

  function Texts(names: seq<Name>): seq<string> {
    seq(|names|, i requires 0 <= i < |names| => Text(names[i]))
  }

  /** Distinct files never collide on a key. */
  lemma RelativeInjective(a: seq<Name>, b: seq<Name>)
    requires a != [] && b != [] && Plain(a) && Plain(b)
    requires Relative(a).Some? && Relative(a) == Relative(b)
    ensures a == b
  {
    SplitJoin(Texts(a));
    SplitJoin(Texts(b));
    assert Texts(a) == Texts(b);
    forall i | 0 <= i < |a|
      ensures a[i] == b[i]
    {
      assert Texts(a)[i] == Texts(b)[i];
    }
  }

  lemma CollectsUnique(dir: seq<Name>, entries: seq<Child>, path: string, d: Digest, e: Digest)
    requires Tree(entries) && Plain(dir)
    requires Collects(dir, entries, path, d) && Collects(dir, entries, path, e)
    ensures d == e
  {
    var a :| CollectedAt(dir, entries, a, path, d);
    var b :| CollectedAt(dir, entries, b, path, e);
    AtPlain(entries, a, File(d));
    AtPlain(entries, b, File(e));
    RelativeInjective(dir + a, dir + b);
    assert a == (dir + a)[|dir|..] == (dir + b)[|dir|..] == b;
    AtUnique(entries, a, File(d), File(e));
  }

  // ---- the walk finds exactly that

  ghost predicate Finds(dir: seq<Name>, entries: seq<Child>, out: Entries, result: Entries) {
    Sorted(result) &&
    forall p, d :: Get(result, p) == Some(d) <==>
      Collects(dir, entries, p, d) || (Get(out, p) == Some(d) && !exists e :: Collects(dir, entries, p, e))
  }

  lemma AtOne(child: Child, names: seq<Name>, node: Node)
    ensures At([child], names, node) <==> AtChild(child, names, node)
  {
    assert [child][0] == child;
  }

  lemma AtSplit(entries: seq<Child>, names: seq<Name>, node: Node)
    requires entries != []
    ensures At(entries, names, node) <==> At([entries[0]], names, node) || At(entries[1..], names, node)
  {
    hide AtChild;
    AtOne(entries[0], names, node);
    if At(entries, names, node) {
      var i :| 0 <= i < |entries| && AtChild(entries[i], names, node);
      if i > 0 {
        assert entries[1..][i - 1] == entries[i];
      }
    }
    if At(entries[1..], names, node) {
      var i :| 0 <= i < |entries[1..]| && AtChild(entries[1..][i], names, node);
      assert entries[i + 1] == entries[1..][i];
    }
  }

  /** The whole walk, by induction over the listing. */
  lemma WalkFinds(dir: seq<Name>, entries: seq<Child>, out: Entries)
    requires Tree(entries) && Plain(dir) && Sorted(out)
    ensures WalkEntries(dir, entries, out).Ok? <==> !HasRejected(dir, entries)
    ensures WalkEntries(dir, entries, out).Ok? ==> Finds(dir, entries, out, WalkEntries(dir, entries, out).value)
    decreases entries
  {
    if entries == [] {
    } else {
      var child, rest := entries[0], entries[1..];
      assert Tree(rest);
      assert TreeChild(child);
      WalkChildFinds(dir, child, out);
      RejectedSplit(dir, entries);
      var first := WalkChild(dir, child, out);
      if first.Ok? {
        WalkFinds(dir, rest, first.value);
        var last := WalkEntries(dir, rest, first.value);
        if last.Ok? {
          FindsCompose(dir, entries, out, first.value, last.value);
        }
      }
    }
  }

  lemma RejectedSplit(dir: seq<Name>, entries: seq<Child>)
    requires entries != []
    ensures HasRejected(dir, entries) <==> HasRejected(dir, [entries[0]]) || HasRejected(dir, entries[1..])
  {
    hide At, Rejects;
    forall names, node
      ensures RejectedAt(dir, entries, names, node) <==>
        RejectedAt(dir, [entries[0]], names, node) || RejectedAt(dir, entries[1..], names, node)
    {
      AtSplit(entries, names, node);
    }
  }

  lemma CollectsSplit(dir: seq<Name>, entries: seq<Child>, p: string, d: Digest)
    requires entries != []
    ensures Collects(dir, entries, p, d) <==> Collects(dir, [entries[0]], p, d) || Collects(dir, entries[1..], p, d)
  {
    hide At;
    forall names
      ensures CollectedAt(dir, entries, names, p, d) <==>
        CollectedAt(dir, [entries[0]], names, p, d) || CollectedAt(dir, entries[1..], names, p, d)
    {
      AtSplit(entries, names, File(d));
    }
  }

  lemma FindsCompose(dir: seq<Name>, entries: seq<Child>, out: Entries, mid: Entries, result: Entries)
    requires entries != [] && Tree(entries) && Plain(dir)
    requires Finds(dir, [entries[0]], out, mid) && Finds(dir, entries[1..], mid, result)
    ensures Finds(dir, entries, out, result)
  {
    hide Collects;
    forall p, d
      ensures Get(result, p) == Some(d) <==>
        Collects(dir, entries, p, d) || (Get(out, p) == Some(d) && !exists e :: Collects(dir, entries, p, e))
    {
      forall e
        ensures Collects(dir, entries, p, e) <==>
          Collects(dir, [entries[0]], p, e) || Collects(dir, entries[1..], p, e)
      {
        CollectsSplit(dir, entries, p, e);
      }
      forall a, b | Collects(dir, entries, p, a) && Collects(dir, entries, p, b)
        ensures a == b
      {
        CollectsUnique(dir, entries, p, a, b);
      }
    }
  }

  lemma WalkChildFinds(dir: seq<Name>, child: Child, out: Entries)
    requires TreeChild(child) && Plain(dir) && Sorted(out)
    ensures WalkChild(dir, child, out).Ok? <==> !HasRejected(dir, [child])
    ensures WalkChild(dir, child, out).Ok? ==> Finds(dir, [child], out, WalkChild(dir, child, out).value)
    decreases child
  {
    if child.node.Dir? {
      var inner, below := child.node.entries, dir + [child.name];
      WalkFinds(below, inner, out);
      DirRejected(dir, child);
      forall p, d
        ensures Collects(dir, [child], p, d) <==> Collects(below, inner, p, d)
      {
        DirCollects(dir, child, p, d);
      }
    } else {
      LeafFinds(dir, child, out);
    }
  }

  lemma DirRejected(dir: seq<Name>, child: Child)
    requires child.node.Dir?
    ensures HasRejected(dir, [child]) <==> HasRejected(dir + [child.name], child.node.entries)
  {
    var inner, below := child.node.entries, dir + [child.name];
    if HasRejected(dir, [child]) {
      var names, node :| RejectedAt(dir, [child], names, node);
      AtOne(child, names, node);
      assert dir + names == below + names[1..];
      assert RejectedAt(below, inner, names[1..], node);
    }
    if HasRejected(below, inner) {
      var names, node :| RejectedAt(below, inner, names, node);
      var all := [child.name] + names;
      assert all[1..] == names && dir + all == below + names;
      AtOne(child, all, node);
      assert RejectedAt(dir, [child], all, node);
    }
  }

  lemma DirCollects(dir: seq<Name>, child: Child, p: string, d: Digest)
    requires child.node.Dir?
    ensures Collects(dir, [child], p, d) <==> Collects(dir + [child.name], child.node.entries, p, d)
  {
    var inner, below := child.node.entries, dir + [child.name];
    if Collects(dir, [child], p, d) {
      var names :| CollectedAt(dir, [child], names, p, d);
      AtOne(child, names, File(d));
      assert dir + names == below + names[1..];
      assert CollectedAt(below, inner, names[1..], p, d);
    }
    if Collects(below, inner, p, d) {
      var names :| CollectedAt(below, inner, names, p, d);
      var all := [child.name] + names;
      assert all[1..] == names && dir + all == below + names;
      AtOne(child, all, File(d));
      assert CollectedAt(dir, [child], all, p, d);
    }
  }

  lemma LeafFinds(dir: seq<Name>, child: Child, out: Entries)
    requires TreeChild(child) && Plain(dir) && Sorted(out) && !child.node.Dir?
    ensures WalkChild(dir, child, out).Ok? <==> !HasRejected(dir, [child])
    ensures WalkChild(dir, child, out).Ok? ==> Finds(dir, [child], out, WalkChild(dir, child, out).value)
  {
    var names := dir + [child.name];
    forall ns, node
      ensures At([child], ns, node) <==> ns == [child.name] && node == child.node
    {
      AtOne(child, ns, node);
    }
    assert HasRejected(dir, [child]) <==> RejectedAt(dir, [child], [child.name], child.node);
    forall p, d
      ensures Collects(dir, [child], p, d) <==>
        child.node == File(d) && Relative(names) == Some(p) && !IsSignature(p)
    {
      assert Collects(dir, [child], p, d) <==> CollectedAt(dir, [child], [child.name], p, d);
    }
    var result := WalkChild(dir, child, out);
    if result.Ok? && child.node.File? && !IsSignature(Relative(names).value) {
      PutKeeps(out, Relative(names).value, child.node.digest);
      assert Collects(dir, [child], Relative(names).value, child.node.digest);
    }
  }

  // ---- the main results

  /**
  from_dir fails exactly when the tree has an entry that cannot be pinned;
  otherwise it returns exactly the regular files outside `.sig`, by path.
  */
  lemma FromDirExact(entries: seq<Child>)
    requires Tree(entries)
    ensures var r := WalkEntries([], entries, []);
      && (r.Ok? <==> !HasRejected([], entries))
      && (r.Ok? ==> Sorted(r.value) && forall p, d :: Get(r.value, p) == Some(d) <==> Collects([], entries, p, d))
  {
    WalkFinds([], entries, []);
  }

  /** Two listings of one tree, in whatever orders. */
  ghost predicate Reordered(a: seq<Child>, b: seq<Child>)
    decreases a, 2
  {
    CoveredBy(a, b) && Covers(a, b)
  }

  ghost predicate CoveredBy(a: seq<Child>, b: seq<Child>)
    decreases a, 1
  {
    forall i :: 0 <= i < |a| ==> InListing(a[i], b)
  }

  ghost predicate Covers(a: seq<Child>, b: seq<Child>)
    decreases a, 1
  {
    forall j :: 0 <= j < |b| ==> FromListing(a, b[j])
  }

  ghost predicate InListing(child: Child, b: seq<Child>)
    decreases child, 1
  {
    exists j :: 0 <= j < |b| && SameChild(child, b[j])
  }

  ghost predicate FromListing(a: seq<Child>, child: Child)
    decreases a, 0
  {
    exists i :: 0 <= i < |a| && SameChild(a[i], child)
  }

  ghost predicate SameChild(a: Child, b: Child)
    decreases a, 0
  {
    && a.name == b.name
    && if a.node.Dir? && b.node.Dir? then Reordered(a.node.entries, b.node.entries) else a.node == b.node
  }

  lemma ReorderedAt(a: seq<Child>, b: seq<Child>, names: seq<Name>, node: Node)
    requires Reordered(a, b) && !node.Dir?
    ensures At(a, names, node) <==> At(b, names, node)
    decreases |names|, 1
  {
    hide SameChild, AtChild, Covers, CoveredBy, InListing, FromListing;
    if At(a, names, node) {
      var i :| 0 <= i < |a| && AtChild(a[i], names, node);
      var j := Counterpart(a, b, i);
      SameChildAt(a[i], b[j], names, node);
    }
    if At(b, names, node) {
      var j :| 0 <= j < |b| && AtChild(b[j], names, node);
      var i := Original(a, b, j);
      SameChildAt(a[i], b[j], names, node);
    }
  }

  lemma Counterpart(a: seq<Child>, b: seq<Child>, i: nat) returns (j: nat)
    requires CoveredBy(a, b) && i < |a|
    ensures j < |b| && SameChild(a[i], b[j])
  {
    assert InListing(a[i], b);
    j :| 0 <= j < |b| && SameChild(a[i], b[j]);
  }

  lemma Original(a: seq<Child>, b: seq<Child>, j: nat) returns (i: nat)
    requires Covers(a, b) && j < |b|
    ensures i < |a| && SameChild(a[i], b[j])
  {
    assert FromListing(a, b[j]);
    i :| 0 <= i < |a| && SameChild(a[i], b[j]);
  }

  lemma SameChildAt(a: Child, b: Child, names: seq<Name>, node: Node)
    requires SameChild(a, b) && !node.Dir?
    ensures AtChild(a, names, node) <==> AtChild(b, names, node)
    decreases |names|, 0
  {
    hide Reordered, At;
    if |names| > 1 && a.node.Dir? && b.node.Dir? {
      ReorderedAt(a.node.entries, b.node.entries, names[1..], node);
    }
  }

  /** The order in which directories list their entries does not matter. */
  lemma OrderIrrelevant(a: seq<Child>, b: seq<Child>)
    requires Tree(a) && Tree(b) && Reordered(a, b)
    ensures WalkEntries([], a, []) == WalkEntries([], b, [])
  {
    hide Reordered, At;
    FromDirExact(a);
    FromDirExact(b);
    forall names: seq<Name>, node: Node | !node.Dir?
      ensures At(a, names, node) <==> At(b, names, node)
    {
      ReorderedAt(a, b, names, node);
    }
    assert forall names, node :: RejectedAt([], a, names, node) <==> RejectedAt([], b, names, node);
    if !HasRejected([], a) {
      var x, y := WalkEntries([], a, []).value, WalkEntries([], b, []).value;
      forall p
        ensures Get(x, p) == Get(y, p)
      {
        forall d
          ensures Collects([], a, p, d) <==> Collects([], b, p, d)
        {
          assert forall names :: CollectedAt([], a, names, p, d) <==> CollectedAt([], b, names, p, d);
        }
        if Get(x, p).Some? {
          assert Get(y, p) == Some(Get(x, p).value);
        }
        if Get(y, p).Some? {
          assert Get(x, p) == Some(Get(y, p).value);
        }
      }
      Canonical(x, y);
    }
  }

  /**
  A file is rejected exactly when a name on the way to it is not UTF-8, or it
  is not a signature and some name cannot be part of a normalized path.
  */
  lemma RejectsByNames(names: seq<Name>, file: Node)
    requires names != [] && Plain(names) && file.File?
    ensures Rejects(names, file) <==>
      || (exists i :: 0 <= i < |names| && names[i].Raw?)
      || (!IsSignature(Join(Texts(names))) && exists i :: 0 <= i < |names| && !GoodSegment(Text(names[i])))
  {
    var texts := Texts(names);
    assert forall i :: 0 <= i < |names| ==> texts[i] == Text(names[i]);
    ValidPathByNames(texts);
    hide ValidPath, GoodSegment, IsSignature;
    if Relative(names).Some? {
      assert Relative(names) == Some(Join(texts));
    }
  }

  // ---- where the documentation promises more

  /** A directory name that is not UTF-8 does not fail the walk when no file is under it. */
  lemma NonUtf8EmptyDirAccepted()
    ensures WalkEntries([], [Child(Raw([255]), Dir([]))], []) == Ok([])
  {
    assert [Child(Raw([255]), Dir([]))][1..] == [];
  }

  /** Neither does an unreadable entry, when its path ends in the signature suffix. */
  lemma UnreadableSignatureAccepted()
    ensures WalkEntries([], [Child(Utf8("a.sig"), Unreadable)], []) == Ok([])
  {
    var names := [] + [Utf8("a.sig")];
    assert Relative(names) == Some("a.sig");
    assert "a.sig"[1..] == SIGNATURE_SUFFIX;
    assert [Child(Utf8("a.sig"), Unreadable)][1..] == [];
  }
}
