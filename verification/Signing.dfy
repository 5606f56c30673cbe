/**
The signed payload (crates/bastion-extension-protocol/src/trust.rs): a
canonical text of a manifest and its content. A parser recovers everything the
text was made from, and accepts nothing else, so equal payloads mean equal
manifests. Text is its sequence of characters; UTF-8 is injective on it.
*/
module Signing {
  import opened Characters
  import opened Events
  import opened Content

  /** A printed semantic version: some text without a line break. */
  type Version = v: string | '\n' !in v witness "0"

  datatype SignedKind = Extension | Pack

  function KindText(kind: SignedKind): string {
    match kind
    case Extension => "extension"
    case Pack => "pack"
  }

  const SIGNATURE_DOMAIN := "bastion-extension-protocol/signature/v1"

  /** Everything a signature covers. */
  datatype Signed = Signed(kind: SignedKind, id: string, version: Version, content: Entries)

  predicate ValidId(id: string) {
    id != "" && !HasControl(id)
  }

  function EntryLine(e: Entry): string { e.digest + " " + e.path + "\n" }

  function EntryLines(c: Entries): string {
    if c == [] then "" else EntryLines(c[..|c| - 1]) + EntryLine(c[|c| - 1])
  }

  function Header(kind: SignedKind, id: string, version: Version): string {
    SIGNATURE_DOMAIN + "\n" + ("kind " + KindText(kind) + "\n" + ("id " + id + "\n" + ("version " + version + "\n")))
  }

  function PayloadText(m: Signed): string {
    Header(m.kind, m.id, m.version) + EntryLines(m.content)
  }

  /** signing_payload: `None` is the source's InvalidManifest. */
  method SigningPayload(kind: SignedKind, id: string, version: Version, content: ContentDigests)
    returns (payload: Option<string>)
    ensures payload.Some? <==> id != "" && forall i :: 0 <= i < |id| ==> !IsControl(id[i])
    ensures payload == if ValidId(id) then Some(PayloadText(Signed(kind, id, version, content.entries))) else None
  {
    if id == "" || HasControl(id) {
      return None;
    }
    hide Header;
    var entries := content.entries;
    var text := Header(kind, id, version);
    for k := 0 to |entries|
      invariant text == Header(kind, id, version) + EntryLines(entries[..k])
    {
      text := text + entries[k].digest + " " + entries[k].path + "\n";
      EntryLinesExtend(Header(kind, id, version), entries, k);
    }
    assert entries[..|entries|] == entries;
    payload := Some(text);
  }

  lemma EntryLinesExtend(head: string, entries: Entries, k: nat)
    requires k < |entries|
    ensures head + EntryLines(entries[..k]) + entries[k].digest + " " + entries[k].path + "\n" ==
      head + EntryLines(entries[..k + 1])
  {
    assert entries[..k + 1][..k] == entries[..k];
    assert EntryLines(entries[..k + 1]) == EntryLines(entries[..k]) + EntryLine(entries[k]);
  }

  /** The lines of a payload: the domain, kind, id and version, then digest and path of each entry. */
  function PayloadLines(m: Signed): seq<string> {
    ["bastion-extension-protocol/signature/v1",
     "kind " + (if m.kind == Extension then "extension" else "pack"), "id " + m.id, "version " + m.version] +
    seq(|m.content|, i requires 0 <= i < |m.content| => m.content[i].digest + " " + m.content[i].path)
  }

  /** Each line ended by a line feed. */
  function Terminated(lines: seq<string>): string {
    if lines == [] then "" else lines[0] + "\n" + Terminated(lines[1..])
  }

  lemma {:induction false} TerminatedLast(lines: seq<string>, last: string)
    ensures Terminated(lines + [last]) == Terminated(lines) + last + "\n"
  {
    if lines == [] {
      assert lines + [last] == [last] && [last][1..] == [];
    } else {
      TerminatedLast(lines[1..], last);
      assert (lines + [last])[1..] == lines[1..] + [last];
    }
  }

  /** A payload is exactly those lines. */
  lemma {:induction false} PayloadIsItsLines(m: Signed)
    ensures PayloadText(m) == Terminated(PayloadLines(m))
    decreases |m.content|
  {
    hide Header, Terminated, EntryLines;
    if m.content == [] {
      HeaderIsItsLines(m);
    } else {
      var n := |m.content| - 1;
      var init, last := m.(content := m.content[..n]), m.content[n].digest + " " + m.content[n].path;
      PayloadIsItsLines(init);
      TerminatedLast(PayloadLines(init), last);
      assert PayloadLines(m) == PayloadLines(init) + [last];
      LastEntry(m, n, last);
    }
  }

  lemma LastEntry(m: Signed, n: nat, last: string)
    requires |m.content| == n + 1 && last == m.content[n].digest + " " + m.content[n].path
    ensures PayloadText(m) == PayloadText(m.(content := m.content[..n])) + last + "\n"
  {
    hide Header, EntryLines;
    EntryLinesExtend(Header(m.kind, m.id, m.version), m.content, n);
    assert m.content[..n + 1] == m.content;
  }

  lemma HeaderIsItsLines(m: Signed)
    requires m.content == []
    ensures PayloadText(m) == Terminated(PayloadLines(m))
  {
    var domain, kind, id, version := SIGNATURE_DOMAIN, "kind " + KindText(m.kind), "id " + m.id, "version " + m.version;
    FourLines(domain, kind, id, version);
    hide Terminated;
    assert PayloadLines(m) == [domain, kind, id, version];
    assert PayloadText(m) == Header(m.kind, m.id, m.version);
  }

  lemma FourLines(a: string, b: string, c: string, d: string)
    ensures Terminated([a, b, c, d]) == a + "\n" + (b + "\n" + (c + "\n" + (d + "\n")))
  {
    assert [a, b, c, d][1..] == [b, c, d] && [b, c, d][1..] == [c, d] && [c, d][1..] == [d] && [d][1..] == [];
    assert Terminated([d]) == d + "\n";
    assert Terminated([c, d]) == c + "\n" + Terminated([d]);
    assert Terminated([b, c, d]) == b + "\n" + Terminated([c, d]);
  }

  // ---- the parser

  /** The text up to the first `stop`, and the text after it. */
  function Cut(s: string, stop: char): Option<(string, string)> {
    if s == "" then None
    else if s[0] == stop then Some(("", s[1..]))
    else match Cut(s[1..], stop)
      case None => None
      case Some(parts) => Some(([s[0]] + parts.0, parts.1))
  }

  lemma {:induction false} CutInverse(s: string, stop: char)
    ensures Cut(s, stop).Some? ==>
      s == Cut(s, stop).value.0 + [stop] + Cut(s, stop).value.1 && stop !in Cut(s, stop).value.0
  {
    if s != "" && s[0] != stop {
      CutInverse(s[1..], stop);
    }
  }

  lemma {:induction false} CutAt(head: string, stop: char, rest: string)
    requires stop !in head
    ensures Cut(head + [stop] + rest, stop) == Some((head, rest))
  {
    var s := head + [stop] + rest;
    if head == "" {
      assert s[1..] == rest;
    } else {
      CutAt(head[1..], stop, rest);
      assert s[1..] == head[1..] + [stop] + rest;
      assert s[0] == head[0] && head == [head[0]] + head[1..];
    }
  }

  /** `s` without its `prefix`, when it has it. */
  function After(s: string, prefix: string): Option<string> {
    if prefix <= s then Some(s[|prefix|..]) else None
  }

  function ParseKind(s: string): Option<SignedKind> {
    if s == "extension" then Some(Extension) else if s == "pack" then Some(Pack) else None
  }

  function ParseEntry(line: string): Option<Entry> {
    match Cut(line, ' ')
    case None => None
    case Some(parts) =>
      if IsDigest(parts.0) && ValidPath(parts.1) then Some(Entry(parts.1, parts.0)) else None
  }

  /** The entry lines, one per line to the end of the text. */
  function ParseEntries(s: string): (r: Option<Entries>)
    decreases |s|
  {
    if s == "" then Some([])
    else
      CutInverse(s, '\n');
      match Cut(s, '\n')
      case None => None
      case Some(parts) =>
        var first, rest := ParseEntry(parts.0), ParseEntries(parts.1);
        if first.Some? && rest.Some? then Some([first.value] + rest.value) else None
  }

  /** A line `tag` + value, and the text after it. */
  function Field(s: string, tag: string): Option<(string, string)> {
    match Cut(s, '\n')
    case None => None
    case Some(parts) =>
      match After(parts.0, tag)
      case None => None
      case Some(value) => Some((value, parts.1))
  }

  ghost function Parse(s: string): Option<Signed> {
    var domain := Field(s, SIGNATURE_DOMAIN);
    if domain.None? || domain.value.0 != "" then None else
    var kind := Field(domain.value.1, "kind ");
    if kind.None? || ParseKind(kind.value.0).None? then None else
    var id := Field(kind.value.1, "id ");
    if id.None? || !ValidId(id.value.0) then None else
    var version := Field(id.value.1, "version ");
    if version.None? || '\n' in version.value.0 then None else
    var content := ParseEntries(version.value.1);
    if content.None? || !Sorted(content.value) then None else
    Some(Signed(ParseKind(kind.value.0).value, id.value.0, version.value.0, content.value))
  }

  // ---- printing then parsing

  /** A manifest the host can sign: its id passes, its content came from `insert`. */
  ghost predicate Signable(m: Signed) {
    ValidId(m.id) && Valid(m.content)
  }

  lemma NoControlNoBreak(s: string)
    requires !HasControl(s)
    ensures '\n' !in s
  {
    forall i | 0 <= i < |s|
      ensures s[i] != '\n'
    {
      assert !IsControl(s[i]);
    }
  }

  lemma FieldOf(tag: string, value: string, rest: string)
    requires '\n' !in tag && '\n' !in value
    ensures Field(tag + value + "\n" + rest, tag) == Some((value, rest))
  {
    CutAt(tag + value, '\n', rest);
    assert (tag + value)[|tag|..] == value;
  }

  lemma EntryLineParses(e: Entry, rest: string)
    requires ValidPath(e.path)
    ensures Cut(EntryLine(e) + rest, '\n') == Some((e.digest + " " + e.path, rest))
    ensures ParseEntry(e.digest + " " + e.path) == Some(e)
  {
    NoControlNoBreak(e.path);
    DigestPlain(e.digest);
    CutAt(e.digest + " " + e.path, '\n', rest);
    assert EntryLine(e) + rest == (e.digest + " " + e.path) + "\n" + rest;
    CutAt(e.digest, ' ', e.path);
  }

  lemma DigestPlain(d: Digest)
    ensures ' ' !in d && '\n' !in d
  {
    forall i | 0 <= i < |d|
      ensures d[i] != ' ' && d[i] != '\n'
    {
      if i < 7 {
        assert d[i] == d[..7][i] == DIGEST_PREFIX[i];
      }
    }
  }

  lemma {:induction false} EntryLinesAppend(a: Entries, b: Entries)
    ensures EntryLines(a + b) == EntryLines(a) + EntryLines(b)
  {
    hide EntryLine;
    if b == [] {
      assert a + b == a;
    } else {
      EntryLinesAppend(a, b[..|b| - 1]);
      assert (a + b)[..|a + b| - 1] == a + b[..|b| - 1];
    }
  }

  lemma EntryLinesCons(e: Entry, rest: Entries)
    ensures EntryLines([e] + rest) == EntryLine(e) + EntryLines(rest)
  {
    EntryLinesAppend([e], rest);
    assert EntryLines([e]) == EntryLines([]) + EntryLine(e) by {
      assert [e][..0] == [];
    }
  }

  lemma {:induction false} EntriesRoundTrip(c: Entries)
    requires forall i :: 0 <= i < |c| ==> ValidPath(c[i].path)
    ensures ParseEntries(EntryLines(c)) == Some(c)
  {
    if c != [] {
      EntriesRoundTrip(c[1..]);
      assert c == [c[0]] + c[1..];
      EntryLinesCons(c[0], c[1..]);
      EntryLineParses(c[0], EntryLines(c[1..]));
    }
  }

  lemma HeaderParts(kind: SignedKind, id: string, version: Version, rest: string)
    requires '\n' !in id
    ensures var s := Header(kind, id, version) + rest;
      && Field(s, SIGNATURE_DOMAIN).Some? && Field(s, SIGNATURE_DOMAIN).value.0 == ""
      && Field(Field(s, SIGNATURE_DOMAIN).value.1, "kind ") ==
           Some((KindText(kind), "id " + id + "\n" + ("version " + version + "\n" + rest)))
  {
    var afterId := "version " + version + "\n" + rest;
    var afterKind := "id " + id + "\n" + afterId;
    var afterDomain := "kind " + KindText(kind) + "\n" + afterKind;
    assert Header(kind, id, version) + rest == SIGNATURE_DOMAIN + "" + "\n" + afterDomain;
    FieldOf(SIGNATURE_DOMAIN, "", afterDomain);
    FieldOf("kind ", KindText(kind), afterKind);
  }

  /** Parsing recovers kind, id, version and the whole content. */
  lemma RoundTrip(m: Signed)
    requires Signable(m)
    ensures Parse(PayloadText(m)) == Some(m)
  {
    NoControlNoBreak(m.id);
    HeaderParts(m.kind, m.id, m.version, EntryLines(m.content));
    FieldOf("id ", m.id, "version " + m.version + "\n" + EntryLines(m.content));
    FieldOf("version ", m.version, EntryLines(m.content));
    EntriesRoundTrip(m.content);
  }

  // ---- parsing then printing

  lemma FieldInverse(s: string, tag: string)
    requires Field(s, tag).Some?
    ensures s == tag + Field(s, tag).value.0 + "\n" + Field(s, tag).value.1
  {
    CutInverse(s, '\n');
    var line := Cut(s, '\n').value.0;
    assert line == tag + line[|tag|..];
  }

  lemma {:induction false} EntriesInverse(s: string)
    requires ParseEntries(s).Some?
    ensures EntryLines(ParseEntries(s).value) == s
    ensures forall i :: 0 <= i < |ParseEntries(s).value| ==> ValidPath(ParseEntries(s).value[i].path)
    decreases |s|
  {
    if s != "" {
      CutInverse(s, '\n');
      var parts := Cut(s, '\n').value;
      EntriesInverse(parts.1);
      CutInverse(parts.0, ' ');
      var e := ParseEntry(parts.0).value;
      EntryLinesCons(e, ParseEntries(parts.1).value);
      assert EntryLine(e) == parts.0 + "\n";
    }
  }

  /** What the parser accepts is the payload of what it returns. */
  lemma ParseInverse(s: string)
    requires Parse(s).Some?
    ensures Signable(Parse(s).value) && PayloadText(Parse(s).value) == s
  {
    hide EntryLines, ParseEntries, Field, Header, ValidPath, ValidId, Sorted;
    var domain := Field(s, SIGNATURE_DOMAIN).value;
    var kind := Field(domain.1, "kind ").value;
    var id := Field(kind.1, "id ").value;
    var version := Field(id.1, "version ").value;
    FieldInverse(s, SIGNATURE_DOMAIN);
    FieldInverse(domain.1, "kind ");
    FieldInverse(kind.1, "id ");
    FieldInverse(id.1, "version ");
    EntriesInverse(version.1);
    var m := Parse(s).value;
    assert KindText(m.kind) == kind.0;
    HeaderText(m.kind, m.id, m.version, EntryLines(m.content));
  }

  lemma HeaderText(kind: SignedKind, id: string, version: Version, rest: string)
    ensures Header(kind, id, version) + rest ==
      SIGNATURE_DOMAIN + "" + "\n" +
      ("kind " + KindText(kind) + "\n" + ("id " + id + "\n" + ("version " + version + "\n" + rest)))
  {
  }

  /** A text is some manifest's payload exactly when the parser accepts it. */
  lemma ParseExact(s: string, m: Signed)
    ensures Parse(s) == Some(m) <==> Signable(m) && PayloadText(m) == s
  {
    if Parse(s) == Some(m) {
      ParseInverse(s);
    }
    if Signable(m) && PayloadText(m) == s {
      RoundTrip(m);
    }
  }

  // ---- injectivity

  /** Equal payloads mean equal kind, id, version and path-to-digest map. */
  lemma Injective(a: Signed, b: Signed)
    requires Signable(a) && Signable(b)
    ensures PayloadText(a) == PayloadText(b) <==>
      a.kind == b.kind && a.id == b.id && a.version == b.version && SameMap(a.content, b.content)
  {
    RoundTrip(a);
    RoundTrip(b);
    if SameMap(a.content, b.content) {
      Canonical(a.content, b.content);
    }
  }

  /** Without the control-character rule on paths two different contents collide. */
  lemma NewlinePathCollides(first: Digest, second: Digest)
    ensures var one, two := [Entry("a\n" + second + " b", first)], [Entry("a", first), Entry("b", second)];
      EntryLines(one) == EntryLines(two) && one != two && Sorted(one) && Sorted(two)
  {
    var one, two := Entry("a\n" + second + " b", first), [Entry("a", first), Entry("b", second)];
    OneEntry(one);
    OneEntry(two[0]);
    assert two[..1] == [two[0]];
    hide EntryLines;
    assert EntryLine(one) == EntryLine(two[0]) + EntryLine(two[1]);
    EntryLinesLast(two);
  }

  lemma OneEntry(e: Entry)
    ensures EntryLines([e]) == EntryLine(e)
  {
    assert [e][..0] == [];
  }

  lemma EntryLinesLast(c: Entries)
    requires c != []
    ensures EntryLines(c) == EntryLines(c[..|c| - 1]) + EntryLine(c[|c| - 1])
  {
  }
}
