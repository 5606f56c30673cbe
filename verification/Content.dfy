/**
The content digests a signature covers
(crates/bastion-extension-protocol/src/content.rs). The ordered map from path
to digest is its list of entries in path order, so equal maps are equal lists.
*/
module Content {
  import opened Characters
  import opened Events

  /** A hex digit as sha256 digests print it. */
  predicate LowerHex(c: char) {
    '0' <= c <= '9' || 'a' <= c <= 'f'
  }

  const DIGEST_PREFIX := "sha256:"

  predicate IsDigest(d: string) {
    |d| == 71 && d[..7] == DIGEST_PREFIX && forall i :: 7 <= i < 71 ==> LowerHex(d[i])
  }

  type Digest = d: string | IsDigest(d)
    witness DIGEST_PREFIX + seq(64, _ => '0')

  /** The two digits of a byte, as sha256 digests print it. */
  function HexDigit(n: nat): char
    requires n < 16
  {
    if n < 10 then '0' + n as char else 'a' + (n - 10) as char
  }

  /** The byte as its two digits. */
  function Hex(bytes: seq<nat>): string
    requires forall i :: 0 <= i < |bytes| ==> bytes[i] < 256
  {
    if bytes == [] then ""
    else Hex(bytes[..|bytes| - 1]) + [HexDigit(bytes[|bytes| - 1] / 16), HexDigit(bytes[|bytes| - 1] % 16)]
  }

  ghost predicate AreBytes(bytes: seq<nat>) {
    forall i :: 0 <= i < |bytes| ==> bytes[i] < 256
  }

  lemma {:induction false} HexLower(bytes: seq<nat>)
    requires AreBytes(bytes)
    ensures |Hex(bytes)| == 2 * |bytes| && forall i :: 0 <= i < |Hex(bytes)| ==> LowerHex(Hex(bytes)[i])
  {
    if bytes != [] {
      HexLower(bytes[..|bytes| - 1]);
    }
  }

  /** Every lower-case hexadecimal text of even length prints some bytes. */
  lemma {:induction false} HexBytes(text: string, n: nat) returns (bytes: seq<nat>)
    requires |text| == 2 * n && forall i :: 0 <= i < |text| ==> LowerHex(text[i])
    ensures |bytes| == n && AreBytes(bytes) && Hex(bytes) == text
  {
    hide Hex, LowerHex, HexDigit;
    if n == 0 {
      bytes := [];
      NoHex();
    } else {
      var init := HexBytes(text[..2 * n - 2], n - 1);
      var high := DigitValue(text[2 * n - 2]);
      var low := DigitValue(text[2 * n - 1]);
      bytes := init + [16 * high + low];
      HexLast(init, high, low);
      assert text == text[..2 * n - 2] + [text[2 * n - 2], text[2 * n - 1]];
    }
  }

  lemma NoHex()
    ensures Hex([]) == ""
  {
  }

  lemma HexLast(init: seq<nat>, high: nat, low: nat)
    requires AreBytes(init) && high < 16 && low < 16
    ensures AreBytes(init + [16 * high + low])
    ensures Hex(init + [16 * high + low]) == Hex(init) + [HexDigit(high), HexDigit(low)]
  {
    assert (init + [16 * high + low])[..|init|] == init;
    assert (16 * high + low) / 16 == high && (16 * high + low) % 16 == low;
  }

  lemma DigitValue(c: char) returns (n: nat)
    requires LowerHex(c)
    ensures n < 16 && HexDigit(n) == c
  {
    n := if c <= '9' then (c - '0') as nat else (c - 'a') as nat + 10;
  }

  /** A digest is exactly the printed form of 32 bytes. */
  lemma DigestExactly(d: string)
    ensures IsDigest(d) <==> exists bytes :: |bytes| == 32 && AreBytes(bytes) && d == "sha256:" + Hex(bytes)
  {
    if IsDigest(d) {
      var bytes := HexBytes(d[7..], 32);
      assert d == d[..7] + d[7..];
    }
    if bytes :| |bytes| == 32 && AreBytes(bytes) && d == "sha256:" + Hex(bytes) {
      HexLower(bytes);
      assert d[..7] == "sha256:";
      assert forall i :: 7 <= i < 71 ==> d[i] == Hex(bytes)[i - 7];
    }
  }

  // ---- paths

  /** `s.split('/')`. */
  function Split(s: string): (r: seq<string>)
    ensures |r| >= 1
  {
    if s == "" then [""]
    else
      var rest := Split(s[1..]);
      if s[0] == '/' then [""] + rest else [[s[0]] + rest[0]] + rest[1..]
  }

  function Join(segments: seq<string>): string
    requires segments != []
  {
    if |segments| == 1 then segments[0] else segments[0] + "/" + Join(segments[1..])
  }

  predicate BadSegment(s: string) {
    s == "" || s == "." || s == ".."
  }

  /** validate_path, as the source writes it. */
  predicate ValidPath(path: string) {
    !(|| path == ""
      || path[0] == '/'
      || '\\' in path
      || HasControl(path)
      || exists i :: 0 <= i < |Split(path)| && BadSegment(Split(path)[i]))
  }

  lemma {:induction false} SplitSegment(segment: string)
    requires '/' !in segment
    ensures Split(segment) == [segment]
  {
    if segment != "" {
      SplitSegment(segment[1..]);
      assert segment == [segment[0]] + segment[1..];
    }
  }

  lemma {:induction false} SplitHead(segment: string, rest: string)
    requires '/' !in segment
    ensures Split(segment + "/" + rest) == [segment] + Split(rest)
  {
    if segment == "" {
      assert segment + "/" + rest == "/" + rest;
      assert ("/" + rest)[1..] == rest;
    } else {
      SplitHead(segment[1..], rest);
      assert (segment + "/" + rest)[1..] == segment[1..] + "/" + rest;
      assert Split(segment + "/" + rest)[0] == [segment[0]] + segment[1..] == segment;
    }
  }

  ghost predicate NoSlash(segments: seq<string>) {
    forall i :: 0 <= i < |segments| ==> '/' !in segments[i]
  }

  /** Splitting undoes joining, so distinct name lists have distinct paths. */
  lemma {:induction false} SplitJoin(segments: seq<string>)
    requires segments != [] && NoSlash(segments)
    ensures Split(Join(segments)) == segments
  {
    if |segments| == 1 {
      SplitSegment(segments[0]);
    } else {
      SplitJoin(segments[1..]);
      SplitHead(segments[0], Join(segments[1..]));
    }
  }

  ghost predicate GoodSegment(s: string) {
    !BadSegment(s) && '\\' !in s && !HasControl(s)
  }

  /** A joined path is valid exactly when each name on the way is a good one. */
  lemma ValidPathByNames(segments: seq<string>)
    requires segments != [] && NoSlash(segments)
    ensures ValidPath(Join(segments)) <==> forall i :: 0 <= i < |segments| ==> GoodSegment(segments[i])
  {
    SplitJoin(segments);
    JoinChars(segments);
    if forall i :: 0 <= i < |segments| ==> !BadSegment(segments[i]) {
      assert !BadSegment(segments[0]);
      assert Join(segments)[0] == segments[0][0];
    }
  }

  /** The characters of a joined path are those of its names, and `/`. */
  lemma {:induction false} JoinChars(segments: seq<string>)
    requires segments != []
    ensures '\\' in Join(segments) <==> exists i :: 0 <= i < |segments| && '\\' in segments[i]
    ensures HasControl(Join(segments)) <==> exists i :: 0 <= i < |segments| && HasControl(segments[i])
  {
    if |segments| > 1 {
      var rest := segments[1..];
      JoinChars(rest);
      assert forall i :: 0 <= i < |rest| ==> rest[i] == segments[i + 1];
      assert forall i :: 0 < i < |segments| ==> segments[i] == rest[i - 1];
      HasControlConcat(segments[0] + "/", Join(rest));
      HasControlConcat(segments[0], "/");
      assert !IsControl("/"[0]);
    }
  }

  lemma HasControlConcat(a: string, b: string)
    ensures HasControl(a + b) <==> HasControl(a) || HasControl(b)
  {
    var all := a + b;
    if HasControl(a) {
      var i :| 0 <= i < |a| && IsControl(a[i]);
      assert IsControl(all[i]);
    }
    if HasControl(b) {
      var i :| 0 <= i < |b| && IsControl(b[i]);
      assert IsControl(all[|a| + i]);
    }
  }

  // ---- the ordered map

  /** Lexicographic order, which on paths is the order of their UTF-8 bytes. */
  predicate Less(a: string, b: string) {
    b != "" && (a == "" || a[0] < b[0] || (a[0] == b[0] && Less(a[1..], b[1..])))
  }

  lemma {:induction false} LessTotal(a: string, b: string)
    ensures Less(a, b) || Less(b, a) || a == b
    ensures !(Less(a, b) && Less(b, a)) && !Less(a, a)
  {
    LessIrreflexive(a);
    if a != "" && b != "" && a[0] == b[0] {
      LessTotal(a[1..], b[1..]);
      if a[1..] == b[1..] {
        assert a == [a[0]] + a[1..] && b == [b[0]] + b[1..];
      }
    }
  }

  lemma {:induction false} LessIrreflexive(a: string)
    ensures !Less(a, a)
  {
    if a != "" {
      LessIrreflexive(a[1..]);
    }
  }

  lemma {:induction false} LessTrans(a: string, b: string, c: string)
    requires Less(a, b) && Less(b, c)
    ensures Less(a, c)
  {
    if a != "" && a[0] == b[0] && b[0] == c[0] {
      LessTrans(a[1..], b[1..], c[1..]);
    }
  }

  datatype Entry = Entry(path: string, digest: Digest)

  type Entries = seq<Entry>

  /** Strictly ascending by path: what iterating the ordered map yields. */
  ghost predicate Sorted(c: Entries) {
    forall i, j :: 0 <= i < j < |c| ==> Less(c[i].path, c[j].path)
  }

  function Get(c: Entries, path: string): Option<Digest> {
    if c == [] then None else if c[0].path == path then Some(c[0].digest) else Get(c[1..], path)
  }

  /** Records `digest` under `path`, replacing any previous entry. */
  function Put(c: Entries, path: string, digest: Digest): Entries {
    if c == [] then [Entry(path, digest)]
    else if c[0].path == path then [Entry(path, digest)] + c[1..]
    else if Less(path, c[0].path) then [Entry(path, digest)] + c
    else [c[0]] + Put(c[1..], path, digest)
  }

  lemma {:induction false} PutKeeps(c: Entries, path: string, digest: Digest)
    requires Sorted(c)
    ensures Sorted(Put(c, path, digest))
    ensures forall p :: Get(Put(c, path, digest), p) == if p == path then Some(digest) else Get(c, p)
    ensures forall e :: e in Put(c, path, digest) ==> e in c || e == Entry(path, digest)
  {
    if c != [] && c[0].path != path && !Less(path, c[0].path) {
      PutKeeps(c[1..], path, digest);
      var rest := Put(c[1..], path, digest);
      LessTotal(path, c[0].path);
      forall j | 0 <= j < |rest|
        ensures Less(c[0].path, rest[j].path)
      {
        assert rest[j] in rest;
        if rest[j] in c[1..] {
          var k :| 0 <= k < |c[1..]| && c[1..][k] == rest[j];
          assert c[k + 1] == rest[j];
        }
      }
      forall e | e in [c[0]] + rest
        ensures e in c || e == Entry(path, digest)
      {
        if e in c[1..] {
          assert e in c;
        }
      }
    } else if c != [] && Less(path, c[0].path) && c[0].path != path {
      forall j | 0 <= j < |c|
        ensures Less(path, c[j].path)
      {
        if j > 0 {
          LessTrans(path, c[0].path, c[j].path);
        }
      }
      LessIrreflexive(path);
      GetBelow(c, path);
    }
  }

  lemma {:induction false} GetBelow(c: Entries, path: string)
    requires forall j :: 0 <= j < |c| ==> c[j].path != path
    ensures Get(c, path) == None
  {
    if c != [] {
      GetBelow(c[1..], path);
    }
  }

  lemma {:induction false} GetEntry(c: Entries, i: nat)
    requires Sorted(c) && i < |c|
    ensures Get(c, c[i].path) == Some(c[i].digest)
  {
    if i > 0 {
      LessIrreflexive(c[i].path);
      GetEntry(c[1..], i - 1);
    }
  }

  lemma {:induction false} GetFinds(c: Entries, path: string)
    ensures Get(c, path).Some? ==> Entry(path, Get(c, path).value) in c
    ensures Get(c, path).None? ==> forall i :: 0 <= i < |c| ==> c[i].path != path
  {
    if c != [] && c[0].path != path {
      GetFinds(c[1..], path);
    }
  }

  ghost predicate SameMap(a: Entries, b: Entries) {
    forall p :: Get(a, p) == Get(b, p)
  }

  /** The list is determined by the map it stands for. */
  lemma {:induction false} Canonical(a: Entries, b: Entries)
    requires Sorted(a) && Sorted(b) && SameMap(a, b)
    ensures a == b
  {
    if a == [] || b == [] {
      if a != [] {
        GetEntry(a, 0);
      }
      if b != [] {
        GetEntry(b, 0);
      }
    } else {
      SameHead(a, b);
      forall p
        ensures Get(a[1..], p) == Get(b[1..], p)
      {
        if p == a[0].path {
          LessIrreflexive(p);
          GetBelow(a[1..], p);
          GetBelow(b[1..], p);
        } else {
          assert Get(a, p) == Get(b, p);
        }
      }
      Canonical(a[1..], b[1..]);
    }
  }

  lemma SameHead(a: Entries, b: Entries)
    requires a != [] && b != [] && Sorted(a) && Sorted(b) && SameMap(a, b)
    ensures a[0] == b[0]
  {
    GetEntry(a, 0);
    GetEntry(b, 0);
    GetFinds(b, a[0].path);
    GetFinds(a, b[0].path);
    var i :| 0 <= i < |b| && b[i].path == a[0].path;
    var j :| 0 <= j < |a| && a[j].path == b[0].path;
    LessTotal(a[0].path, b[0].path);
  }

  // ---- insert

  ghost predicate Valid(c: Entries) {
    Sorted(c) && forall i :: 0 <= i < |c| ==> ValidPath(c[i].path)
  }

  datatype Outcome<+T> = Ok(value: T) | ContentUnreadable

  /** ContentDigests::insert, and the two ways it is read back. */
  class ContentDigests {
    var entries: Entries

    constructor ()
      ensures entries == [] && Valid(entries)
    {
      entries := [];
    }

    method Insert(path: string, digest: Digest) returns (ok: bool)
      requires Valid(entries)
      modifies this
      ensures Valid(entries)
      ensures ok <==> ValidPath(path)
      ensures !ok ==> entries == old(entries)
      ensures ok ==> forall p :: Get(entries, p) == if p == path then Some(digest) else Get(old(entries), p)
    {
      if !ValidPath(path) {
        return false;
      }
      PutKeeps(entries, path, digest);
      PutValid(entries, path, digest);
      entries := Put(entries, path, digest);
      ok := true;
    }
  }

  lemma PutValid(c: Entries, path: string, digest: Digest)
    requires Valid(c) && ValidPath(path)
    ensures Valid(Put(c, path, digest))
  {
    hide ValidPath;
    PutKeeps(c, path, digest);
    var put := Put(c, path, digest);
    forall i | 0 <= i < |put|
      ensures ValidPath(put[i].path)
    {
      assert put[i] in put;
    }
  }
}
