/**
The line counts of a `Diff` event: the map-based count of the acpx adapter and
the plain count of the acp adapter (crates/bastion-agent-runtime/src/acpx.rs,
crates/bastion-agent-runtime/src/acp.rs). Counts are unbounded.
*/
module LineCounts {
  import opened Events

  /** `str::lines`: pieces ended by a line feed, a carriage return before it dropped. */
  function Lines(s: string): seq<string>
    decreases |s|
  {
    if s == "" then []
    else
      var end := LineEnd(s);
      if end == |s| then [s] else [WithoutReturn(s[..end])] + Lines(s[end + 1..])
  }

  function LineEnd(s: string): (end: nat)
    ensures end <= |s| && '\n' !in s[..end] && (end < |s| ==> s[end] == '\n')
  {
    if s == "" || s[0] == '\n' then 0
    else
      var end := 1 + LineEnd(s[1..]);
      assert s[..end] == [s[0]] + s[1..][..end - 1];
      end
  }

  function WithoutReturn(line: string): string {
    if line != "" && line[|line| - 1] == '\r' then line[..|line| - 1] else line
  }

  /** Lines as they stand in a text, each ended by a line feed, with a carriage return before it where `crlf` says. */
  function Written(lines: seq<string>, crlf: seq<bool>): string
    requires |crlf| == |lines|
  {
    if lines == [] then "" else lines[0] + (if crlf[0] then "\r\n" else "\n") + Written(lines[1..], crlf[1..])
  }

  /** No line has a line feed in it, or a carriage return at its end that is not its ending's. */
  ghost predicate Writable(lines: seq<string>, crlf: seq<bool>) {
    && |crlf| == |lines|
    && forall i :: 0 <= i < |lines| ==> '\n' !in lines[i] && (!crlf[i] ==> WithoutReturn(lines[i]) == lines[i])
  }

  lemma {:induction false} LineEndAt(line: string, rest: string)
    requires '\n' !in line
    ensures LineEnd(line + "\n" + rest) == |line| && LineEnd(line) == |line|
  {
    if line == "" {
      assert (line + "\n" + rest)[0] == '\n';
    } else {
      LineEndAt(line[1..], rest);
      assert (line + "\n" + rest)[1..] == line[1..] + "\n" + rest;
      assert line == [line[0]] + line[1..];
    }
  }

  lemma FirstLine(line: string, crlf: bool, rest: string)
    requires '\n' !in line && (!crlf ==> WithoutReturn(line) == line)
    ensures Lines(line + (if crlf then "\r\n" else "\n") + rest) == [line] + Lines(rest)
  {
    var body := if crlf then line + "\r" else line;
    var text := line + (if crlf then "\r\n" else "\n") + rest;
    assert text == body + "\n" + rest;
    LineEndAt(body, rest);
    assert text[..|body|] == body && text[|body| + 1..] == rest;
    assert WithoutReturn(body) == line by {
      assert crlf ==> body[..|body| - 1] == line;
    }
  }

  /** Reading a text gives the lines it was written with; the last may lack its ending. */
  lemma {:induction false} LinesOfWritten(lines: seq<string>, crlf: seq<bool>, last: string)
    requires Writable(lines, crlf) && '\n' !in last
    ensures Lines(Written(lines, crlf) + last) == lines + if last == "" then [] else [last]
  {
    hide Lines, WithoutReturn;
    if lines == [] {
      LastLine(last);
      assert Written(lines, crlf) + last == last;
    } else {
      var rest := Written(lines[1..], crlf[1..]) + last;
      LinesOfWritten(lines[1..], crlf[1..], last);
      FirstLine(lines[0], crlf[0], rest);
      assert Written(lines, crlf) + last == lines[0] + (if crlf[0] then "\r\n" else "\n") + rest;
      assert lines == [lines[0]] + lines[1..];
    }
  }

  lemma LastLine(last: string)
    requires '\n' !in last
    ensures Lines(last) == if last == "" then [] else [last]
  {
    LineEndAt(last, "");
  }

  /** And every text is written so. */
  lemma {:induction false} EveryTextIsWritten(s: string) returns (lines: seq<string>, crlf: seq<bool>, last: string)
    ensures Writable(lines, crlf) && '\n' !in last && s == Written(lines, crlf) + last
    decreases |s|
  {
    var end := LineEnd(s);
    if end == |s| {
      assert s[..end] == s;
      lines, crlf, last := [], [], s;
    } else {
      var more, ends;
      more, ends, last := EveryTextIsWritten(s[end + 1..]);
      var body := s[..end];
      assert s == body + "\n" + s[end + 1..];
      var returned := WithoutReturn(body) != body;
      lines, crlf := [WithoutReturn(body)] + more, [returned] + ends;
      if returned {
        assert body == body[..end - 1] + "\r";
        assert body + "\n" == WithoutReturn(body) + "\r\n";
      }
      assert lines[1..] == more && crlf[1..] == ends;
      assert forall i :: 0 < i < |lines| ==> lines[i] == more[i - 1] && crlf[i] == ends[i - 1];
    }
  }

  // ---- what the two adapters report

  /** acpx: lines of the new text beyond those of the old one, and the other way round. */
  function Differences(before: Option<string>, after: string): (nat, nat) {
    match before
    case None => (|Lines(after)|, 0)
    case Some(text) =>
      (|multiset(Lines(after)) - multiset(Lines(text))|, |multiset(Lines(text)) - multiset(Lines(after))|)
  }

  /** acp: every line of the new text, every line of the old one. */
  function AcpCounts(before: Option<string>, after: string): (nat, nat) {
    (|Lines(after)|, if before.Some? then |Lines(before.value)| else 0)
  }

  /** The lines the two texts share. */
  ghost function Common(before: Option<string>, after: string): multiset<string> {
    if before.Some? then multiset(Lines(before.value)) * multiset(Lines(after)) else multiset{}
  }

  // ---- acpx's map of signed counts

  function Count(counts: map<string, int>, line: string): int {
    if line in counts then counts[line] else 0
  }

  method LineDiffCounts(before: Option<string>, after: string) returns (added: nat, removed: nat)
    ensures (added, removed) == Differences(before, after)
  {
    if before.None? {
      return |Lines(after)|, 0;
    }
    var counts := TallyDown(Lines(before.value));
    counts := TallyUp(counts, Lines(after));
    added, removed := SumCounts(counts, multiset(Lines(before.value)), multiset(Lines(after)));
  }

  method TallyDown(lines: seq<string>) returns (counts: map<string, int>)
    ensures forall l :: Count(counts, l) + multiset(lines)[l] == 0
  {
    counts := map[];
    for i := 0 to |lines|
      invariant forall l :: Count(counts, l) + multiset(lines[..i])[l] == 0
    {
      assert lines[..i + 1] == lines[..i] + [lines[i]];
      counts := counts[lines[i] := Count(counts, lines[i]) - 1];
    }
    assert lines[..|lines|] == lines;
  }

  method TallyUp(before: map<string, int>, lines: seq<string>) returns (counts: map<string, int>)
    ensures forall l :: Count(counts, l) == Count(before, l) + multiset(lines)[l]
  {
    counts := before;
    for i := 0 to |lines|
      invariant forall l :: Count(counts, l) == Count(before, l) + multiset(lines[..i])[l]
    {
      assert lines[..i + 1] == lines[..i] + [lines[i]];
      counts := counts[lines[i] := Count(counts, lines[i]) + 1];
    }
    assert lines[..|lines|] == lines;
  }

  /** The sum of the positive counts, and of the negative ones. */
  method SumCounts(counts: map<string, int>, ghost before: multiset<string>, ghost after: multiset<string>)
    returns (added: nat, removed: nat)
    requires forall l :: Count(counts, l) + before[l] == after[l]
    ensures added == |after - before| && removed == |before - after|
  {
    ghost var gained, lost: multiset<string> := multiset{}, multiset{};
    added, removed := 0, 0;
    var todo := counts.Keys;
    while todo != {}
      invariant todo <= counts.Keys
      invariant forall l :: gained[l] == if l in todo then 0 else (after - before)[l]
      invariant forall l :: lost[l] == if l in todo then 0 else (before - after)[l]
      invariant added == |gained| && removed == |lost|
      decreases |todo|
    {
      var l :| l in todo;
      todo := todo - {l};
      assert Count(counts, l) + before[l] == after[l];
      if counts[l] > 0 {
        added := added + counts[l];
        gained := gained[l := counts[l]];
      } else if counts[l] < 0 {
        removed := removed - counts[l];
        lost := lost[l := -counts[l]];
      }
    }
    assert gained == after - before && lost == before - after;
  }

  // ---- how the two relate

  /** acp reports the common lines on both sides; acpx on neither. So the balance is the same. */
  lemma AcpExceedsByCommon(before: Option<string>, after: string)
    ensures before.Some? ==>
      && AcpCounts(before, after).0 == Differences(before, after).0 + |Common(before, after)|
      && AcpCounts(before, after).1 == Differences(before, after).1 + |Common(before, after)|
    ensures AcpCounts(before, after).0 - AcpCounts(before, after).1 ==
      Differences(before, after).0 - Differences(before, after).1
  {
    if before.Some? {
      var o, n := multiset(Lines(before.value)), multiset(Lines(after));
      assert o * n == n * o;
      assert |n| == |n - o| + |n * o| && |o| == |o - n| + |o * n|;
    }
  }

  /** The two adapters report the same numbers exactly when the texts share no line. */
  lemma AdaptersAgreeExactly(before: Option<string>, after: string)
    ensures AcpCounts(before, after) == Differences(before, after) <==> Common(before, after) == multiset{}
  {
    AcpExceedsByCommon(before, after);
    if |Common(before, after)| == 0 {
      assert Common(before, after) == multiset{};
    }
  }

  /** They differ on a one-line text that does not change. */
  lemma AdaptersDisagree()
    ensures AcpCounts(Some("a"), "a") == (1, 1) && Differences(Some("a"), "a") == (0, 0)
  {
    assert LineEnd("a") == 1;
    assert multiset(["a"]) - multiset(["a"]) == multiset{};
  }

  /** `part` is `whole` with some lines left out. */
  ghost predicate Subsequence(part: seq<string>, whole: seq<string>) {
    || part == []
    || (whole != [] && (Subsequence(part, whole[1..]) || (part[0] == whole[0] && Subsequence(part[1..], whole[1..]))))
  }

  lemma {:induction false} SubsequenceIncluded(part: seq<string>, whole: seq<string>)
    requires Subsequence(part, whole)
    ensures multiset(part) <= multiset(whole)
  {
    if part != [] {
      assert whole == [whole[0]] + whole[1..];
      if Subsequence(part, whole[1..]) {
        SubsequenceIncluded(part, whole[1..]);
      } else {
        assert part == [part[0]] + part[1..];
        SubsequenceIncluded(part[1..], whole[1..]);
      }
    }
  }

  /** No positional line diff, which keeps a common subsequence, adds or removes fewer lines than acpx reports. */
  lemma NoDiffIsSmaller(before: string, after: string, kept: seq<string>)
    requires Subsequence(kept, Lines(before)) && Subsequence(kept, Lines(after))
    ensures |Lines(after)| - |kept| >= Differences(Some(before), after).0
    ensures |Lines(before)| - |kept| >= Differences(Some(before), after).1
  {
    SubsequenceIncluded(kept, Lines(before));
    SubsequenceIncluded(kept, Lines(after));
    AcpExceedsByCommon(Some(before), after);
    var k, common := multiset(kept), Common(Some(before), after);
    assert k <= common;
    assert common == k + (common - k);
  }
}
