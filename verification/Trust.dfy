/**
Trust anchors and signature verification
(crates/bastion-extension-protocol/src/trust.rs). The signature algorithm and
base64 are parameters: verification is decided by what they answer.
*/
module Trust {
  import opened Characters
  import opened Events
  import opened Content
  import opened Signing
  import LineCounts

  newtype byte = x: int | 0 <= x < 256

  type Bytes = seq<byte>

  /** Ed25519 and standard base64, seen from outside. */
  datatype Scheme = Scheme(
    decode: string -> Option<Bytes>,
    validKey: Bytes -> bool,
    weak: Bytes -> bool,
    accepts: (Bytes, string, Bytes) -> bool)

  datatype Tier = Local | Community | Verified | Official

  /** The declaration order, which is the order of trust. */
  function Rank(t: Tier): nat {
    match t
    case Local => 0
    case Community => 1
    case Verified => 2
    case Official => 3
  }

  /** The tiers in words: official over verified over community over local. */
  ghost predicate Above(a: Tier, b: Tier) {
    match b
    case Official => false
    case Verified => a == Official
    case Community => a == Official || a == Verified
    case Local => a != Local
  }

  datatype Signature = Signature(publisher: string, algorithm: string, value: string)

  datatype TrustedKey = TrustedKey(publisher: string, tier: Tier, key: Bytes)

  datatype Verification =
    | Unsigned
    | UnknownPublisher(publisher: string)
    | VerifiedBy(publisher: string, tier: Tier)
    | SignatureInvalid

  const ED25519 := "ed25519"

  // ---- adding keys

  /** A key the host may trust: what `add` checks. */
  predicate Acceptable(scheme: Scheme, k: TrustedKey) {
    && k.publisher != "" && !HasWhitespace(k.publisher)
    && k.tier != Local
    && |k.key| == 32 && scheme.validKey(k.key) && !scheme.weak(k.key)
  }

  ghost predicate AllAcceptable(scheme: Scheme, keys: seq<TrustedKey>) {
    forall i :: 0 <= i < |keys| ==> Acceptable(scheme, keys[i])
  }

  /** `split_whitespace`: the maximal runs of other characters. */
  function Words(line: string): (r: seq<string>)
    ensures forall i :: 0 <= i < |r| ==> r[i] != "" && !HasWhitespace(r[i])
    decreases |line|
  {
    if line == "" then []
    else if IsWhitespace(line[0]) then Words(line[1..])
    else
      var n := WordEnd(line);
      [line[..n]] + Words(line[n..])
  }

  /** The length of the first run without white space. */
  function WordEnd(line: string): (n: nat)
    ensures n <= |line| && !HasWhitespace(line[..n])
    ensures line != "" && !IsWhitespace(line[0]) ==> n > 0
    ensures n == |line| || IsWhitespace(line[n])
  {
    if line == "" || IsWhitespace(line[0]) then 0
    else
      var n := 1 + WordEnd(line[1..]);
      assert line[..n] == [line[0]] + line[1..][..n - 1];
      n
  }

  datatype Line = Ignored | Malformed | Key(key: TrustedKey)

  /** One line of a key file: white space, a comment, a key, or an error. */
  function ReadLine(scheme: Scheme, tier: Tier, line: string): Line {
    var words := Words(line);
    if words == [] || words[0][0] == '#' then Ignored
    else if |words| != 3 || words[1] != ED25519 || scheme.decode(words[2]).None? then Malformed
    else
      var k := TrustedKey(words[0], tier, scheme.decode(words[2]).value);
      if Acceptable(scheme, k) then Key(k) else Malformed
  }

  /** The keys of a file whose lines are all well formed, in order. */
  function KeysOf(scheme: Scheme, tier: Tier, lines: seq<string>): seq<TrustedKey> {
    if lines == [] then []
    else
      var rest, last := KeysOf(scheme, tier, lines[..|lines| - 1]), ReadLine(scheme, tier, lines[|lines| - 1]);
      if last.Key? then rest + [last.key] else rest
  }

  ghost predicate WellFormedFile(scheme: Scheme, tier: Tier, lines: seq<string>) {
    forall i :: 0 <= i < |lines| ==> !ReadLine(scheme, tier, lines[i]).Malformed?
  }

  class TrustAnchors {
    var keys: seq<TrustedKey>

    constructor ()
      ensures keys == []
    {
      keys := [];
    }

    /** add. */
    method Add(scheme: Scheme, publisher: string, tier: Tier, publicKey: Bytes) returns (ok: bool)
      modifies this
      ensures ok <==> Acceptable(scheme, TrustedKey(publisher, tier, publicKey))
      ensures keys == if ok then old(keys) + [TrustedKey(publisher, tier, publicKey)] else old(keys)
    {
      if publisher == "" || HasWhitespace(publisher) {
        return false;
      }
      if tier == Local {
        return false;
      }
      if |publicKey| != 32 || !scheme.validKey(publicKey) {
        return false;
      }
      if scheme.weak(publicKey) {
        return false;
      }
      keys := keys + [TrustedKey(publisher, tier, publicKey)];
      ok := true;
    }

    /** add_key_file: all of the file's keys, or none when any line is malformed. */
    method AddKeyFile(scheme: Scheme, tier: Tier, text: string) returns (added: Option<nat>)
      modifies this
      ensures added.Some? <==> WellFormedFile(scheme, tier, LineCounts.Lines(text))
      ensures added.Some? ==>
        && keys == old(keys) + KeysOf(scheme, tier, LineCounts.Lines(text))
        && added.value == |KeysOf(scheme, tier, LineCounts.Lines(text))|
      ensures added.None? ==> keys == old(keys)
    {
      added := AddLines(scheme, tier, LineCounts.Lines(text));
    }

    method AddLines(scheme: Scheme, tier: Tier, lines: seq<string>) returns (added: Option<nat>)
      modifies this
      ensures added.Some? <==> WellFormedFile(scheme, tier, lines)
      ensures added.Some? ==>
        keys == old(keys) + KeysOf(scheme, tier, lines) && added.value == |KeysOf(scheme, tier, lines)|
      ensures added.None? ==> keys == old(keys)
    {
      var parsed := new TrustAnchors();
      for i := 0 to |lines|
        invariant fresh(parsed) && keys == old(keys)
        invariant parsed.keys == KeysOf(scheme, tier, lines[..i])
        invariant forall j :: 0 <= j < i ==> !ReadLine(scheme, tier, lines[j]).Malformed?
      {
        assert lines[..i + 1][..i] == lines[..i];
        var words := Words(lines[i]);
        if words == [] || words[0][0] == '#' {
          continue;
        }
        if |words| != 3 {
          return None;
        }
        if words[1] != ED25519 {
          return None;
        }
        var bytes := scheme.decode(words[2]);
        if bytes.None? {
          return None;
        }
        var ok := parsed.Add(scheme, words[0], tier, bytes.value);
        if !ok {
          return None;
        }
      }
      assert lines[..|lines|] == lines;
      keys := keys + parsed.keys;
      added := Some(|parsed.keys|);
    }
  }

  // ---- what a key line says

  /** `gaps[i]` stands before word `i`, and the last gap after the last word. */
  function Spaced(gaps: seq<string>, words: seq<string>): string
    requires |gaps| == |words| + 1
  {
    if words == [] then gaps[0] else gaps[0] + words[0] + Spaced(gaps[1..], words[1..])
  }

  /** White space, at least some between two words. */
  ghost predicate Separates(gaps: seq<string>, words: seq<string>) {
    && |gaps| == |words| + 1
    && (forall i :: 0 <= i < |gaps| ==> Blank(gaps[i]))
    && (forall i :: 0 < i < |words| ==> gaps[i] != "")
  }

  ghost predicate AreWords(words: seq<string>) {
    forall i :: 0 <= i < |words| ==> words[i] != "" && !HasWhitespace(words[i])
  }

  lemma {:induction false} SkipGap(gap: string, rest: string)
    requires Blank(gap)
    ensures Words(gap + rest) == Words(rest)
  {
    if gap == "" {
      assert gap + rest == rest;
    } else {
      SkipGap(gap[1..], rest);
      assert (gap + rest)[1..] == gap[1..] + rest;
    }
  }

  lemma {:induction false} WordEndAt(word: string, rest: string)
    requires !HasWhitespace(word) && (rest == "" || IsWhitespace(rest[0]))
    ensures WordEnd(word + rest) == |word|
  {
    if word == "" {
      assert word + rest == rest;
    } else {
      assert !IsWhitespace(word[0]);
      assert !HasWhitespace(word[1..]) by {
        assert forall i :: 0 <= i < |word| - 1 ==> word[1..][i] == word[i + 1];
      }
      WordEndAt(word[1..], rest);
      assert (word + rest)[1..] == word[1..] + rest;
    }
  }

  lemma FirstWord(word: string, rest: string)
    requires word != "" && !HasWhitespace(word) && (rest == "" || IsWhitespace(rest[0]))
    ensures Words(word + rest) == [word] + Words(rest)
  {
    WordEndAt(word, rest);
    assert !IsWhitespace(word[0]);
    assert (word + rest)[..|word|] == word && (word + rest)[|word|..] == rest;
  }

  /** Splitting a line gives the words it was written with, however they are spaced. */
  lemma {:induction false} WordsOfSpaced(gaps: seq<string>, words: seq<string>)
    requires Separates(gaps, words) && AreWords(words)
    ensures Words(Spaced(gaps, words)) == words
    decreases |words|
  {
    hide Words;
    if words == [] {
      NoWords(gaps[0]);
    } else {
      var rest := Spaced(gaps[1..], words[1..]);
      WordsOfSpaced(gaps[1..], words[1..]);
      assert rest == "" || IsWhitespace(rest[0]) by {
        SpacedStart(gaps[1..], words[1..]);
        assert |words| > 1 ==> gaps[1] != "";
      }
      FirstWord(words[0], rest);
      SkipGap(gaps[0], words[0] + rest);
      assert Spaced(gaps, words) == gaps[0] + (words[0] + rest);
      assert words == [words[0]] + words[1..];
    }
  }

  lemma SpacedStart(gaps: seq<string>, words: seq<string>)
    requires |gaps| == |words| + 1 && Blank(gaps[0]) && (words != [] ==> gaps[0] != "")
    ensures Spaced(gaps, words) == "" || IsWhitespace(Spaced(gaps, words)[0])
  {
    if gaps[0] != "" {
      assert Spaced(gaps, words)[0] == gaps[0][0];
    }
  }

  /**
  A line of the key file `publisher ed25519 key`, however it is spaced, adds
  that key to that publisher exactly when it decodes and `add` takes it.
  */
  lemma KeyLineReads(scheme: Scheme, tier: Tier, gaps: seq<string>, publisher: string, encoded: string, key: Bytes)
    requires Separates(gaps, [publisher, "ed25519", encoded]) && AreWords([publisher, "ed25519", encoded])
    ensures var line := Spaced(gaps, [publisher, "ed25519", encoded]);
      ReadLine(scheme, tier, line) == Key(TrustedKey(publisher, tier, key)) <==>
      publisher[0] != '#' && scheme.decode(encoded) == Some(key) && Acceptable(scheme, TrustedKey(publisher, tier, key))
  {
    WordsOfSpaced(gaps, [publisher, "ed25519", encoded]);
    hide Words, Spaced, Acceptable;
  }

  /** A line adds no key without an error exactly when it is blank or its first word starts a comment. */
  lemma IgnoredExactly(scheme: Scheme, tier: Tier, line: string)
    ensures ReadLine(scheme, tier, line).Ignored? <==> Blank(line) || (Words(line) != [] && Words(line)[0][0] == '#')
    ensures ReadLine(scheme, tier, line).Key? ==>
      |Words(line)| == 3 && Words(line)[1] == "ed25519" && ReadLine(scheme, tier, line).key.publisher == Words(line)[0]
  {
    NoWords(line);
  }

  /** A line has no word exactly when trimming leaves nothing of it. */
  lemma {:induction false} NoWords(line: string)
    ensures Words(line) == [] <==> Blank(line)
    decreases |line|
  {
    if line != "" && IsWhitespace(line[0]) {
      NoWords(line[1..]);
      assert line == [line[0]] + line[1..];
    } else if line != "" {
      assert Words(line) != [];
    }
  }

  /** A key file adds only keys that `add` would take, all at the given tier. */
  lemma {:induction false} KeysOfAcceptable(scheme: Scheme, tier: Tier, lines: seq<string>)
    ensures AllAcceptable(scheme, KeysOf(scheme, tier, lines))
    ensures forall k :: k in KeysOf(scheme, tier, lines) ==> k.tier == tier
    ensures tier == Local ==> KeysOf(scheme, tier, lines) == []
  {
    if lines != [] {
      KeysOfAcceptable(scheme, tier, lines[..|lines| - 1]);
    }
  }

  // ---- the keys a host ends up with

  /** What a host is configured with: single keys, and key files. */
  datatype Addition = AddOne(key: TrustedKey) | AddFile(tier: Tier, text: string)

  /** The keys after an addition: a refused key, or a file with a malformed line, adds nothing. */
  ghost function Added(scheme: Scheme, keys: seq<TrustedKey>, a: Addition): seq<TrustedKey> {
    match a
    case AddOne(key) => if Acceptable(scheme, key) then keys + [key] else keys
    case AddFile(tier, text) =>
      var lines := LineCounts.Lines(text);
      if WellFormedFile(scheme, tier, lines) then keys + KeysOf(scheme, tier, lines) else keys
  }

  ghost function AllAdded(scheme: Scheme, additions: seq<Addition>): seq<TrustedKey> {
    if additions == [] then []
    else Added(scheme, AllAdded(scheme, additions[..|additions| - 1]), additions[|additions| - 1])
  }

  /** A key that can vouch for something: a sound ed25519 key of a named publisher, above the local tier. */
  ghost predicate Sound(scheme: Scheme, k: TrustedKey) {
    && k.publisher != "" && (forall i :: 0 <= i < |k.publisher| ==> !IsWhitespace(k.publisher[i]))
    && Above(k.tier, Local) && |k.key| == 32 && scheme.validKey(k.key) && !scheme.weak(k.key)
  }

  /** However a host is configured, it trusts sound keys only, each given by one of the additions. */
  lemma {:induction false} OnlySoundKeys(scheme: Scheme, additions: seq<Addition>, k: TrustedKey)
    requires k in AllAdded(scheme, additions)
    ensures Sound(scheme, k)
    ensures exists i :: 0 <= i < |additions| && Gives(scheme, additions[i], k)
  {
    var before, last := additions[..|additions| - 1], additions[|additions| - 1];
    if k in AllAdded(scheme, before) {
      OnlySoundKeys(scheme, before, k);
      var i :| 0 <= i < |before| && Gives(scheme, before[i], k);
      assert additions[i] == before[i];
    } else {
      if last.AddFile? {
        KeysOfAcceptable(scheme, last.tier, LineCounts.Lines(last.text));
      }
      assert Acceptable(scheme, k);
      assert Gives(scheme, additions[|additions| - 1], k);
    }
  }

  /** The addition is that key, or a file at its tier with that key in it. */
  ghost predicate Gives(scheme: Scheme, a: Addition, k: TrustedKey) {
    match a
    case AddOne(key) => key == k
    case AddFile(tier, text) => tier == k.tier && k in KeysOf(scheme, tier, LineCounts.Lines(text))
  }

  // ---- verifying

  predicate Accepts(scheme: Scheme, k: TrustedKey, publisher: string, payload: string, sig: Bytes) {
    k.publisher == publisher && scheme.accepts(k.key, payload, sig)
  }

  /** The highest tier among the publisher's keys that accept. */
  function BestTier(scheme: Scheme, keys: seq<TrustedKey>, publisher: string, payload: string, sig: Bytes): Option<Tier>
  {
    if keys == [] then None
    else
      var rest := BestTier(scheme, keys[1..], publisher, payload, sig);
      if !Accepts(scheme, keys[0], publisher, payload, sig) then rest
      else if rest.Some? && Rank(rest.value) > Rank(keys[0].tier) then rest
      else Some(keys[0].tier)
  }

  predicate Knows(keys: seq<TrustedKey>, publisher: string) {
    exists i :: 0 <= i < |keys| && keys[i].publisher == publisher
  }

  /** verify. */
  function Verify(scheme: Scheme, keys: seq<TrustedKey>, payload: string, signature: Option<Signature>): Verification {
    match signature
    case None => Unsigned
    case Some(s) =>
      if s.algorithm != ED25519 || scheme.decode(s.value).None? || |scheme.decode(s.value).value| != 64
      then SignatureInvalid
      else if !Knows(keys, s.publisher) then UnknownPublisher(s.publisher)
      else
        match BestTier(scheme, keys, s.publisher, payload, scheme.decode(s.value).value)
        case None => SignatureInvalid
        case Some(tier) => VerifiedBy(s.publisher, tier)
  }

  predicate WellFormed(scheme: Scheme, s: Signature) {
    s.algorithm == ED25519 && scheme.decode(s.value).Some? && |scheme.decode(s.value).value| == 64
  }

  /** Key `k` vouches for `payload` under signature `s`. */
  predicate Vouches(scheme: Scheme, k: TrustedKey, payload: string, s: Signature) {
    WellFormed(scheme, s) && Accepts(scheme, k, s.publisher, payload, scheme.decode(s.value).value)
  }

  ghost predicate Vouched(scheme: Scheme, keys: seq<TrustedKey>, payload: string, s: Signature, tier: Tier) {
    exists i :: 0 <= i < |keys| && Vouches(scheme, keys[i], payload, s) && keys[i].tier == tier
  }

  lemma {:induction false} BestTierIsMax(scheme: Scheme, keys: seq<TrustedKey>, payload: string, s: Signature)
    requires WellFormed(scheme, s)
    ensures var best := BestTier(scheme, keys, s.publisher, payload, scheme.decode(s.value).value);
      && (best.None? <==> forall t :: !Vouched(scheme, keys, payload, s, t))
      && (best.Some? ==> Vouched(scheme, keys, payload, s, best.value))
      && forall t :: Vouched(scheme, keys, payload, s, t) ==> best.Some? && Rank(t) <= Rank(best.value)
  {
    if keys != [] {
      BestTierIsMax(scheme, keys[1..], payload, s);
      forall t
        ensures Vouched(scheme, keys, payload, s, t) <==>
          Vouched(scheme, keys[1..], payload, s, t) || (Vouches(scheme, keys[0], payload, s) && keys[0].tier == t)
      {
        assert forall i :: 0 < i < |keys| ==> keys[1..][i - 1] == keys[i];
      }
    }
  }

  /**
  A signature is verified at tier `t` exactly when a key of its publisher
  accepts it at `t` and none accepts it at a higher tier.
  */
  lemma VerifiedExactly(scheme: Scheme, keys: seq<TrustedKey>, payload: string, s: Signature, p: string, t: Tier)
    ensures Verify(scheme, keys, payload, Some(s)) == VerifiedBy(p, t) <==>
      && p == s.publisher
      && Vouched(scheme, keys, payload, s, t)
      && forall u :: Vouched(scheme, keys, payload, s, u) ==> !Above(u, t)
  {
    if WellFormed(scheme, s) {
      BestTierIsMax(scheme, keys, payload, s);
    }
  }

  /** The other outcomes, which partition what is not verified. */
  lemma UnverifiedExactly(scheme: Scheme, keys: seq<TrustedKey>, payload: string, s: Signature)
    ensures Verify(scheme, keys, payload, Some(s)) == UnknownPublisher(s.publisher) <==>
      WellFormed(scheme, s) && !Knows(keys, s.publisher)
    ensures Verify(scheme, keys, payload, Some(s)) == SignatureInvalid <==>
      !WellFormed(scheme, s) || (Knows(keys, s.publisher) && forall t :: !Vouched(scheme, keys, payload, s, t))
  {
    if WellFormed(scheme, s) {
      BestTierIsMax(scheme, keys, payload, s);
    }
  }

  /** The tier an outcome grants; an error grants none and rejects the install. */
  function Granted(v: Verification): Tier {
    match v
    case VerifiedBy(_, tier) => tier
    case _ => Local
  }

  /** More than `Local` is granted exactly when some trusted key of the publisher accepts. */
  lemma ElevatedOnlyByTrustedKey(scheme: Scheme, keys: seq<TrustedKey>, payload: string, signature: Option<Signature>)
    requires AllAcceptable(scheme, keys)
    ensures Granted(Verify(scheme, keys, payload, signature)) != Local <==>
      signature.Some? && exists i :: 0 <= i < |keys| && Vouches(scheme, keys[i], payload, signature.value)
  {
    if signature.Some? {
      var s := signature.value;
      if WellFormed(scheme, s) {
        BestTierIsMax(scheme, keys, payload, s);
      }
      if i :| 0 <= i < |keys| && Vouches(scheme, keys[i], payload, s) {
        assert Vouched(scheme, keys, payload, s, keys[i].tier);
        assert Acceptable(scheme, keys[i]);
        var best := BestTier(scheme, keys, s.publisher, payload, scheme.decode(s.value).value);
        assert Rank(keys[i].tier) <= Rank(best.value);
      }
    }
  }

  /**
  Trusting more keys never lowers what a signature is granted, and keys of
  other publishers change nothing.
  */
  lemma MoreKeys(scheme: Scheme, keys: seq<TrustedKey>, more: seq<TrustedKey>, payload: string, s: Signature)
    ensures Rank(Granted(Verify(scheme, keys, payload, Some(s)))) <=
      Rank(Granted(Verify(scheme, keys + more, payload, Some(s))))
    ensures !Knows(more, s.publisher) ==>
      Verify(scheme, keys + more, payload, Some(s)) == Verify(scheme, keys, payload, Some(s))
  {
    var all := keys + more;
    forall t
      ensures Vouched(scheme, all, payload, s, t) <==>
        Vouched(scheme, keys, payload, s, t) || Vouched(scheme, more, payload, s, t)
    {
      assert forall i :: 0 <= i < |keys| ==> all[i] == keys[i];
      assert forall i :: 0 <= i < |more| ==> all[|keys| + i] == more[i];
    }
    assert Knows(all, s.publisher) <==> Knows(keys, s.publisher) || Knows(more, s.publisher) by {
      assert forall i :: 0 <= i < |keys| ==> all[i] == keys[i];
      assert forall i :: 0 <= i < |more| ==> all[|keys| + i] == more[i];
    }
    if WellFormed(scheme, s) {
      BestTierIsMax(scheme, keys, payload, s);
      BestTierIsMax(scheme, all, payload, s);
      if !Knows(more, s.publisher) {
        assert forall t :: !Vouched(scheme, more, payload, s, t);
        SameBest(scheme, keys, all, payload, s);
      }
    }
  }

  lemma SameBest(scheme: Scheme, a: seq<TrustedKey>, b: seq<TrustedKey>, payload: string, s: Signature)
    requires WellFormed(scheme, s)
    requires forall t :: Vouched(scheme, a, payload, s, t) <==> Vouched(scheme, b, payload, s, t)
    ensures BestTier(scheme, a, s.publisher, payload, scheme.decode(s.value).value) ==
      BestTier(scheme, b, s.publisher, payload, scheme.decode(s.value).value)
  {
    BestTierIsMax(scheme, a, payload, s);
    BestTierIsMax(scheme, b, payload, s);
  }

  /** A signature value is accepted for one payload only, whatever the key. */
  ghost predicate Binding(scheme: Scheme) {
    forall k, l, a, b, sig :: scheme.accepts(k, a, sig) && scheme.accepts(l, b, sig) ==> a == b
  }

  /**
  No replay: under a binding scheme one signature verifies for one manifest,
  its kind and every path and digest of its content included.
  */
  lemma NoReplay(scheme: Scheme, keys: seq<TrustedKey>, a: Signed, b: Signed, s: Signature)
    requires Binding(scheme) && Signable(a) && Signable(b)
    requires Verify(scheme, keys, PayloadText(a), Some(s)).VerifiedBy?
    requires Verify(scheme, keys, PayloadText(b), Some(s)).VerifiedBy?
    ensures a == b
  {
    BestTierIsMax(scheme, keys, PayloadText(a), s);
    BestTierIsMax(scheme, keys, PayloadText(b), s);
    RoundTrip(a);
    RoundTrip(b);
  }
}
