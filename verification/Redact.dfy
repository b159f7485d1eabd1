/** Secret redaction of command output (internal/provision/provision.go:418-447, and its copy with
    another key order in internal/backup/backup.go:366-392). */
module Redact {
  import opened Optional

  const MASK := "***"

  const PROVISION_KEYS := ["repo1-s3-key-secret", "repo1-s3-key", "repo1-cipher-pass", "repo2-cipher-pass"]
  const BACKUP_KEYS := ["repo1-cipher-pass", "repo2-cipher-pass", "repo1-s3-key-secret", "repo1-s3-key"]

  function Marker(key: string): string { key + "=" }

  /** Where the line that holds position `from` ends: at its newline or at the end of the text. */
  function LineEnd(s: string, from: nat): (n: nat)
    requires from <= |s|
    ensures from <= n <= |s|
    decreases |s| - from
  {
    if from == |s| || s[from] == '\n' then from else LineEnd(s, from + 1)
  }

  ghost predicate NoNewline(s: string, from: nat, to: nat)
    requires from <= to <= |s|
  {
    forall j :: from <= j < to ==> s[j] != '\n'
  }

  lemma {:induction false} LineEndIs(s: string, from: nat)
    requires from <= |s|
    ensures NoNewline(s, from, LineEnd(s, from))
    ensures LineEnd(s, from) < |s| ==> s[LineEnd(s, from)] == '\n'
    decreases |s| - from
  {
    if from < |s| && s[from] != '\n' {
      LineEndIs(s, from + 1);
    }
  }

  /** The end of a line is the only position with these properties. */
  lemma LineEndsAt(s: string, from: nat, n: nat)
    requires from <= n <= |s| && NoNewline(s, from, n) && (n < |s| ==> s[n] == '\n')
    ensures LineEnd(s, from) == n
  {
    LineEndIs(s, from);
  }

  // ---------- the line-wise specification ----------

  /** The key's marker occurs and ends exactly at position `e`. */
  predicate MarkedAt(key: string, s: string, e: nat) {
    |Marker(key)| <= e <= |s| && s[e - |Marker(key)|..e] == Marker(key)
  }

  /** Some key's marker ends exactly at position `e`. */
  ghost predicate EndsAt(keys: set<string>, s: string, e: nat) {
    exists k :: k in keys && MarkedAt(k, s, e)
  }

  /** `e` is where the earliest marker ends. */
  ghost predicate FirstEnd(keys: set<string>, s: string, e: nat) {
    EndsAt(keys, s, e) && forall f :: 0 <= f < e ==> !EndsAt(keys, s, f)
  }

  ghost predicate Clean(keys: set<string>, s: string) {
    forall e :: 0 <= e <= |s| ==> !EndsAt(keys, s, e)
  }

  /** A line is cut right after its earliest marker and given the mask; other lines stay. */
  ghost function Cut(keys: set<string>, line: string): string {
    CutFrom(keys, line, 0)
  }

  ghost function CutFrom(keys: set<string>, line: string, e: nat): string
    decreases |line| - e
  {
    if e > |line| then line
    else if EndsAt(keys, line, e) then line[..e] + MASK
    else CutFrom(keys, line, e + 1)
  }

  ghost function Earliest(keys: set<string>, s: string, from: nat): (e: nat)
    requires from <= |s| && !Clean(keys, s) && forall f :: 0 <= f < from ==> !EndsAt(keys, s, f)
    ensures e <= |s| && FirstEnd(keys, s, e)
    decreases |s| - from
  {
    if EndsAt(keys, s, from) then from
    else
      assert from < |s| by {
        if from == |s| { assert Clean(keys, s); }
      }
      Earliest(keys, s, from + 1)
  }

  lemma {:induction false} CutFromAt(keys: set<string>, line: string, from: nat, e: nat)
    requires from <= e && FirstEnd(keys, line, e)
    ensures e <= |line| && CutFrom(keys, line, from) == line[..e] + MASK
    decreases e - from
  {
    if from < e {
      CutFromAt(keys, line, from + 1, e);
    }
  }

  lemma CutAt(keys: set<string>, line: string, e: nat)
    requires FirstEnd(keys, line, e)
    ensures e <= |line| && Cut(keys, line) == line[..e] + MASK
  {
    CutFromAt(keys, line, 0, e);
  }

  lemma {:induction false} CutFromClean(keys: set<string>, line: string, from: nat)
    requires Clean(keys, line)
    ensures CutFrom(keys, line, from) == line
    decreases |line| - from
  {
    if from <= |line| {
      CutFromClean(keys, line, from + 1);
    }
  }

  lemma CutClean(keys: set<string>, line: string)
    requires Clean(keys, line)
    ensures Cut(keys, line) == line
  {
    CutFromClean(keys, line, 0);
  }

  lemma CutKeepsLine(keys: set<string>, line: string)
    requires '\n' !in line
    ensures '\n' !in Cut(keys, line)
  {
    if Clean(keys, line) {
      CutClean(keys, line);
    } else {
      CutAt(keys, line, Earliest(keys, line, 0));
    }
  }

  /** The text with every line cut. */
  ghost function Redacted(keys: set<string>, s: string): string {
    RedactedFrom(keys, s, 0)
  }

  /** The lines from position `p` on, cut. */
  ghost function RedactedFrom(keys: set<string>, s: string, p: nat): string
    requires p <= |s|
    decreases |s| - p
  {
    var n := LineEnd(s, p);
    if n == |s| then Cut(keys, s[p..n])
    else Cut(keys, s[p..n]) + "\n" + RedactedFrom(keys, s, n + 1)
  }

  // ---------- cutting for one more key ----------

  /** Markers of a part of a text are markers of the text. */
  lemma MarkedInPart(key: string, s: string, from: nat, to: nat, e: nat)
    requires from <= to <= |s|
    ensures MarkedAt(key, s[from..to], e) <==> e >= |Marker(key)| && from + e <= to && MarkedAt(key, s, from + e)
  {
    if |Marker(key)| <= e && from + e <= to {
      var a := s[from..to][e - |Marker(key)|..e];
      var b := s[from + e - |Marker(key)|..from + e];
      assert |a| == |b| && forall j :: 0 <= j < |a| ==> a[j] == b[j];
    }
  }

  lemma LastIsEquals(key: string, s: string, e: nat)
    requires 0 < e <= |s|
    ensures MarkedAt(key, s, e) ==> s[e - 1] == '='
  {
    if MarkedAt(key, s, e) {
      assert s[e - |Marker(key)|..e][|Marker(key)| - 1] == s[e - 1];
    }
  }

  /** Beyond a cut there is only the mask, so the markers in a cut line are those up to the cut. */
  lemma EndsInCut(keys: set<string>, line: string, e: nat, f: nat)
    requires e <= |line|
    ensures EndsAt(keys, line[..e] + MASK, f) <==> f <= e && EndsAt(keys, line, f)
  {
    var cut := line[..e] + MASK;
    forall k ensures MarkedAt(k, cut, f) <==> f <= e && MarkedAt(k, line, f) {
      if f <= e {
        MarkedInPart(k, line, 0, e, f);
        MarkedInPart(k, cut, 0, e, f);
        assert cut[0..e] == line[0..e];
      } else if f <= |cut| {
        LastIsEquals(k, cut, f);
      }
    }
  }

  lemma EndsInUnion(a: set<string>, b: set<string>, s: string, e: nat)
    ensures EndsAt(a + b, s, e) <==> EndsAt(a, s, e) || EndsAt(b, s, e)
  {
    if EndsAt(a + b, s, e) {
      var k :| k in a + b && MarkedAt(k, s, e);
    }
  }

  /** Cutting for some keys and then for others is cutting for all of them. */
  lemma CutTwice(a: set<string>, b: set<string>, line: string)
    ensures Cut(b, Cut(a, line)) == Cut(a + b, line)
  {
    forall e: nat ensures EndsAt(a + b, line, e) <==> EndsAt(a, line, e) || EndsAt(b, line, e) {
      EndsInUnion(a, b, line, e);
    }
    if Clean(a, line) {
      CutClean(a, line);
      CutSame(b, a + b, line);
    } else {
      var e := Earliest(a, line, 0);
      CutAt(a, line, e);
      CutOnceMore(a, b, line, e);
    }
  }

  lemma CutOnceMore(a: set<string>, b: set<string>, line: string, e: nat)
    requires FirstEnd(a, line, e) && e <= |line|
    requires forall f: nat :: EndsAt(a + b, line, f) <==> EndsAt(a, line, f) || EndsAt(b, line, f)
    ensures Cut(b, line[..e] + MASK) == Cut(a + b, line)
  {
    var cut := line[..e] + MASK;
    forall f: nat ensures EndsAt(b, cut, f) <==> f <= e && EndsAt(b, line, f) {
      EndsInCut(b, line, e, f);
    }
    if Clean(b, cut) {
      CutClean(b, cut);
      CutAt(a + b, line, e);
    } else {
      var f := Earliest(b, cut, 0);
      CutAt(b, cut, f);
      CutAt(a + b, line, f);
      assert cut[..f] == line[..f];
    }
  }

  lemma CutSame(a: set<string>, b: set<string>, line: string)
    requires forall e: nat :: EndsAt(a, line, e) <==> EndsAt(b, line, e)
    ensures Cut(a, line) == Cut(b, line)
  {
    if Clean(a, line) {
      CutClean(a, line);
      CutClean(b, line);
    } else {
      var e := Earliest(a, line, 0);
      CutAt(a, line, e);
      CutAt(b, line, e);
    }
  }

  // ---------- whole texts ----------

  lemma LineEndOf(a: string, b: string)
    requires '\n' !in a && (b == [] || b[0] == '\n')
    ensures LineEnd(a + b, 0) == |a|
  {
    LineEndsAt(a + b, 0, |a|);
  }

  /** Redaction depends only on the text from a position on. */
  lemma {:induction false} SameRest(keys: set<string>, s: string, p: nat, t: string, q: nat)
    requires p <= |s| && q <= |t| && s[p..] == t[q..]
    ensures RedactedFrom(keys, s, p) == RedactedFrom(keys, t, q)
    decreases |s| - p
  {
    var n, m := LineEnd(s, p), LineEnd(t, q);
    SameLine(s, p, t, q);
    if n < |s| {
      SameRest(keys, s, n + 1, t, m + 1);
    }
  }

  lemma SameLine(s: string, p: nat, t: string, q: nat)
    requires p <= |s| && q <= |t| && s[p..] == t[q..]
    ensures var n, m := LineEnd(s, p), LineEnd(t, q);
            n - p == m - q && s[p..n] == t[q..m] && (n < |s| ==> m < |t| && s[n + 1..] == t[m + 1..])
                && (n == |s| ==> m == |t|)
  {
    LineEndShifts(s, p, 0);
    LineEndShifts(t, q, 0);
    assert |s[p..]| == |t[q..]|;
    var k := LineEnd(s, p) - p;
    SameSlice(s, p, t, q, k);
    if p + k < |s| {
      SameSlice(s, p, t, q, k + 1);
    }
  }

  lemma SameSlice(s: string, p: nat, t: string, q: nat, k: nat)
    requires p <= |s| && q <= |t| && s[p..] == t[q..] && k <= |s| - p && k <= |t| - q
    ensures s[p..p + k] == t[q..q + k] && s[p + k..] == t[q + k..]
  {
    SliceOfRest(s, p, p + k);
    SliceOfRest(t, q, q + k);
  }

  lemma LineEndShifts(s: string, p: nat, from: nat)
    requires p + from <= |s|
    ensures LineEnd(s[p..], from) == LineEnd(s, p + from) - p
  {
    LineEndIs(s, p + from);
    LineEndsAt(s[p..], from, LineEnd(s, p + from) - p);
  }

  lemma SliceOfRest(s: string, p: nat, n: nat)
    requires p <= n <= |s|
    ensures s[p..][..n - p] == s[p..n] && s[p..][n - p..] == s[n..]
    ensures n < |s| ==> s[p..][n - p + 1..] == s[n + 1..]
    ensures n == |s| ==> s[p..] == s[p..n]
  {
  }

  lemma RedactedLine(keys: set<string>, line: string, rest: string)
    requires '\n' !in line
    ensures Redacted(keys, line + "\n" + rest) == Cut(keys, line) + "\n" + Redacted(keys, rest)
  {
    var s := line + "\n" + rest;
    assert s == line + ("\n" + rest);
    LineEndOf(line, "\n" + rest);
    assert s[0..|line|] == line && s[|line| + 1..] == rest == rest[0..];
    SameRest(keys, s, |line| + 1, rest, 0);
  }

  lemma RedactedLast(keys: set<string>, line: string)
    requires '\n' !in line
    ensures Redacted(keys, line) == Cut(keys, line)
  {
    LineEndsAt(line, 0, |line|);
    assert line[0..|line|] == line;
  }

  lemma {:induction false} RedactedTwiceFrom(a: set<string>, b: set<string>, s: string, p: nat)
    requires p <= |s|
    ensures Redacted(b, RedactedFrom(a, s, p)) == RedactedFrom(a + b, s, p)
    decreases |s| - p
  {
    var n := LineEnd(s, p);
    var line := s[p..n];
    LineEndIs(s, p);
    CutTwice(a, b, line);
    CutKeepsLine(a, line);
    if n == |s| {
      RedactedLast(b, Cut(a, line));
    } else {
      RedactedLine(b, Cut(a, line), RedactedFrom(a, s, n + 1));
      RedactedTwiceFrom(a, b, s, n + 1);
    }
  }

  /** Redacting for some keys and then for others is redacting for all of them. */
  lemma RedactedTwice(a: set<string>, b: set<string>, s: string)
    ensures Redacted(b, Redacted(a, s)) == Redacted(a + b, s)
  {
    RedactedTwiceFrom(a, b, s, 0);
  }

  /** Redaction is idempotent. */
  lemma Idempotent(keys: set<string>, s: string)
    ensures Redacted(keys, Redacted(keys, s)) == Redacted(keys, s)
  {
    RedactedTwice(keys, keys, s);
    assert keys + keys == keys;
  }

  lemma {:induction false} NoKeysFrom(s: string, p: nat)
    requires p <= |s|
    ensures RedactedFrom({}, s, p) == s[p..]
    decreases |s| - p
  {
    var n := LineEnd(s, p);
    LineEndIs(s, p);
    CutClean({}, s[p..n]);
    if n < |s| {
      NoKeysFrom(s, n + 1);
      assert s[p..] == s[p..n] + "\n" + s[n + 1..];
    } else {
      assert s[p..] == s[p..n];
    }
  }

  /** The mask stands at `e`, and the line ends after it. */
  predicate Masked(r: string, e: nat) {
    e + |MASK| <= |r| && r[e..e + |MASK|] == MASK && (e + |MASK| < |r| ==> r[e + |MASK|] == '\n')
  }

  lemma {:induction false} NothingLeaksFrom(keys: set<string>, s: string, p: nat)
    requires p <= |s| && forall k :: k in keys ==> '\n' !in k
    ensures forall e: nat :: EndsAt(keys, RedactedFrom(keys, s, p), e) ==> Masked(RedactedFrom(keys, s, p), e)
    decreases |s| - p
  {
    var n := LineEnd(s, p);
    var cut := Cut(keys, s[p..n]);
    forall e: nat | EndsAt(keys, cut, e) ensures Masked(cut, e) && |cut| == e + |MASK| {
      MarkersInCut(keys, s[p..n], e);
    }
    if n < |s| {
      NothingLeaksFrom(keys, s, n + 1);
      NothingLeaksAcross(keys, cut, RedactedFrom(keys, s, n + 1));
    }
  }

  /** Nothing that follows a marker survives: in redacted text each marker is followed by the mask
      and then by the end of the line. */
  lemma NothingLeaks(keys: set<string>, s: string)
    requires forall k :: k in keys ==> '\n' !in k
    ensures forall e: nat :: EndsAt(keys, Redacted(keys, s), e) ==> Masked(Redacted(keys, s), e)
  {
    NothingLeaksFrom(keys, s, 0);
  }

  lemma NothingLeaksAcross(keys: set<string>, cut: string, tail: string)
    requires forall k :: k in keys ==> '\n' !in k
    requires forall e: nat :: EndsAt(keys, cut, e) ==> Masked(cut, e) && |cut| == e + |MASK|
    requires forall e: nat :: EndsAt(keys, tail, e) ==> Masked(tail, e)
    ensures forall e: nat :: EndsAt(keys, cut + "\n" + tail, e) ==> Masked(cut + "\n" + tail, e)
  {
    var r := cut + "\n" + tail;
    forall e: nat | EndsAt(keys, r, e) ensures Masked(r, e) {
      var k :| k in keys && MarkedAt(k, r, e);
      if e <= |cut| {
        InCut(keys, cut, tail, k, e);
      } else {
        var d := |cut| + 1;
        MarkerStaysInLine(k, r, |cut|, e);
        InTail(keys, cut, tail, k, e - d);
      }
    }
  }

  lemma InCut(keys: set<string>, cut: string, tail: string, k: string, e: nat)
    requires k in keys && e <= |cut| && MarkedAt(k, cut + "\n" + tail, e)
    ensures EndsAt(keys, cut, e) && (Masked(cut, e) ==> Masked(cut + "\n" + tail, e))
  {
    var r := cut + "\n" + tail;
    MarkedInPart(k, r, 0, |cut|, e);
    assert r[0..|cut|] == cut;
    if Masked(cut, e) {
      assert r[e..e + |MASK|] == cut[e..e + |MASK|];
    }
  }

  lemma InTail(keys: set<string>, cut: string, tail: string, k: string, e: nat)
    requires k in keys && |Marker(k)| <= e <= |tail| && MarkedAt(k, cut + "\n" + tail, |cut| + 1 + e)
    ensures EndsAt(keys, tail, e) && (Masked(tail, e) ==> Masked(cut + "\n" + tail, |cut| + 1 + e))
  {
    var r := cut + "\n" + tail;
    var d := |cut| + 1;
    MarkedInPart(k, r, d, |r|, e);
    assert r[d..|r|] == tail;
    if Masked(tail, e) {
      assert r[d + e..d + e + |MASK|] == tail[e..e + |MASK|];
    }
  }

  lemma MarkersInCut(keys: set<string>, line: string, e: nat)
    requires EndsAt(keys, Cut(keys, line), e)
    ensures e <= |line| && Cut(keys, line) == line[..e] + MASK
  {
    if Clean(keys, line) {
      CutClean(keys, line);
    } else {
      var first := Earliest(keys, line, 0);
      CutAt(keys, line, first);
      EndsInCut(keys, line, first, e);
    }
  }

  /** A marker has no newline, so one that ends beyond a newline starts beyond it. */
  lemma MarkerStaysInLine(key: string, s: string, n: nat, e: nat)
    requires n < e <= |s| && s[n] == '\n' && '\n' !in key && MarkedAt(key, s, e)
    ensures e - |Marker(key)| > n
  {
    var from := e - |Marker(key)|;
    forall j | from <= j < e ensures s[j] != '\n' {
      assert s[j] == s[from..e][j - from];
    }
  }

  // ---------- the code ----------

  /** Where the key's marker first ends, from strings.Index. */
  method Index(s: string, key: string) returns (end: Option<nat>)
    ensures end.Some? ==> MarkedAt(key, s, end.value) && forall e :: 0 <= e < end.value ==> !MarkedAt(key, s, e)
    ensures end.None? ==> forall e :: 0 <= e <= |s| ==> !MarkedAt(key, s, e)
  {
    var m := Marker(key);
    var k := 0;
    while k + |m| <= |s|
      invariant forall e :: 0 <= e < k + |m| ==> !MarkedAt(key, s, e)
    {
      if s[k..k + |m|] == m {
        return Some(k + |m|);
      }
      k := k + 1;
    }
    return None;
  }

  /** The first marker at or after position `p` ends at `e`. */
  ghost predicate FirstFrom(key: string, s: string, p: nat, e: nat) {
    && p + |Marker(key)| <= e && MarkedAt(key, s, e)
    && forall f :: p + |Marker(key)| <= f < e ==> !MarkedAt(key, s, f)
  }

  /** Up to its first marker a text is kept, the rest of that line becomes the mask, and the
      remaining lines are redacted on their own. */
  lemma {:induction false} FirstMarker(key: string, s: string, p: nat, e: nat)
    requires '\n' !in key && FirstFrom(key, s, p, e)
    ensures RedactedFrom({key}, s, p) == s[p..e] + MASK + RedactedFrom({key}, s, LineEnd(s, e))
    decreases |s| - p
  {
    var n := LineEnd(s, p);
    LineEndIs(s, p);
    if n < e {
      MarkerStaysInLine(key, s, n, e);
      CleanLine(key, s, p, n, e);
      FirstMarker(key, s, n + 1, e);
      Glue(s, p, n, e, RedactedFrom({key}, s, LineEnd(s, e)));
    } else {
      LineEndsAt(s, e, n);
      CutAtMarker(key, s, p, n, e);
      FromLineEnd(key, s, n);
      if n < |s| {
        Assoc(s[p..e] + MASK, "\n", RedactedFrom({key}, s, n + 1));
      } else {
        Unit(s[p..e] + MASK);
      }
    }
  }

  lemma Glue(s: string, p: nat, n: nat, e: nat, x: string)
    requires p <= n < e <= |s| && s[n] == '\n'
    ensures s[p..n] + "\n" + (s[n + 1..e] + MASK + x) == s[p..e] + MASK + x
  {
    assert s[p..n] + "\n" + s[n + 1..e] == s[p..e];
  }

  lemma Assoc(a: string, b: string, c: string)
    ensures a + b + c == a + (b + c)
  {
  }

  lemma Unit(a: string)
    ensures a + "" == a
  {
  }

  /** At the end of a line there is its newline, if any, and then the next line. */
  lemma FromLineEnd(key: string, s: string, n: nat)
    requires n <= |s| && (n < |s| ==> s[n] == '\n')
    ensures RedactedFrom({key}, s, n) == if n == |s| then "" else "\n" + RedactedFrom({key}, s, n + 1)
  {
    assert s[n..n] == "" && Clean({key}, "");
    CutClean({key}, "");
    LineEndsAt(s, n, n);
  }

  /** A line before the first marker is clean. */
  lemma CleanLine(key: string, s: string, p: nat, n: nat, e: nat)
    requires FirstFrom(key, s, p, e) && p <= n < e
    ensures Cut({key}, s[p..n]) == s[p..n]
  {
    forall f | 0 <= f <= n - p ensures !EndsAt({key}, s[p..n], f) {
      MarkedInPart(key, s, p, n, f);
    }
    CutClean({key}, s[p..n]);
  }

  lemma CutAtMarker(key: string, s: string, p: nat, n: nat, e: nat)
    requires FirstFrom(key, s, p, e) && e <= n <= |s|
    ensures Cut({key}, s[p..n]) == s[p..e] + MASK
  {
    var line := s[p..n];
    forall f | 0 <= f <= e - p ensures EndsAt({key}, line, f) <==> f == e - p {
      MarkedInPart(key, s, p, n, f);
    }
    CutAt({key}, line, e - p);
    assert line[..e - p] == s[p..e];
  }

  lemma {:induction false} NoMarker(key: string, s: string, p: nat)
    requires p <= |s| && forall f :: p + |Marker(key)| <= f <= |s| ==> !MarkedAt(key, s, f)
    ensures RedactedFrom({key}, s, p) == s[p..]
    decreases |s| - p
  {
    var n := LineEnd(s, p);
    forall f | 0 <= f <= n - p ensures !EndsAt({key}, s[p..n], f) {
      MarkedInPart(key, s, p, n, f);
    }
    CutClean({key}, s[p..n]);
    LineEndIs(s, p);
    if n < |s| {
      NoMarker(key, s, n + 1);
      assert s[p..] == s[p..n] + "\n" + s[n + 1..];
    } else {
      assert s[p..] == s[p..n];
    }
  }

  /** What strings.Index finds in the rest of the text is the first marker from there on. */
  lemma IndexInRest(key: string, s: string, p: nat, end: Option<nat>)
    requires p <= |s|
    requires end.Some? ==>
               MarkedAt(key, s[p..], end.value) && forall f :: 0 <= f < end.value ==> !MarkedAt(key, s[p..], f)
    requires end.None? ==> forall f :: 0 <= f <= |s| - p ==> !MarkedAt(key, s[p..], f)
    ensures end.Some? ==> FirstFrom(key, s, p, p + end.value)
    ensures end.None? ==> forall f :: p + |Marker(key)| <= f <= |s| ==> !MarkedAt(key, s, f)
  {
    assert s[p..] == s[p..|s|];
    forall f | p + |Marker(key)| <= f <= |s| ensures MarkedAt(key, s, f) <==> MarkedAt(key, s[p..], f - p) {
      MarkedInPart(key, s, p, |s|, f - p);
    }
  }

  /** The inner loop: one key, left to right. */
  method Scrub(s: string, key: string) returns (b: string)
    requires '\n' !in key
    ensures b == Redacted({key}, s)
  {
    b := "";
    var rest := s;
    ghost var p, whole := 0, Redacted({key}, s);
    while true
      invariant Upto(key, s, p, b, rest, whole)
      decreases |rest|
    {
      var end := Index(rest, key);
      IndexInRest(key, s, p, end);
      if end.None? {
        NoMarker(key, s, p);
        b := b + rest;
        break;
      }
      b, rest, p := Mask(key, b, rest, end.value, s, p, whole);
    }
  }

  /** The body of the loop once a marker was found that ends at `end`: the rest of its line is masked. */
  method Mask(key: string, b: string, rest: string, end: nat, ghost s: string, ghost p: nat, ghost whole: string)
    returns (b': string, rest': string, ghost p': nat)
    requires '\n' !in key && Upto(key, s, p, b, rest, whole) && FirstFrom(key, s, p, p + end)
    requires |Marker(key)| <= end <= |rest|
    ensures Upto(key, s, p', b', rest', whole) && |rest'| < |rest|
  {
    var i, next := end - |Marker(key)|, LineEnd(rest, end);
    b' := b + rest[..i] + Marker(key) + MASK;
    rest' := rest[next..];
    p' := p + next;
    Replaced(key, s, p, b, rest, i, next, b', rest', whole);
  }

  /** The text before `p` has been redacted into `b`; `whole` is what all of it becomes. */
  ghost predicate Upto(key: string, s: string, p: nat, b: string, rest: string, whole: string) {
    p <= |s| && rest == s[p..] && b + RedactedFrom({key}, s, p) == whole
  }

  /** One round of the loop. */
  lemma Replaced(key: string, s: string, p: nat, b: string, rest: string, i: nat, next: nat, b': string,
                 rest': string, whole: string)
    requires '\n' !in key && Upto(key, s, p, b, rest, whole) && FirstFrom(key, s, p, p + i + |Marker(key)|)
    requires i + |Marker(key)| <= |rest| && next == LineEnd(rest, i + |Marker(key)|) && next <= |rest|
    requires b' == b + rest[..i] + Marker(key) + MASK && rest' == rest[next..]
    ensures Upto(key, s, p + next, b', rest', whole)
  {
    MaskedRound(key, s, p, b, rest, i, next);
    SliceOfRest(s, p, p + next);
  }

  lemma MaskedRound(key: string, s: string, p: nat, b: string, rest: string, i: nat, next: nat)
    requires '\n' !in key && p <= |s| && rest == s[p..] && FirstFrom(key, s, p, p + i + |Marker(key)|)
    requires i + |Marker(key)| <= |rest| && next == LineEnd(rest, i + |Marker(key)|)
    ensures p + next <= |s|
    ensures b + RedactedFrom({key}, s, p)
         == (b + rest[..i] + Marker(key) + MASK) + RedactedFrom({key}, s, p + next)
  {
    var e := p + i + |Marker(key)|;
    LineEndShifts(s, p, i + |Marker(key)|);
    CutRound(key, s, p, b, i, e);
  }

  lemma CutRound(key: string, s: string, p: nat, b: string, i: nat, e: nat)
    requires '\n' !in key && p <= |s| && e == p + i + |Marker(key)| && FirstFrom(key, s, p, e)
    ensures b + RedactedFrom({key}, s, p)
         == (b + s[p..][..i] + Marker(key) + MASK) + RedactedFrom({key}, s, LineEnd(s, e))
  {
    FirstMarker(key, s, p, e);
    MarkerLast(key, s, p, i);
    Regroup(b, RedactedFrom({key}, s, p), s[p..e], s[p..][..i], Marker(key), RedactedFrom({key}, s, LineEnd(s, e)));
  }

  lemma MarkerLast(key: string, s: string, p: nat, i: nat)
    requires p <= |s| && MarkedAt(key, s, p + i + |Marker(key)|)
    ensures s[p..p + i + |Marker(key)|] == s[p..][..i] + Marker(key)
  {
    assert s[p..p + i + |Marker(key)|] == s[p..p + i] + s[p + i..p + i + |Marker(key)|];
    assert s[p..][..i] == s[p..p + i];
  }

  lemma Regroup(b: string, text: string, kept: string, before: string, m: string, tail: string)
    requires text == kept + MASK + tail && kept == before + m
    ensures b + text == (b + before + m + MASK) + tail
  {
  }

  ghost function Elements(keys: seq<string>): set<string> {
    set k | k in keys
  }

  /** redactSecrets for a list of keys: on every input it computes the line-wise specification. */
  method RedactKeys(s: string, keys: seq<string>) returns (r: string)
    requires forall k :: k in keys ==> '\n' !in k
    ensures r == Redacted(Elements(keys), s)
  {
    r := s;
    NoKeysFrom(s, 0);
    assert Elements(keys[..0]) == {};
    for n := 0 to |keys|
      invariant r == Redacted(Elements(keys[..n]), s)
    {
      OneMoreKey(keys, n, s);
      r := Scrub(r, keys[n]);
    }
    assert keys[..|keys|] == keys;
  }

  lemma OneMoreKey(keys: seq<string>, n: nat, s: string)
    requires n < |keys|
    ensures Redacted({keys[n]}, Redacted(Elements(keys[..n]), s)) == Redacted(Elements(keys[..n + 1]), s)
  {
    RedactedTwice(Elements(keys[..n]), {keys[n]}, s);
    assert keys[..n + 1] == keys[..n] + [keys[n]];
    assert Elements(keys[..n + 1]) == Elements(keys[..n]) + {keys[n]};
  }

  /** The two copies of redactSecrets agree on every input, whatever order their keys come in. */
  method RedactBoth(s: string) returns (provision: string, backup: string)
    ensures provision == backup == Redacted(Elements(PROVISION_KEYS), s)
  {
    provision := RedactKeys(s, PROVISION_KEYS);
    backup := RedactKeys(s, BACKUP_KEYS);
    assert Elements(PROVISION_KEYS) == Elements(BACKUP_KEYS);
  }
}
