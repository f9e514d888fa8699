// Transcript similarity of deploy/roundtrip_verify.py: a rolling-row dynamic
// program that must measure a longest common subsequence.
module LcsSimilarity {
  import opened Prelude

  // White space and punctuation that a transcript may differ in.
  const DROPPED := " \t\r\n\U{3002}\U{FF0C}\U{3001}\U{FF01}\U{FF1F}\U{FF1B}\U{FF1A},.!?;:\"'()[]{}<>\U{300A}\U{300B}\U{201C}\U{201D}\U{2018}\U{2019}"

  // lower is str.lower on one character, which may yield several.
  function Normalize(text: string, lower: char -> string): string {
    if text == "" then ""
    else (if text[0] in DROPPED then "" else lower(text[0])) + Normalize(text[1..], lower)
  }

  // ── what a longest common subsequence is ─────────────────────────

  // at lists positions of t, in increasing order, that spell c.
  predicate Embeds(c: string, t: string, at: seq<nat>) {
    && |at| == |c|
    && (forall i :: 0 <= i < |at| ==> at[i] < |t| && t[at[i]] == c[i])
    && (forall i, j :: 0 <= i < j < |at| ==> at[i] < at[j])
  }

  ghost predicate Subsequence(c: string, t: string) {
    exists at :: Embeds(c, t, at)
  }

  ghost predicate Common(c: string, a: string, b: string) {
    Subsequence(c, a) && Subsequence(c, b)
  }

  // ── the recurrence ───────────────────────────────────────────────

  function Lcs(a: string, b: string): nat
    decreases |a| + |b|
  {
    if a == "" || b == "" then 0
    else if a[|a| - 1] == b[|b| - 1] then Lcs(a[..|a| - 1], b[..|b| - 1]) + 1
    else
      var drop, skip := Lcs(a[..|a| - 1], b), Lcs(a, b[..|b| - 1]);
      if drop > skip then drop else skip
  }

  lemma EmbedsLonger(c: string, t: string, x: char, at: seq<nat>)
    requires Embeds(c, t, at)
    ensures Embeds(c, t + [x], at)
    ensures Embeds(c + [x], t + [x], at + [|t|])
  {
  }

  // There is a common subsequence of that length ...
  lemma {:induction false} LcsAchieved(a: string, b: string) returns (c: string, f: seq<nat>, g: seq<nat>)
    ensures |c| == Lcs(a, b) && Embeds(c, a, f) && Embeds(c, b, g)
    decreases |a| + |b|
  {
    if a == "" || b == "" {
      c, f, g := "", [], [];
    } else {
      var a', b' := a[..|a| - 1], b[..|b| - 1];
      assert a == a' + [a[|a| - 1]] && b == b' + [b[|b| - 1]];
      if a[|a| - 1] == b[|b| - 1] {
        var c', f', g' := LcsAchieved(a', b');
        EmbedsLonger(c', a', a[|a| - 1], f');
        EmbedsLonger(c', b', b[|b| - 1], g');
        c, f, g := c' + [a[|a| - 1]], f' + [|a'|], g' + [|b'|];
      } else if Lcs(a', b) > Lcs(a, b') {
        c, f, g := LcsAchieved(a', b);
        EmbedsLonger(c, a', a[|a| - 1], f);
      } else {
        c, f, g := LcsAchieved(a, b');
        EmbedsLonger(c, b', b[|b| - 1], g);
      }
    }
  }

  lemma EmbedsShorter(c: string, t: string, at: seq<nat>)
    requires c != "" && Embeds(c, t, at)
    ensures t != ""
    ensures Embeds(c[..|c| - 1], t[..|t| - 1], at[..|at| - 1])
    ensures at[|at| - 1] < |t| - 1 ==> Embeds(c, t[..|t| - 1], at)
  {
    var last := |at| - 1;
    assert at[last] < |t|;
    forall i | 0 <= i < last ensures at[i] < |t| - 1 {
      assert at[i] < at[last];
    }
    if at[last] < |t| - 1 {
      assert forall i :: 0 <= i <= last ==> at[i] < |t| - 1;
    }
  }

  // ... and none is longer.
  lemma {:induction false} LcsOptimal(a: string, b: string, c: string, f: seq<nat>, g: seq<nat>)
    requires Embeds(c, a, f) && Embeds(c, b, g)
    ensures |c| <= Lcs(a, b)
    decreases |a| + |b|
  {
    if c != "" {
      EmbedsShorter(c, a, f);
      EmbedsShorter(c, b, g);
      var m := |c| - 1;
      var a', b' := a[..|a| - 1], b[..|b| - 1];
      if a[|a| - 1] == b[|b| - 1] {
        LcsOptimal(a', b', c[..m], f[..m], g[..m]);
      } else if f[m] < |a| - 1 {
        LcsOptimal(a', b, c, f, g);
      } else {
        assert a[f[m]] == c[m] == b[g[m]];
        LcsOptimal(a, b', c, f, g);
      }
    }
  }

  // Some common subsequence has this length, and none is longer.
  ghost predicate LongestCommon(n: nat, a: string, b: string) {
    (exists c :: Common(c, a, b) && |c| == n) && (forall c :: Common(c, a, b) ==> |c| <= n)
  }

  lemma LcsIsLongest(a: string, b: string, n: nat)
    ensures n == Lcs(a, b) <==> LongestCommon(n, a, b)
  {
    var c, f, g := LcsAchieved(a, b);
    assert Common(c, a, b);
    forall d | Common(d, a, b) ensures |d| <= Lcs(a, b) {
      var f' :| Embeds(d, a, f');
      var g' :| Embeds(d, b, g');
      LcsOptimal(a, b, d, f', g');
    }
  }

  // ── the rolling row ──────────────────────────────────────────────

  lemma LastOfPrefix(s: string, n: nat)
    requires n < |s|
    ensures s[..n + 1][..n] == s[..n] && s[..n + 1][n] == s[n]
  {
  }

  lemma Cell(a: string, b: string, i: nat, j: nat)
    requires i < |a| && j < |b|
    ensures Lcs(a[..i + 1], b[..j + 1]) ==
            if a[i] == b[j] then Lcs(a[..i], b[..j]) + 1
            else Max(Lcs(a[..i], b[..j + 1]), Lcs(a[..i + 1], b[..j]))
  {
    LastOfPrefix(a, i);
    LastOfPrefix(b, j);
  }

  method LcsLength(a: string, b: string) returns (length: nat)
    requires a != "" && b != ""
    ensures length == Lcs(a, b)
  {
    var prev := new int[|b| + 1](_ => 0);
    for i := 0 to |a|
      invariant prev.Length == |b| + 1
      invariant forall j :: 0 <= j <= |b| ==> prev[j] == Lcs(a[..i], b[..j])
    {
      var cur := new int[|b| + 1](_ => 0);
      for j := 1 to |b| + 1
        invariant prev.Length == |b| + 1
        invariant forall k :: 0 <= k <= |b| ==> prev[k] == Lcs(a[..i], b[..k])
        invariant forall k :: 0 <= k < j ==> cur[k] == Lcs(a[..i + 1], b[..k])
      {
        Cell(a, b, i, j - 1);
        cur[j] := if a[i] == b[j - 1] then prev[j - 1] + 1 else Max(prev[j], cur[j - 1]);
      }
      prev := cur;
    }
    assert a[..|a|] == a && b[..|b|] == b;
    length := prev[|b|];
  }

  // ── similarity ───────────────────────────────────────────────────

  function Similarity(a: string, b: string): real {
    if a == "" && b == "" then 1.0
    else if a == "" || b == "" then 0.0
    else Lcs(a, b) as real / Max(|a|, |b|) as real
  }

  // The score, from the texts alone: the share of the longer text that a
  // longest common subsequence covers.
  ghost predicate Scores(score: real, a: string, b: string) {
    if a == "" && b == "" then score == 1.0
    else if a == "" || b == "" then score == 0.0
    else exists n: nat :: LongestCommon(n, a, b) && Covered(score, n, Max(|a|, |b|))
  }

  predicate Covered(score: real, n: nat, length: nat) {
    score * length as real == n as real
  }

  lemma SimilarityScores(a: string, b: string)
    ensures Scores(Similarity(a, b), a, b)
  {
    if a != "" && b != "" {
      LcsIsLongest(a, b, Lcs(a, b));
      ShareCovered(Lcs(a, b), Max(|a|, |b|));
    }
  }

  lemma ShareCovered(n: nat, m: nat)
    requires m > 0
    ensures Covered(n as real / m as real, n, m)
  {
  }

  method LcsSimilarity(left: string, right: string, lower: char -> string) returns (score: real)
    ensures Scores(score, Normalize(left, lower), Normalize(right, lower))
    ensures score == Similarity(Normalize(left, lower), Normalize(right, lower))
  {
    SimilarityScores(Normalize(left, lower), Normalize(right, lower));
    var a, b := Normalize(left, lower), Normalize(right, lower);
    if a == "" && b == "" {
      return 1.0;
    }
    if a == "" || b == "" {
      return 0.0;
    }
    var length := LcsLength(a, b);
    score := length as real / Max(|a|, |b|) as real;
  }

  lemma {:induction false} LcsSymmetric(a: string, b: string)
    ensures Lcs(a, b) == Lcs(b, a)
    decreases |a| + |b|
  {
    if a != "" && b != "" {
      LcsSymmetric(a[..|a| - 1], b[..|b| - 1]);
      LcsSymmetric(a[..|a| - 1], b);
      LcsSymmetric(a, b[..|b| - 1]);
    }
  }

  lemma {:induction false} EmbedsAtLeast(c: string, t: string, at: seq<nat>, i: nat)
    requires Embeds(c, t, at) && i < |at|
    ensures i <= at[i] <= |t| - (|at| - i)
    decreases |at| - i
  {
    if i + 1 < |at| {
      EmbedsAtLeast(c, t, at, i + 1);
    }
    EmbedsFromStart(c, t, at, i);
  }

  lemma {:induction false} EmbedsFromStart(c: string, t: string, at: seq<nat>, i: nat)
    requires Embeds(c, t, at) && i < |at|
    ensures i <= at[i]
  {
    if i > 0 {
      EmbedsFromStart(c, t, at, i - 1);
    }
  }

  // A subsequence is no longer than the text, and as long only if it is the text.
  lemma EmbedsBound(c: string, t: string, at: seq<nat>)
    requires Embeds(c, t, at)
    ensures |c| <= |t|
    ensures |c| == |t| ==> c == t
  {
    if c != "" {
      EmbedsAtLeast(c, t, at, 0);
      forall i | 0 <= i < |c| && |c| == |t| ensures c[i] == t[i] {
        EmbedsAtLeast(c, t, at, i);
      }
    }
  }

  lemma {:induction false} LcsSelf(a: string)
    ensures Lcs(a, a) == |a|
  {
    if a != "" {
      LcsSelf(a[..|a| - 1]);
    }
  }

  lemma LcsBound(a: string, b: string)
    ensures Lcs(a, b) <= |a| && Lcs(a, b) <= |b|
    ensures Lcs(a, b) == Max(|a|, |b|) <==> a == b
  {
    var c, f, g := LcsAchieved(a, b);
    EmbedsBound(c, a, f);
    EmbedsBound(c, b, g);
    LcsSelf(a);
  }

  lemma RatioBounds(n: nat, m: nat)
    requires n <= m && m > 0
    ensures 0.0 <= n as real / m as real <= 1.0
    ensures n as real / m as real == 1.0 <==> n == m
  {
    var q := n as real / m as real;
    assert q * m as real == n as real;
    assert (q - 1.0) * m as real == n as real - m as real;
    assert (0.0 - q) * m as real == 0.0 - n as real;
    SignOfProduct(q - 1.0, m as real);
    SignOfProduct(1.0 - q, m as real);
    SignOfProduct(0.0 - q, m as real);
  }

  lemma SignOfProduct(x: real, m: real)
    requires m > 0.0
    ensures x * m > 0.0 <==> x > 0.0
    ensures (0.0 - x) * m == 0.0 - x * m
  {
  }

  // The score is a similarity: between 0 and 1, symmetric, and 1 exactly when
  // the normalised texts are equal.
  lemma SimilarityLaws(a: string, b: string)
    ensures 0.0 <= Similarity(a, b) <= 1.0
    ensures Similarity(a, b) == Similarity(b, a)
    ensures Similarity(a, b) == 1.0 <==> a == b
  {
    LcsSymmetric(a, b);
    LcsBound(a, b);
    if a != "" && b != "" {
      RatioBounds(Lcs(a, b), Max(|a|, |b|));
    }
  }

  lemma {:induction false} NormalizeConcat(s: string, t: string, lower: char -> string)
    ensures Normalize(s + t, lower) == Normalize(s, lower) + Normalize(t, lower)
  {
    if s == "" {
      assert s + t == t;
    } else {
      assert (s + t)[1..] == s[1..] + t;
      NormalizeConcat(s[1..], t, lower);
    }
  }

  // A text is normalised character by character: punctuation and white space
  // vanish, and every other character becomes its lower case.
  lemma NormalizeChar(x: char, lower: char -> string)
    ensures Normalize([x], lower) == if x in DROPPED then "" else lower(x)
  {
    assert [x][1..] == "";
    assert Normalize([x], lower) == (if x in DROPPED then "" else lower(x)) + Normalize("", lower);
  }

  lemma DroppedAlone(x: char, lower: char -> string)
    requires x in DROPPED
    ensures Normalize([x], lower) == ""
  {
    assert [x][1..] == "";
  }

  // Dropped characters never affect the score: inserting one changes nothing.
  lemma PunctuationIsFree(s: string, x: char, t: string, lower: char -> string)
    requires x in DROPPED
    ensures Normalize(s + [x] + t, lower) == Normalize(s + t, lower)
  {
    NormalizeConcat(s + [x], t, lower);
    NormalizeConcat(s, [x], lower);
    NormalizeConcat(s, t, lower);
    DroppedAlone(x, lower);
  }
}
