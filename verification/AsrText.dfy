// Joining the segment texts of one spoken utterance
// (agent/ovs_agent/app_base.py, _join_asr_segment_text).
//
// A speech backend may cut one utterance into several finals. The agent joins
// them again, putting a space only between two ASCII words. The join has to be
// associative, because segments arrive one at a time, and it must neither fuse
// nor split a word.
module AsrText {

  // The characters str.strip() removes.
  predicate IsSpace(c: char) {
    var n := c as int;
    0x09 <= n <= 0x0D || 0x1C <= n <= 0x20 || n == 0x85 || n == 0xA0 || n == 0x1680 ||
    0x2000 <= n <= 0x200A || n == 0x2028 || n == 0x2029 || n == 0x202F || n == 0x205F || n == 0x3000
  }

  predicate IsWordChar(c: char) {
    'a' <= c <= 'z' || 'A' <= c <= 'Z' || '0' <= c <= '9' || c == '_'
  }

  function TrimLeft(s: string): (t: string)
    ensures |t| <= |s|
  {
    if s != "" && IsSpace(s[0]) then TrimLeft(s[1..]) else s
  }

  function TrimRight(s: string): (t: string)
    ensures |t| <= |s|
  {
    if s != "" && IsSpace(s[|s| - 1]) then TrimRight(s[..|s| - 1]) else s
  }

  function Strip(s: string): string {
    TrimRight(TrimLeft(s))
  }

  // Concatenate two stripped texts with a space at the seam when both sides
  // meet in an ASCII word character.
  function Glue(left: string, right: string): string {
    if left == "" then right
    else if right == "" then left
    else if IsWordChar(left[|left| - 1]) && IsWordChar(right[0]) then left + " " + right
    else left + right
  }

  function Join(left: string, right: string): string {
    Glue(Strip(left), Strip(right))
  }

  // The join of a whole list of segments, bracketed to the right.
  function JoinAll(segments: seq<string>): string {
    if segments == [] then "" else Join(segments[0], JoinAll(segments[1..]))
  }

  // ── stripping ────────────────────────────────────────────────────

  // No white space at either end.
  predicate Stripped(s: string) {
    s != "" ==> !IsSpace(s[0]) && !IsSpace(s[|s| - 1])
  }

  predicate AllSpace(s: string) {
    forall i :: 0 <= i < |s| ==> IsSpace(s[i])
  }

  lemma {:induction false} TrimLeftDrops(s: string) returns (pre: string)
    ensures s == pre + TrimLeft(s) && AllSpace(pre)
    ensures TrimLeft(s) != "" ==> !IsSpace(TrimLeft(s)[0])
  {
    if s != "" && IsSpace(s[0]) {
      var p := TrimLeftDrops(s[1..]);
      pre := [s[0]] + p;
    } else {
      pre := "";
    }
  }

  lemma {:induction false} TrimRightDrops(s: string) returns (post: string)
    ensures s == TrimRight(s) + post && AllSpace(post)
    ensures TrimRight(s) != "" ==> !IsSpace(TrimRight(s)[|TrimRight(s)| - 1])
  {
    if s != "" && IsSpace(s[|s| - 1]) {
      var p := TrimRightDrops(s[..|s| - 1]);
      post := p + [s[|s| - 1]];
    } else {
      post := "";
    }
  }

  // Strip removes exactly an outer margin of white space.
  lemma StripDrops(s: string) returns (pre: string, post: string)
    ensures s == pre + Strip(s) + post && AllSpace(pre) && AllSpace(post)
    ensures Stripped(Strip(s))
  {
    pre := TrimLeftDrops(s);
    post := TrimRightDrops(TrimLeft(s));
    var t := TrimLeft(s);
    assert Strip(s) != "" ==> Strip(s)[0] == t[0];
  }

  lemma StripFixed(s: string)
    requires Stripped(s)
    ensures Strip(s) == s
  {
  }

  lemma GlueStripped(l: string, r: string)
    requires Stripped(l) && Stripped(r)
    ensures Stripped(Glue(l, r))
  {
  }

  lemma JoinStripped(l: string, r: string)
    ensures Stripped(Join(l, r))
  {
    var _, _ := StripDrops(l);
    var _, _ := StripDrops(r);
    GlueStripped(Strip(l), Strip(r));
  }

  // ── associativity ────────────────────────────────────────────────

  function Seam(l: char, r: char): string {
    if IsWordChar(l) && IsWordChar(r) then " " else ""
  }

  lemma GlueSeam(l: string, r: string)
    requires l != "" && r != ""
    ensures Glue(l, r) == l + Seam(l[|l| - 1], r[0]) + r
    ensures Glue(l, r) != "" && Glue(l, r)[0] == l[0] && Glue(l, r)[|Glue(l, r)| - 1] == r[|r| - 1]
  {
    assert l + "" == l;
  }

  lemma Reassociate(a: string, s: string, b: string, t: string, c: string)
    ensures (a + s + b) + t + c == a + s + (b + t + c)
  {
  }

  lemma GlueAssociative(a: string, b: string, c: string)
    ensures Glue(Glue(a, b), c) == Glue(a, Glue(b, c))
  {
    if a != "" && b != "" && c != "" {
      GlueSeam(a, b);
      GlueSeam(b, c);
      GlueSeam(Glue(a, b), c);
      GlueSeam(a, Glue(b, c));
      Reassociate(a, Seam(a[|a| - 1], b[0]), b, Seam(b[|b| - 1], c[0]), c);
    }
  }

  // Exactly what a join is: both sides stripped, and between them a space if
  // and only if neither is empty and they meet in two ASCII word characters.
  lemma JoinExactly(l: string, r: string)
    ensures var a, b := Strip(l), Strip(r);
            Join(l, r) == a + (if a != "" && b != "" && IsWordChar(a[|a| - 1]) && IsWordChar(b[0]) then " " else "") + b
  {
    var a, b := Strip(l), Strip(r);
    assert a + "" == a && a + "" + b == a + b && "" + b == b;
  }

  // Segments may be joined in any grouping.
  lemma JoinAssociative(a: string, b: string, c: string)
    ensures Join(Join(a, b), c) == Join(a, Join(b, c))
  {
    JoinStripped(a, b);
    JoinStripped(b, c);
    StripFixed(Join(a, b));
    StripFixed(Join(b, c));
    GlueAssociative(Strip(a), Strip(b), Strip(c));
  }

  // Appending one more segment on the right, as the agent does, keeps the
  // buffer equal to the join of everything heard so far.
  lemma {:induction false} JoinAllAppend(segments: seq<string>, last: string)
    ensures JoinAll(segments + [last]) == Join(JoinAll(segments), last)
  {
    if segments == [] {
      assert segments + [last] == [last];
      var _, _ := StripDrops(last);
      assert JoinAll([last]) == Join(last, JoinAll([]));
    } else {
      assert (segments + [last])[1..] == segments[1..] + [last];
      JoinAllAppend(segments[1..], last);
      JoinAssociative(segments[0], JoinAll(segments[1..]), last);
    }
  }

  lemma {:induction false} JoinAllStripped(segments: seq<string>)
    ensures Stripped(JoinAll(segments))
  {
    if segments != [] {
      JoinStripped(segments[0], JoinAll(segments[1..]));
    }
  }

  // ── words ────────────────────────────────────────────────────────

  // The maximal runs of ASCII word characters of open + s, where open is the
  // run in progress.
  function WordsFrom(open: string, s: string): seq<string>
    decreases |s|
  {
    var flushed := if open == "" then [] else [open];
    if s == "" then flushed
    else if IsWordChar(s[0]) then WordsFrom(open + [s[0]], s[1..])
    else flushed + WordsFrom("", s[1..])
  }

  function Words(s: string): seq<string> {
    WordsFrom("", s)
  }

  // A text may be cut wherever no word straddles the cut.
  lemma {:induction false} WordsSplit(open: string, s: string, t: string)
    requires t != "" && IsWordChar(t[0]) ==>
               if s == "" then open == "" else !IsWordChar(s[|s| - 1])
    ensures WordsFrom(open, s + t) == WordsFrom(open, s) + Words(t)
    decreases |s|
  {
    if s == "" {
      assert s + t == t;
    } else {
      assert (s + t)[1..] == s[1..] + t;
      if IsWordChar(s[0]) {
        WordsSplit(open + [s[0]], s[1..], t);
      } else {
        WordsSplit("", s[1..], t);
      }
    }
  }

  lemma {:induction false} NoWordsInSpace(s: string)
    requires AllSpace(s)
    ensures Words(s) == []
  {
    if s != "" {
      NoWordsInSpace(s[1..]);
    }
  }

  lemma WordsStrip(s: string)
    ensures Words(Strip(s)) == Words(s)
  {
    var pre, post := StripDrops(s);
    NoWordsInSpace(pre);
    NoWordsInSpace(post);
    WordsSplit("", Strip(s), post);
    WordsSplit("", pre, Strip(s) + post);
    assert pre + (Strip(s) + post) == s;
  }

  // The join neither fuses nor splits a word: its ASCII words are those of the
  // left text followed by those of the right text.
  lemma JoinWords(l: string, r: string)
    ensures Words(Join(l, r)) == Words(l) + Words(r)
  {
    WordsStrip(l);
    WordsStrip(r);
    var a, b := Strip(l), Strip(r);
    if a != "" && b != "" {
      if IsWordChar(a[|a| - 1]) && IsWordChar(b[0]) {
        WordsSplit("", a + " ", b);
        NoWordsInSpace(" ");
        WordsSplit("", a, " ");
      } else {
        WordsSplit("", a, b);
      }
    }
  }

  function AllWords(segments: seq<string>): seq<string> {
    if segments == [] then [] else Words(segments[0]) + AllWords(segments[1..])
  }

  // Over any number of segments, every word survives in arrival order.
  lemma {:induction false} JoinAllWords(segments: seq<string>)
    ensures Words(JoinAll(segments)) == AllWords(segments)
  {
    if segments != [] {
      JoinWords(segments[0], JoinAll(segments[1..]));
      JoinAllWords(segments[1..]);
    }
  }

  // ── nothing but white space is added or lost ─────────────────────

  function Visible(s: string): string {
    if s == "" then "" else (if IsSpace(s[0]) then "" else [s[0]]) + Visible(s[1..])
  }

  lemma {:induction false} VisibleConcat(s: string, t: string)
    ensures Visible(s + t) == Visible(s) + Visible(t)
  {
    if s == "" {
      assert s + t == t;
    } else {
      assert (s + t)[1..] == s[1..] + t;
      VisibleConcat(s[1..], t);
    }
  }

  lemma {:induction false} VisibleSpace(s: string)
    requires AllSpace(s)
    ensures Visible(s) == ""
  {
    if s != "" {
      VisibleSpace(s[1..]);
    }
  }

  lemma VisibleStrip(s: string)
    ensures Visible(Strip(s)) == Visible(s)
  {
    var pre, post := StripDrops(s);
    VisibleSpace(pre);
    VisibleSpace(post);
    VisibleConcat(pre + Strip(s), post);
    VisibleConcat(pre, Strip(s));
  }

  // Every character that is not white space comes through, in order.
  lemma JoinKeepsText(l: string, r: string)
    ensures Visible(Join(l, r)) == Visible(l) + Visible(r)
  {
    VisibleStrip(l);
    VisibleStrip(r);
    var a, b := Strip(l), Strip(r);
    VisibleConcat(a, b);
    VisibleConcat(a + " ", b);
    VisibleConcat(a, " ");
    VisibleSpace(" ");
  }
}
