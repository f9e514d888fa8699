// The archive depends on paths, contents and executable bits only, and neither
// it nor the error depends on the order in which directories are listed
// (scripts/package_edgellm_v010_artifact.py).
module Reproducible {
  import opened Prelude
  import opened Listing
  import opened Packaging
  import opened PayloadArchive

  // What counts of a node: its kind, and a file's bytes and executable bit.
  function Plain(n: Node): Node {
    match n
    case File(data, mode) => File(data, if Executable(mode) then 0x1ed else 0x1a4)
    case Dir(_) => Dir([])
    case _ => n
  }

  function Fact(e: Entry): Entry {
    Entry(e.name, Plain(e.node))
  }

  function Facts(s: seq<Entry>): (r: seq<Entry>)
    ensures |r| == |s| && forall i :: 0 <= i < |s| ==> r[i] == Fact(s[i])
  {
    seq(|s|, i requires 0 <= i < |s| => Fact(s[i]))
  }

  ghost predicate SameElementsAs(a: seq<Entry>, b: seq<Entry>) {
    forall x :: x in a <==> x in b
  }

  lemma FactsIn(s: seq<Entry>, x: Entry)
    ensures x in s ==> Fact(x) in Facts(s)
    ensures x in Facts(s) ==> exists e :: e in s && Fact(e) == x
  {
    if x in s {
      var i :| 0 <= i < |s| && s[i] == x;
      assert Facts(s)[i] == Fact(x);
    }
    if x in Facts(s) {
      var i :| 0 <= i < |s| && Facts(s)[i] == x;
      assert s[i] in s && Fact(s[i]) == x;
    }
  }

  lemma FactsCarry(a: seq<Entry>, b: seq<Entry>)
    requires SameElementsAs(a, b)
    ensures SameElementsAs(Facts(a), Facts(b))
  {
    forall x ensures x in Facts(a) <==> x in Facts(b) {
      FactsIn(a, x);
      FactsIn(b, x);
      if x in Facts(a) {
        var e :| e in a && Fact(e) == x;
        FactsIn(b, e);
      }
      if x in Facts(b) {
        var e :| e in b && Fact(e) == x;
        FactsIn(a, e);
      }
    }
  }

  lemma TarOfFact(a: Entry, b: Entry)
    requires Fact(a) == Fact(b) && !Refused(a.node)
    ensures !Refused(b.node) && TarInfo(a) == TarInfo(b)
  {
    assert Executable(0x1ed) && !Executable(0x1a4);
  }

  lemma KindsOfFacts(s: seq<Entry>)
    ensures NoneRefused(s) <==> NoneRefused(Facts(s))
    ensures (exists e :: e in s && e.node.File?) <==> (exists e :: e in Facts(s) && e.node.File?)
  {
    forall e | e in s ensures Fact(e) in Facts(s) {
      FactsIn(s, e);
    }
    forall x | x in Facts(s) ensures exists e :: e in s && Fact(e) == x {
      FactsIn(s, x);
    }
  }

  lemma SortedFacts(a: seq<Entry>, b: seq<Entry>)
    requires Sorted(a) && Distinct(a) && Sorted(b) && Distinct(b)
    requires SameElementsAs(Facts(a), Facts(b))
    ensures Facts(a) == Facts(b)
  {
    SortedUnique(Facts(a), Facts(b));
  }

  lemma TarOfFacts(a: seq<Entry>, b: seq<Entry>)
    requires Facts(a) == Facts(b) && NoneRefused(a)
    ensures NoneRefused(b) && Tar(a) == Tar(b)
  {
    assert |Facts(a)| == |Facts(b)|;
    forall i | 0 <= i < |a| ensures !Refused(b[i].node) && TarInfo(a[i]) == TarInfo(b[i]) {
      assert Facts(a)[i] == Facts(b)[i];
      TarOfFact(a[i], b[i]);
    }
  }

  lemma AcceptsByFacts(a: seq<Entry>, b: seq<Entry>)
    requires SameElementsAs(Facts(Rglob("", a)), Facts(Rglob("", b)))
    ensures Collected(a).Ok? <==> Collected(b).Ok?
  {
    AcceptsExactly(a);
    AcceptsExactly(b);
    KindsOfFacts(Rglob("", a));
    KindsOfFacts(Rglob("", b));
  }

  // Two trees with the same paths, bytes and executable bits are accepted
  // alike, and give the same archive.
  lemma FactsDetermineArchive(a: seq<Entry>, b: seq<Entry>)
    requires WellFormed(a) && WellFormed(b)
    requires SameElementsAs(Facts(Rglob("", a)), Facts(Rglob("", b)))
    ensures Packaged(a).Ok? <==> Packaged(b).Ok?
    ensures Packaged(a).Ok? ==> Packaged(a) == Packaged(b)
  {
    AcceptsByFacts(a, b);
    ArchiveIsTree(a);
    ArchiveIsTree(b);
    if Collected(a).Ok? {
      var s, t := ByName(Rglob("", a)), ByName(Rglob("", b));
      SameElements(s, Rglob("", a));
      SameElements(t, Rglob("", b));
      FactsCarry(s, Rglob("", a));
      FactsCarry(t, Rglob("", b));
      SortedFacts(s, t);
      TarOfFacts(s, t);
    }
  }

  // ── listing order ────────────────────────────────────────────────

  predicate NamesWithin(a: seq<Entry>, b: seq<Entry>) {
    forall i :: 0 <= i < |a| ==> exists j :: 0 <= j < |b| && b[j].name == a[i].name
  }

  // The same tree, with every directory listed in any order, and file modes
  // agreeing in the executable bit.
  predicate Relisted(a: seq<Entry>, b: seq<Entry>)
    decreases a, 1
  {
    && NamesWithin(a, b)
    && NamesWithin(b, a)
    && AlikeByName(a, b)
  }

  predicate AlikeByName(a: seq<Entry>, b: seq<Entry>)
    decreases a, 0
  {
    forall i, j :: 0 <= i < |a| && 0 <= j < |b| && a[i].name == b[j].name ==>
      Plain(a[i].node) == Plain(b[j].node) &&
      (a[i].node.Dir? ==> Relisted(a[i].node.entries, b[j].node.entries))
  }

  // The names alone.
  function Names(s: seq<Entry>): (r: seq<Entry>)
    ensures |r| == |s| && forall i :: 0 <= i < |s| ==> r[i] == Entry(s[i].name, Link)
  {
    seq(|s|, i requires 0 <= i < |s| => Entry(s[i].name, Link))
  }

  lemma NamesCarry(a: seq<Entry>, b: seq<Entry>)
    requires NamesWithin(a, b)
    ensures forall x :: x in Names(a) ==> x in Names(b)
  {
    forall x | x in Names(a) ensures x in Names(b) {
      var i :| 0 <= i < |a| && Names(a)[i] == x;
      var j :| 0 <= j < |b| && b[j].name == a[i].name;
      assert Names(b)[j] == x;
    }
  }

  // Sorted by name, two listings of a directory go in step.
  lemma InStep(a: seq<Entry>, b: seq<Entry>)
    requires Distinct(a) && Distinct(b) && Relisted(a, b)
    ensures var s, t := ByName(a), ByName(b);
            |s| == |t| && forall i :: 0 <= i < |s| ==> s[i].name == t[i].name
  {
    var s, t := ByName(a), ByName(b);
    SameElements(s, a);
    SameElements(t, b);
    DistinctPermuted(a, s);
    DistinctPermuted(b, t);
    NamesCarry(a, b);
    NamesCarry(b, a);
    FewerNames(s, a);
    FewerNames(a, s);
    FewerNames(t, b);
    FewerNames(b, t);
    SortedUnique(Names(s), Names(t));
    forall i | 0 <= i < |s| ensures s[i].name == t[i].name {
      assert Names(s)[i] == Names(t)[i];
    }
  }

  lemma FewerNames(s: seq<Entry>, a: seq<Entry>)
    requires forall x :: x in s ==> x in a
    ensures forall x :: x in Names(s) ==> x in Names(a)
  {
    forall x | x in Names(s) ensures x in Names(a) {
      var i :| 0 <= i < |s| && Names(s)[i] == x;
      assert s[i] in a;
      var j :| 0 <= j < |a| && a[j] == s[i];
      assert Names(a)[j] == x;
    }
  }

  lemma PairRelisted(a: seq<Entry>, b: seq<Entry>, e: Entry, f: Entry)
    requires AlikeByName(a, b) && e in a && f in b && e.name == f.name
    ensures Plain(e.node) == Plain(f.node)
    ensures e.node.Dir? ==> f.node.Dir? && Relisted(e.node.entries, f.node.entries)
  {
    var i :| 0 <= i < |a| && a[i] == e;
    var j :| 0 <= j < |b| && b[j] == f;
  }

  lemma {:induction false} SameDirect(dir: string, s: seq<Entry>, t: seq<Entry>)
    requires |s| == |t|
    requires forall i :: 0 <= i < |s| ==> s[i].name == t[i].name && Plain(s[i].node) == Plain(t[i].node)
    ensures Facts(Direct(dir, s)) == Facts(Direct(dir, t))
  {
    if s != [] {
      var n := |s| - 1;
      SameDirect(dir, s[..n], t[..n]);
      FactsConcat(Direct(dir, s[..n]), [Item(dir, s[n])]);
      FactsConcat(Direct(dir, t[..n]), [Item(dir, t[n])]);
      assert Facts([Item(dir, s[n])]) == [Fact(Item(dir, s[n]))] == Facts([Item(dir, t[n])]);
    }
  }

  lemma FactsConcat(a: seq<Entry>, b: seq<Entry>)
    ensures Facts(a + b) == Facts(a) + Facts(b)
  {
    forall i | 0 <= i < |a + b| ensures Facts(a + b)[i] == (Facts(a) + Facts(b))[i] {
    }
  }

  // The same tree listed differently is inspected in the same order.
  lemma {:induction false} SameScan(dir: string, a: seq<Entry>, b: seq<Entry>)
    requires WellFormed(a) && WellFormed(b) && Relisted(a, b)
    ensures Facts(Scan(dir, a)) == Facts(Scan(dir, b))
    decreases a, 1, 0
  {
    var s, t := ByName(a), ByName(b);
    InStep(a, b);
    SameElements(s, a);
    SameElements(t, b);
    forall i | 0 <= i < |s| ensures s[i].name == t[i].name && Plain(s[i].node) == Plain(t[i].node) {
      PairRelisted(a, b, s[i], t[i]);
    }
    SameDirect(dir, s, t);
    SameDeep(dir, s, t, a, b);
    FactsConcat(Direct(dir, s), Deep(dir, s, a));
    FactsConcat(Direct(dir, t), Deep(dir, t, b));
  }

  lemma {:induction false} SameDeep(dir: string, s: seq<Entry>, t: seq<Entry>, a: seq<Entry>, b: seq<Entry>)
    requires WellFormed(a) && WellFormed(b) && Relisted(a, b)
    requires |s| == |t| && (forall e :: e in s ==> e in a) && (forall f :: f in t ==> f in b)
    requires forall i :: 0 <= i < |s| ==> s[i].name == t[i].name
    ensures Facts(Deep(dir, s, a)) == Facts(Deep(dir, t, b))
    decreases a, 0, |s|
  {
    if s != [] {
      var n := |s| - 1;
      var e, f := s[n], t[n];
      SameDeep(dir, s[..n], t[..n], a, b);
      PairRelisted(a, b, e, f);
      if e.node.Dir? {
        assert e in a && f in b;
        var k :| 0 <= k < |a| && a[k] == e;
        var l :| 0 <= l < |b| && b[l] == f;
        var sub := Child(dir, e.name);
        SameScan(sub, e.node.entries, f.node.entries);
        FactsConcat(Scan(sub, e.node.entries), Deep(dir, s[..n], a));
        FactsConcat(Scan(sub, f.node.entries), Deep(dir, t[..n], b));
      } else {
        assert !f.node.Dir?;
      }
    }
  }

  lemma {:induction false} RefusalOfFacts(s: seq<Entry>)
    ensures FirstRefusal(Facts(s)) == FirstRefusal(s)
  {
    if s != [] {
      assert Facts(s)[1..] == Facts(s[1..]);
      RefusalOfFacts(s[1..]);
    }
  }

  lemma SameFacts(a: seq<Entry>, b: seq<Entry>)
    requires WellFormed(a) && WellFormed(b) && Relisted(a, b)
    ensures SameElementsAs(Facts(Rglob("", a)), Facts(Rglob("", b)))
  {
    SameScan("", a, b);
    ScanIsRglob("", a);
    ScanIsRglob("", b);
    SameElements(Scan("", a), Rglob("", a));
    SameElements(Scan("", b), Rglob("", b));
    FactsCarry(Scan("", a), Rglob("", a));
    FactsCarry(Scan("", b), Rglob("", b));
  }

  lemma SameError(a: seq<Entry>, b: seq<Entry>)
    requires WellFormed(a) && WellFormed(b) && Relisted(a, b)
    ensures Collected(a).Bad? && Collected(b).Bad? ==> Collected(a).error == Collected(b).error
  {
    SameScan("", a, b);
    RefusalOfFacts(Scan("", a));
    RefusalOfFacts(Scan("", b));
  }

  // However the directories are listed, the outcome is the same: the same
  // archive, or the same error for the same path.
  lemma ListingOrderIrrelevant(a: seq<Entry>, b: seq<Entry>)
    requires WellFormed(a) && WellFormed(b) && Relisted(a, b)
    ensures Packaged(a) == Packaged(b)
  {
    SameFacts(a, b);
    AcceptsByFacts(a, b);
    if Collected(a).Ok? {
      ArchiveIsTree(a);
      FactsDetermineArchive(a, b);
    } else {
      SameError(a, b);
    }
  }
}
