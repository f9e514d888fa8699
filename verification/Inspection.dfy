// In which order the worklist of scripts/package_edgellm_v010_artifact.py
// inspects a payload tree, and so which link or special file a refusal names.
module Inspection {
  import opened Prelude
  import opened Listing
  import opened Packaging
  import opened PayloadArchive

  // A node of the tree and the names that lead to it.
  datatype Stop = Stop(names: seq<string>, node: Node)

  // A directory's own entries come before anything deeper, by name; of its
  // directories the last name comes first, with all that lies below it.
  predicate Earlier(p: seq<string>, q: seq<string>)
    requires p != [] && q != []
  {
    if |p| == 1 then |q| > 1 || (p[0] != q[0] && Leq(p[0], q[0]))
    else |q| > 1 && (if p[0] == q[0] then Earlier(p[1..], q[1..]) else Leq(q[0], p[0]))
  }

  lemma {:induction false} EarlierOnce(p: seq<string>, q: seq<string>)
    requires p != [] && q != []
    ensures !(Earlier(p, q) && Earlier(q, p))
  {
    LeqTotal(p[0], q[0]);
    if |p| > 1 && |q| > 1 && p[0] == q[0] {
      EarlierOnce(p[1..], q[1..]);
    }
  }

  // ── the walk ─────────────────────────────────────────────────────

  function Near(s: seq<Entry>): seq<Stop> {
    seq(|s|, i requires 0 <= i < |s| => Stop([s[i].name], s[i].node))
  }

  function Under(name: string, w: seq<Stop>): seq<Stop> {
    seq(|w|, i requires 0 <= i < |w| => Stop([name] + w[i].names, w[i].node))
  }

  // The order of Packaging.Scan, by names instead of paths.
  function Walk(entries: seq<Entry>): seq<Stop>
    decreases entries, 1, 0
  {
    var s := ByName(entries);
    SameElements(s, entries);
    Near(s) + Far(s, entries)
  }

  function Far(s: seq<Entry>, entries: seq<Entry>): seq<Stop>
    requires forall e :: e in s ==> e in entries
    decreases entries, 0, |s|
  {
    if s == [] then []
    else
      var e := s[|s| - 1];
      assert e in entries;
      ghost var k :| 0 <= k < |entries| && entries[k] == e;
      var rest := Far(s[..|s| - 1], entries);
      if e.node.Dir? then Under(e.name, Walk(e.node.entries)) + rest else rest
  }

  lemma InUnder(name: string, w: seq<Stop>, x: Stop)
    ensures x in Under(name, w) <==> x.names != [] && x.names[0] == name && Stop(x.names[1..], x.node) in w
  {
    if x in Under(name, w) {
      var i :| 0 <= i < |w| && Under(name, w)[i] == x;
      assert x.names[1..] == w[i].names;
    }
    if x.names != [] && x.names[0] == name && Stop(x.names[1..], x.node) in w {
      var i :| 0 <= i < |w| && w[i] == Stop(x.names[1..], x.node);
      assert [name] + x.names[1..] == x.names;
      assert Under(name, w)[i] == x;
    }
  }

  lemma InNear(s: seq<Entry>, x: Stop)
    ensures x in Near(s) <==> |x.names| == 1 && Entry(x.names[0], x.node) in s
  {
    if |x.names| == 1 && Entry(x.names[0], x.node) in s {
      var i :| 0 <= i < |s| && s[i] == Entry(x.names[0], x.node);
      assert Near(s)[i] == x;
    }
  }

  // ── the walk stops at every node of the tree ─────────────────────

  lemma {:induction false} InWalk(entries: seq<Entry>, x: Stop)
    ensures x in Walk(entries) <==> LeadsTo(entries, x.names, x.node)
    decreases entries, 1, 0
  {
    var s := ByName(entries);
    SameElements(s, entries);
    InNear(s, x);
    InFar(s, entries, x);
    if x in Near(s) {
      assert LeadsFrom(Entry(x.names[0], x.node), x.names[1..], x.node);
    }
    if LeadsTo(entries, x.names, x.node) {
      var e :| e in entries && e.name == x.names[0] && LeadsFrom(e, x.names[1..], x.node);
      if |x.names| == 1 {
        assert e == Entry(x.names[0], x.node);
      } else {
        assert x.names[1..] != [];
      }
    }
  }

  lemma {:induction false} InFar(s: seq<Entry>, entries: seq<Entry>, x: Stop)
    requires forall e :: e in s ==> e in entries
    ensures x in Far(s, entries) <==>
            |x.names| > 1 && exists e :: e in s && e.name == x.names[0] && LeadsFrom(e, x.names[1..], x.node)
    decreases entries, 0, |s|
  {
    if s != [] {
      var init, e := s[..|s| - 1], s[|s| - 1];
      assert s == init + [e];
      InFar(init, entries, x);
      assert e in entries;
      var k :| 0 <= k < |entries| && entries[k] == e;
      if e.node.Dir? {
        InUnder(e.name, Walk(e.node.entries), x);
        if x.names != [] {
          InWalk(e.node.entries, Stop(x.names[1..], x.node));
        }
      }
    }
  }

  // ── the walk is the inspection ───────────────────────────────────

  function Named(dir: string, w: seq<Stop>): seq<Entry> {
    seq(|w|, i requires 0 <= i < |w| => Entry(Base(dir) + PathOf(w[i].names), w[i].node))
  }

  lemma NamedConcat(dir: string, a: seq<Stop>, b: seq<Stop>)
    ensures Named(dir, a + b) == Named(dir, a) + Named(dir, b)
  {
  }

  lemma {:induction false} NearIsDirect(dir: string, s: seq<Entry>)
    ensures Direct(dir, s) == Named(dir, Near(s))
  {
    if s != [] {
      var init, e := s[..|s| - 1], s[|s| - 1];
      NearIsDirect(dir, init);
      assert Near(s) == Near(init) + [Stop([e.name], e.node)];
      assert PathOf([e.name]) == e.name;
    }
  }

  lemma UnderNamed(dir: string, name: string, w: seq<Stop>)
    requires name != "" && forall x :: x in w ==> x.names != []
    ensures Named(dir, Under(name, w)) == Named(Child(dir, name), w)
  {
    forall i | 0 <= i < |w| ensures Named(dir, Under(name, w))[i] == Named(Child(dir, name), w)[i] {
      assert w[i] in w;
      PathBelow(dir, name, w[i].names);
    }
  }

  lemma {:induction false} WalkIsScan(dir: string, entries: seq<Entry>)
    requires WellFormed(entries)
    ensures Scan(dir, entries) == Named(dir, Walk(entries))
    decreases entries, 1, 0
  {
    var s := ByName(entries);
    SameElements(s, entries);
    NearIsDirect(dir, s);
    FarIsDeep(dir, s, entries);
    NamedConcat(dir, Near(s), Far(s, entries));
  }

  lemma {:induction false} FarIsDeep(dir: string, s: seq<Entry>, entries: seq<Entry>)
    requires WellFormed(entries) && forall e :: e in s ==> e in entries
    ensures Deep(dir, s, entries) == Named(dir, Far(s, entries))
    decreases entries, 0, |s|
  {
    if s != [] {
      var init, e := s[..|s| - 1], s[|s| - 1];
      assert forall x :: x in init ==> x in s;
      FarIsDeep(dir, init, entries);
      assert e in entries;
      var k :| 0 <= k < |entries| && entries[k] == e;
      if e.node.Dir? {
        var w := Walk(e.node.entries);
        WalkIsScan(Child(dir, e.name), e.node.entries);
        forall x | x in w ensures x.names != [] {
          InWalk(e.node.entries, x);
        }
        UnderNamed(dir, e.name, w);
        NamedConcat(dir, Under(e.name, w), Far(init, entries));
      }
    }
  }

  // ── the walk is in order ─────────────────────────────────────────

  predicate Ordered(w: seq<Stop>) {
    && (forall x :: x in w ==> x.names != [])
    && forall i, j :: 0 <= i < j < |w| ==> w[i].names != [] && w[j].names != [] && Earlier(w[i].names, w[j].names)
  }

  lemma OrderedConcat(a: seq<Stop>, b: seq<Stop>)
    requires Ordered(a) && Ordered(b)
    requires forall x, y :: x in a && y in b ==> Earlier(x.names, y.names)
    ensures Ordered(a + b)
  {
    forall i, j | 0 <= i < j < |a + b| ensures Earlier((a + b)[i].names, (a + b)[j].names) {
      assert i < |a| ==> (a + b)[i] in a;
      assert j >= |a| ==> (a + b)[j] in b;
    }
  }

  lemma UnderOrdered(name: string, w: seq<Stop>)
    requires Ordered(w)
    ensures Ordered(Under(name, w))
  {
    var u := Under(name, w);
    forall i, j | 0 <= i < j < |w| ensures Earlier(u[i].names, u[j].names) {
      assert w[i] in w && w[j] in w;
      assert u[i].names[1..] == w[i].names && u[j].names[1..] == w[j].names;
    }
  }

  lemma {:induction false} WalkOrdered(entries: seq<Entry>)
    requires WellFormed(entries)
    ensures Ordered(Walk(entries))
    decreases entries, 1, 0
  {
    var s := ByName(entries);
    SameElements(s, entries);
    DistinctPermuted(entries, s);
    FarOrdered(s, entries);
    forall x, y | x in Near(s) && y in Far(s, entries) ensures x.names != [] && y.names != [] && Earlier(x.names, y.names) {
      InNear(s, x);
      InFar(s, entries, y);
    }
    OrderedConcat(Near(s), Far(s, entries));
  }

  lemma {:induction false} FarOrdered(s: seq<Entry>, entries: seq<Entry>)
    requires WellFormed(entries) && Sorted(s) && Distinct(s) && forall e :: e in s ==> e in entries
    ensures Ordered(Far(s, entries))
    decreases entries, 0, |s|
  {
    if s != [] {
      var init, e := s[..|s| - 1], s[|s| - 1];
      assert forall x :: x in init ==> x in s;
      FarOrdered(init, entries);
      assert e in entries;
      var k :| 0 <= k < |entries| && entries[k] == e;
      if e.node.Dir? {
        var w := Walk(e.node.entries);
        WalkOrdered(e.node.entries);
        UnderOrdered(e.name, w);
        forall x, y | x in Under(e.name, w) && y in Far(init, entries)
          ensures x.names != [] && y.names != [] && Earlier(x.names, y.names)
        {
          InUnder(e.name, w, x);
          InFar(init, entries, y);
          var d :| d in init && d.name == y.names[0];
          var i :| 0 <= i < |init| && init[i] == d;
          assert s[i] == d && Leq(s[i].name, s[|s| - 1].name);
        }
        OrderedConcat(Under(e.name, w), Far(init, entries));
      }
    }
  }

  // ── which refusal is reported ────────────────────────────────────

  ghost predicate RefusedAt(entries: seq<Entry>, x: Stop) {
    LeadsTo(entries, x.names, x.node) && Refused(x.node)
  }

  // No refused node of the tree comes before this one.
  ghost predicate FirstRefused(entries: seq<Entry>, x: Stop) {
    RefusedAt(entries, x) &&
    forall y: Stop :: RefusedAt(entries, y) ==> y == x || Earlier(x.names, y.names)
  }

  lemma NoneBefore(entries: seq<Entry>, x: Stop) returns (i: nat)
    requires WellFormed(entries) && FirstRefused(entries, x)
    ensures i < |Walk(entries)| && Walk(entries)[i] == x
    ensures forall j :: 0 <= j < i ==> !Refused(Walk(entries)[j].node)
  {
    var w := Walk(entries);
    WalkOrdered(entries);
    InWalk(entries, x);
    i :| 0 <= i < |w| && w[i] == x;
    forall j | 0 <= j < i ensures !Refused(w[j].node) {
      InWalk(entries, w[j]);
      EarlierOnce(w[j].names, x.names);
    }
  }

  // Every refused tree has such a node, and the error names it.
  lemma RefusalIsFirst(entries: seq<Entry>, x: Stop)
    requires WellFormed(entries) && FirstRefused(entries, x)
    ensures Collected(entries) ==
            Bad(if x.node.Link? then SymbolicLink(PathOf(x.names)) else NotRegular(PathOf(x.names)))
  {
    var i := NoneBefore(entries, x);
    WalkIsScan("", entries);
    FirstNamed(Walk(entries), i);
  }

  lemma FirstNamed(w: seq<Stop>, i: nat)
    requires i < |w| && Refused(w[i].node) && forall j :: 0 <= j < i ==> !Refused(w[j].node)
    ensures FirstRefusal(Named("", w)) ==
            Some(if w[i].node.Link? then SymbolicLink(PathOf(w[i].names)) else NotRegular(PathOf(w[i].names)))
  {
    var items := Named("", w);
    NoRefusal(items[..i]);
    FirstRefusalAt(items[..i], items[i], items[i + 1..]);
    assert items == items[..i] + [items[i]] + items[i + 1..];
    assert "" + PathOf(w[i].names) == PathOf(w[i].names);
  }

  lemma RefusedTreeHasFirst(entries: seq<Entry>, y: Stop) returns (x: Stop)
    requires WellFormed(entries) && RefusedAt(entries, y)
    ensures FirstRefused(entries, x)
  {
    var w := Walk(entries);
    WalkOrdered(entries);
    InWalk(entries, y);
    var j :| 0 <= j < |w| && w[j] == y;
    var i := FirstIndex(w, j);
    x := w[i];
    InWalk(entries, x);
    forall z: Stop | RefusedAt(entries, z) ensures z == x || Earlier(x.names, z.names) {
      InWalk(entries, z);
      var k :| 0 <= k < |w| && w[k] == z;
    }
  }

  lemma {:induction false} FirstIndex(w: seq<Stop>, j: nat) returns (i: nat)
    requires j < |w| && Refused(w[j].node)
    ensures i < |w| && Refused(w[i].node) && forall k :: 0 <= k < i ==> !Refused(w[k].node)
  {
    if k :| 0 <= k < j && Refused(w[k].node) {
      i := FirstIndex(w, k);
    } else {
      i := j;
    }
  }
}
