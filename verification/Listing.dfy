// Directory trees and lists of entries sorted by name. Names compare by code
// point, as Python strings do.
module Listing {
  import opened Prelude

  datatype Node =
    | File(data: seq<Byte>, mode: bv12)
    | Dir(entries: seq<Entry>)
    | Link
    | Special

  datatype Entry = Entry(name: string, node: Node)

  predicate Leq(a: string, b: string) {
    a == [] || (b != [] && (a[0] < b[0] || (a[0] == b[0] && Leq(a[1..], b[1..]))))
  }

  lemma {:induction false} LeqTransitive(a: string, b: string, c: string)
    requires Leq(a, b) && Leq(b, c)
    ensures Leq(a, c)
  {
    if a != [] && a[0] == b[0] == c[0] {
      LeqTransitive(a[1..], b[1..], c[1..]);
    }
  }

  lemma {:induction false} LeqTotal(a: string, b: string)
    ensures Leq(a, b) || Leq(b, a)
    ensures Leq(a, b) && Leq(b, a) ==> a == b
  {
    if a != [] && b != [] && a[0] == b[0] {
      LeqTotal(a[1..], b[1..]);
      assert a == [a[0]] + a[1..] && b == [b[0]] + b[1..];
    }
  }

  // A proper prefix comes first.
  lemma {:induction false} PrefixFirst(a: string, b: string)
    requires a <= b
    ensures Leq(a, b)
  {
    if a != [] {
      assert a[0] == b[0];
      PrefixFirst(a[1..], b[1..]);
    }
  }

  predicate Sorted(s: seq<Entry>) {
    forall i, j :: 0 <= i < j < |s| ==> Leq(s[i].name, s[j].name)
  }

  predicate Distinct(s: seq<Entry>) {
    forall i, j :: 0 <= i < j < |s| ==> s[i].name != s[j].name
  }

  function Insert(e: Entry, s: seq<Entry>): (r: seq<Entry>)
    ensures multiset(r) == multiset(s) + multiset{e}
    ensures forall x :: x in r <==> x == e || x in s
  {
    if s == [] || Leq(e.name, s[0].name) then [e] + s
    else
      assert s == [s[0]] + s[1..];
      [s[0]] + Insert(e, s[1..])
  }

  predicate AtMostAll(n: string, s: seq<Entry>) {
    forall x :: x in s ==> Leq(n, x.name)
  }

  lemma SortedCons(e: Entry, s: seq<Entry>)
    ensures Sorted([e] + s) <==> Sorted(s) && AtMostAll(e.name, s)
  {
    var r := [e] + s;
    assert forall i :: 0 <= i < |s| ==> r[i + 1] == s[i];
    if Sorted(r) {
      forall x | x in s ensures Leq(e.name, x.name) {
        var i :| 0 <= i < |s| && s[i] == x;
        assert Leq(r[0].name, r[i + 1].name);
      }
      forall i, j | 0 <= i < j < |s| ensures Leq(s[i].name, s[j].name) {
        assert Leq(r[i + 1].name, r[j + 1].name);
      }
    }
  }

  lemma {:induction false} InsertSorted(e: Entry, s: seq<Entry>)
    requires Sorted(s)
    ensures Sorted(Insert(e, s))
  {
    if s == [] {
    } else {
      assert s == [s[0]] + s[1..];
      SortedCons(s[0], s[1..]);
      if Leq(e.name, s[0].name) {
        forall x | x in s ensures Leq(e.name, x.name) {
          if x in s[1..] { LeqTransitive(e.name, s[0].name, x.name); }
        }
        SortedCons(e, s);
      } else {
        LeqTotal(e.name, s[0].name);
        InsertSorted(e, s[1..]);
        SortedCons(s[0], Insert(e, s[1..]));
      }
    }
  }

  // A list sorted by name; entries of equal name keep their order.
  function ByName(s: seq<Entry>): (r: seq<Entry>)
    ensures multiset(r) == multiset(s) && Sorted(r)
  {
    if s == [] then []
    else
      assert s == [s[0]] + s[1..];
      InsertSorted(s[0], ByName(s[1..]));
      Insert(s[0], ByName(s[1..]))
  }

  lemma SameElements(a: seq<Entry>, b: seq<Entry>)
    requires multiset(a) == multiset(b)
    ensures |a| == |b| && forall x :: x in a <==> x in b
  {
    assert |multiset(a)| == |multiset(b)|;
    forall x ensures x in a <==> x in b {
      assert x in a <==> x in multiset(a);
      assert x in b <==> x in multiset(b);
    }
  }

  // Where x is the only entry of its name, it occurs once.
  lemma {:induction false} DistinctOnce(s: seq<Entry>)
    requires Distinct(s)
    ensures forall x :: multiset(s)[x] <= 1
  {
    if s != [] {
      var rest := s[1..];
      assert forall i :: 0 <= i < |rest| ==> rest[i] == s[i + 1];
      DistinctOnce(rest);
      assert s == [s[0]] + rest;
      assert s[0] !in rest;
    }
  }

  lemma DistinctPermuted(a: seq<Entry>, b: seq<Entry>)
    requires Distinct(a) && multiset(a) == multiset(b)
    ensures Distinct(b)
  {
    SameElements(a, b);
    DistinctOnce(a);
    forall i, j | 0 <= i < j < |b| ensures b[i].name != b[j].name {
      assert b[i] in a && b[j] in a;
      var k :| 0 <= k < |a| && a[k] == b[i];
      var l :| 0 <= l < |a| && a[l] == b[j];
      assert b == b[..j] + [b[j]] + b[j + 1..];
      assert multiset(b)[b[j]] >= multiset(b[..j])[b[j]] + 1;
      assert b[i] in b[..j];
    }
  }

  // A sorted list without repeated names is fixed by its elements.
  lemma {:induction false} SortedUnique(a: seq<Entry>, b: seq<Entry>)
    requires Sorted(a) && Sorted(b) && Distinct(a) && Distinct(b)
    requires forall x :: x in a <==> x in b
    ensures a == b
    decreases |a|
  {
    assert b != [] ==> b[0] in b;
    if a != [] {
      assert a[0] in b && b != [] && b[0] in a;
      var i :| 0 <= i < |b| && b[i] == a[0];
      var j :| 0 <= j < |a| && a[j] == b[0];
      LeqTotal(a[0].name, b[0].name);
      assert a[0].name == b[0].name;
      assert i == 0;
      forall x ensures x in a[1..] <==> x in b[1..] {
        if x in a[1..] {
          assert x in a && x.name != a[0].name;
        }
        if x in b[1..] {
          assert x in b && x.name != b[0].name;
        }
      }
      assert forall k :: 0 <= k < |a[1..]| ==> a[1..][k] == a[k + 1];
      assert forall k :: 0 <= k < |b[1..]| ==> b[1..][k] == b[k + 1];
      SortedUnique(a[1..], b[1..]);
    }
  }
}
