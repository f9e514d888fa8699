// Collecting a payload tree and laying out its archive
// (scripts/package_edgellm_v010_artifact.py).
module Packaging {
  import opened Prelude
  import opened Listing

  datatype PackageError = SymbolicLink(path: string) | NotRegular(path: string) | EmptyPayload

  datatype Result<T> = Ok(value: T) | Bad(error: PackageError)

  // Paths are relative to the payload root, whose own path is empty. An item
  // is a node named by its path.

  function Base(dir: string): string {
    if dir == "" then "" else dir + "/"
  }

  function Child(dir: string, name: string): string {
    Base(dir) + name
  }

  function Item(dir: string, e: Entry): Entry {
    Entry(Child(dir, e.name), e.node)
  }

  // What lies below one entry, itself included.
  function Below(dir: string, e: Entry): seq<Entry>
    decreases e, 1
  {
    [Item(dir, e)] + if e.node.Dir? then Rglob(Child(dir, e.name), e.node.entries) else []
  }

  // Every item of a tree, in listing order.
  function Rglob(dir: string, entries: seq<Entry>): seq<Entry>
    decreases entries, 0
  {
    if entries == [] then [] else Below(dir, entries[0]) + Rglob(dir, entries[1..])
  }

  function Files(s: seq<Entry>): seq<Entry> {
    if s == [] then []
    else if s[|s| - 1].node.File? then Files(s[..|s| - 1]) + [s[|s| - 1]]
    else Files(s[..|s| - 1])
  }

  function Dirs(s: seq<Entry>): seq<Entry> {
    if s == [] then []
    else if s[|s| - 1].node.Dir? then Dirs(s[..|s| - 1]) + [s[|s| - 1]]
    else Dirs(s[..|s| - 1])
  }

  predicate Refused(n: Node) {
    n.Link? || n.Special?
  }

  function Refusal(e: Entry): PackageError
    requires Refused(e.node)
  {
    if e.node.Link? then SymbolicLink(e.name) else NotRegular(e.name)
  }

  // The error for the first refused item of a list.
  function FirstRefusal(s: seq<Entry>): Option<PackageError> {
    if s == [] then None
    else if Refused(s[0].node) then Some(Refusal(s[0]))
    else FirstRefusal(s[1..])
  }

  // ── the order of inspection ──────────────────────────────────────

  function Direct(dir: string, s: seq<Entry>): seq<Entry> {
    if s == [] then [] else Direct(dir, s[..|s| - 1]) + [Item(dir, s[|s| - 1])]
  }

  // A directory's own entries by name, and then its directories from the last
  // name to the first.
  function Scan(dir: string, entries: seq<Entry>): seq<Entry>
    decreases entries, 1, 0
  {
    var s := ByName(entries);
    SameElements(s, entries);
    Direct(dir, s) + Deep(dir, s, entries)
  }

  function Deep(dir: string, s: seq<Entry>, entries: seq<Entry>): seq<Entry>
    requires forall e :: e in s ==> e in entries
    decreases entries, 0, |s|
  {
    if s == [] then []
    else
      var e := s[|s| - 1];
      assert e in entries;
      ghost var k :| 0 <= k < |entries| && entries[k] == e;
      var rest := Deep(dir, s[..|s| - 1], entries);
      if e.node.Dir? then Scan(Child(dir, e.name), e.node.entries) + rest else rest
  }

  // What the directories of a stack still hold; the top is taken first.
  function Pending(stack: seq<Entry>): seq<Entry>
    requires AllDirs(stack)
  {
    if stack == [] then []
    else
      var top := stack[|stack| - 1];
      Scan(top.name, top.node.entries) + Pending(stack[..|stack| - 1])
  }

  // The first refused item is the error; otherwise the files, by path.
  function Collected(entries: seq<Entry>): Result<seq<Entry>> {
    var items := Scan("", entries);
    var refusal := FirstRefusal(items);
    if refusal.Some? then Bad(refusal.value)
    else if Files(items) == [] then Bad(EmptyPayload)
    else Ok(ByName(Files(items)))
  }

  lemma {:induction false} FirstRefusalAt(before: seq<Entry>, e: Entry, after: seq<Entry>)
    requires FirstRefusal(before).None? && Refused(e.node)
    ensures FirstRefusal(before + [e] + after) == Some(Refusal(e))
  {
    var all := before + [e] + after;
    if before != [] {
      assert all[1..] == before[1..] + [e] + after;
      FirstRefusalAt(before[1..], e, after);
    }
  }

  lemma {:induction false} NoRefusal(s: seq<Entry>)
    ensures FirstRefusal(s).None? <==> forall e :: e in s ==> !Refused(e.node)
  {
    if s != [] {
      assert s == [s[0]] + s[1..];
      NoRefusal(s[1..]);
    }
  }

  lemma {:induction false} DirectPrefix(dir: string, s: seq<Entry>, i: nat)
    requires i <= |s|
    ensures Direct(dir, s[..i]) <= Direct(dir, s)
  {
    if i < |s| {
      assert s[..|s| - 1][..i] == s[..i];
      DirectPrefix(dir, s[..|s| - 1], i);
    } else {
      assert s[..i] == s;
    }
  }

  lemma ItemAppends(s: seq<Entry>, e: Entry)
    ensures Files(s + [e]) == if e.node.File? then Files(s) + [e] else Files(s)
    ensures Dirs(s + [e]) == if e.node.Dir? then Dirs(s) + [e] else Dirs(s)
    ensures FirstRefusal(s + [e]).None? <==> FirstRefusal(s).None? && !Refused(e.node)
  {
    assert (s + [e])[..|s|] == s;
    NoRefusal(s);
    NoRefusal(s + [e]);
    assert e in s + [e];
  }

  lemma ItemJoins(dirs: seq<Entry>, files: seq<Entry>, s: seq<Entry>, e: Entry)
    ensures files + Files(s + [e]) == if e.node.File? then (files + Files(s)) + [e] else files + Files(s)
    ensures dirs + Dirs(s + [e]) == if e.node.Dir? then (dirs + Dirs(s)) + [e] else dirs + Dirs(s)
    ensures FirstRefusal(s + [e]).None? <==> FirstRefusal(s).None? && !Refused(e.node)
  {
    ItemAppends(s, e);
    ConcatAssoc(dirs, Dirs(s), [e]);
    ConcatAssoc(files, Files(s), [e]);
  }

  // Inspecting entry i of a sorted directory.
  lemma Inspect(dir: string, s: seq<Entry>, i: nat)
    requires i < |s| && FirstRefusal(Direct(dir, s[..i])).None?
    ensures Direct(dir, s[..i + 1]) == Direct(dir, s[..i]) + [Item(dir, s[i])]
    ensures Refused(s[i].node) ==> FirstRefusal(Direct(dir, s)) == Some(Refusal(Item(dir, s[i])))
  {
    assert s[..i + 1][..i] == s[..i];
    var seen, direct := Direct(dir, s[..i]), Direct(dir, s);
    DirectPrefix(dir, s, i + 1);
    var rest := direct[|seen| + 1..];
    assert direct == seen + [Item(dir, s[i])] + rest;
    if Refused(s[i].node) {
      FirstRefusalAt(seen, Item(dir, s[i]), rest);
    }
  }

  // One round of the inspecting loop.
  lemma InspectStep(dir: string, s: seq<Entry>, i: nat, dirs: seq<Entry>, files: seq<Entry>)
    requires i < |s| && FirstRefusal(Direct(dir, s[..i])).None?
    ensures var item := Item(dir, s[i]);
            var seen, now := Direct(dir, s[..i]), Direct(dir, s[..i + 1]);
            if Refused(item.node) then FirstRefusal(Direct(dir, s)) == Some(Refusal(item))
            else
              && FirstRefusal(now).None?
              && dirs + Dirs(now) == (if item.node.Dir? then (dirs + Dirs(seen)) + [item] else dirs + Dirs(seen))
              && files + Files(now) == (if item.node.Dir? then files + Files(seen) else (files + Files(seen)) + [item])
  {
    Inspect(dir, s, i);
    ItemJoins(dirs, files, Direct(dir, s[..i]), Item(dir, s[i]));
  }

  predicate AllDirs(s: seq<Entry>) {
    forall d :: d in s ==> d.node.Dir?
  }

  lemma {:induction false} DirsAreDirs(s: seq<Entry>)
    ensures AllDirs(Dirs(s)) && |Dirs(s)| <= |s|
  {
    if s != [] {
      DirsAreDirs(s[..|s| - 1]);
    }
  }

  // Pushing the directories of a listing leaves exactly what lies deep in it
  // to be taken before the rest.
  lemma {:induction false} PendingPush(dir: string, s: seq<Entry>, entries: seq<Entry>, stack: seq<Entry>)
    requires AllDirs(stack) && forall e :: e in s ==> e in entries
    ensures AllDirs(stack + Dirs(Direct(dir, s)))
    ensures Pending(stack + Dirs(Direct(dir, s))) == Deep(dir, s, entries) + Pending(stack)
  {
    DirsAreDirs(Direct(dir, s));
    if s == [] {
      assert stack + Dirs(Direct(dir, s)) == stack;
    } else {
      var init, item := s[..|s| - 1], Item(dir, s[|s| - 1]);
      PendingPush(dir, init, entries, stack);
      var pushed := stack + Dirs(Direct(dir, init));
      ItemAppends(Direct(dir, init), item);
      if item.node.Dir? {
        ConcatAssoc(stack, Dirs(Direct(dir, init)), [item]);
        assert (pushed + [item])[..|pushed|] == pushed;
        ConcatAssoc(Scan(item.name, item.node.entries), Deep(dir, init, entries), Pending(stack));
      }
    }
  }

  // Inspect a directory's entries in order, up to the first refused one.
  method ScanEntries(dir: string, s: seq<Entry>, directories: seq<Entry>, files: seq<Entry>)
    returns (refusal: Option<PackageError>, more: seq<Entry>, found: seq<Entry>)
    ensures refusal == FirstRefusal(Direct(dir, s))
    ensures refusal.None? ==> more == directories + Dirs(Direct(dir, s)) && found == files + Files(Direct(dir, s))
  {
    more, found := directories, files;
    for i := 0 to |s|
      invariant FirstRefusal(Direct(dir, s[..i])).None?
      invariant more == directories + Dirs(Direct(dir, s[..i]))
      invariant found == files + Files(Direct(dir, s[..i]))
    {
      var item := Item(dir, s[i]);
      InspectStep(dir, s, i, directories, files);
      if Refused(item.node) {
        return Some(Refusal(item)), more, found;
      }
      if item.node.Dir? {
        more := more + [item];
      } else {
        found := found + [item];
      }
    }
    assert s[..|s|] == s;
    refusal := None;
  }

  // One directory taken from the worklist.
  method ScanDirectory(directory: Entry, directories: seq<Entry>, files: seq<Entry>)
    returns (refusal: Option<PackageError>, more: seq<Entry>, found: seq<Entry>)
    requires directory.node.Dir?
    ensures var direct := Direct(directory.name, ByName(directory.node.entries));
            && refusal == FirstRefusal(direct)
            && (refusal.None? ==> more == directories + Dirs(direct) && found == files + Files(direct))
  {
    refusal, more, found := ScanEntries(directory.name, ByName(directory.node.entries), directories, files);
  }

  lemma {:induction false} RefusalConcat(a: seq<Entry>, b: seq<Entry>)
    ensures FirstRefusal(a + b) == if FirstRefusal(a).Some? then FirstRefusal(a) else FirstRefusal(b)
  {
    if a == [] {
      assert a + b == b;
    } else {
      assert (a + b)[1..] == a[1..] + b;
      RefusalConcat(a[1..], b);
    }
  }

  lemma {:induction false} FilesConcat(a: seq<Entry>, b: seq<Entry>)
    ensures Files(a + b) == Files(a) + Files(b)
  {
    if b == [] {
      assert a + b == a;
    } else {
      assert (a + b)[..|a + b| - 1] == a + b[..|b| - 1];
      FilesConcat(a, b[..|b| - 1]);
    }
  }

  // Taking one directory: its entries are inspected, and the rest is left.
  lemma TakeDirectory(stack: seq<Entry>) returns (direct: seq<Entry>)
    requires AllDirs(stack) && stack != []
    ensures var top, rest := stack[|stack| - 1], stack[..|stack| - 1];
            && direct == Direct(top.name, ByName(top.node.entries))
            && AllDirs(rest + Dirs(direct))
            && Pending(stack) == direct + Pending(rest + Dirs(direct))
            && |Pending(rest + Dirs(direct))| + |rest + Dirs(direct)| < |Pending(stack)| + |stack|
  {
    var top, rest := stack[|stack| - 1], stack[..|stack| - 1];
    var s := ByName(top.node.entries);
    SameElements(s, top.node.entries);
    direct := Direct(top.name, s);
    PendingPush(top.name, s, top.node.entries, rest);
    DirsAreDirs(direct);
    ConcatAssoc(direct, Deep(top.name, s, top.node.entries), Pending(rest));
  }

  // The worklist visits the tree in exactly the recursive order.
  method CollectPayloadFiles(entries: seq<Entry>) returns (r: Result<seq<Entry>>)
    ensures r == Collected(entries)
  {
    var files, directories := [], [Entry("", Dir(entries))];
    ghost var scanned: seq<Entry> := [];
    assert directories[..0] == [];
    while directories != []
      invariant AllDirs(directories)
      invariant scanned + Pending(directories) == Scan("", entries)
      invariant FirstRefusal(scanned).None? && files == Files(scanned)
      decreases |Pending(directories)| + |directories|
    {
      ghost var direct := TakeDirectory(directories);
      ghost var left := Pending(directories[..|directories| - 1] + Dirs(direct));
      RefusalConcat(scanned, direct);
      RefusalConcat(scanned + direct, left);
      FilesConcat(scanned, direct);
      ConcatAssoc(scanned, direct, left);
      var directory := directories[|directories| - 1];
      directories := directories[..|directories| - 1];
      var refusal;
      refusal, directories, files := ScanDirectory(directory, directories, files);
      if refusal.Some? {
        return Bad(refusal.value);
      }
      scanned := scanned + direct;
    }
    assert scanned == Scan("", entries);
    if files == [] {
      return Bad(EmptyPayload);
    }
    return Ok(ByName(files));
  }
}
