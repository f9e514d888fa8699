// The archive of a payload tree: what it holds, in which order, and that it
// does not depend on how directories are listed
// (scripts/package_edgellm_v010_artifact.py).
module PayloadArchive {
  import opened Prelude
  import opened Listing
  import opened Packaging

  datatype Member = Member(name: string, dir: Latch, mode: nat, uid: nat, gid: nat,
                           uname: string, gname: string, mtime: nat, data: seq<Byte>)

  predicate Executable(mode: bv12) {
    mode & 0x49 != 0
  }

  function TarInfo(e: Entry): Member
    requires !Refused(e.node)
  {
    match e.node
    case Dir(_) => Member(e.name + "/", On, 0x1ed, 0, 0, "", "", 0, [])
    case File(data, mode) =>
      Member(e.name, Off, if Executable(mode) then 0x1ed else 0x1a4, 0, 0, "", "", 0, data)
  }

  predicate NoneRefused(s: seq<Entry>) {
    forall e :: e in s ==> !Refused(e.node)
  }

  function Tar(s: seq<Entry>): (r: seq<Member>)
    requires NoneRefused(s)
    ensures |r| == |s|
  {
    seq(|s|, i requires 0 <= i < |s| => TarInfo(s[i]))
  }

  // The directories of a tree by path, or the first refused path.
  method CollectDirectories(entries: seq<Entry>) returns (r: Result<seq<Entry>>)
    ensures var items := ByName(Rglob("", entries));
            r == match FirstRefusal(items) case Some(e) => Bad(e) case None => Ok(Dirs(items))
  {
    var items := ByName(Rglob("", entries));
    var directories := [];
    for i := 0 to |items|
      invariant FirstRefusal(items[..i]).None? && directories == Dirs(items[..i])
    {
      var item := items[i];
      assert items == items[..i] + [item] + items[i + 1..];
      if Refused(item.node) {
        FirstRefusalAt(items[..i], item, items[i + 1..]);
        return Bad(Refusal(item));
      }
      assert items[..i + 1] == items[..i] + [item];
      ItemAppends(items[..i], item);
      if item.node.Dir? {
        directories := directories + [item];
      }
    }
    assert items[..|items|] == items;
    return Ok(directories);
  }

  // ── the tree's items, whatever the order ─────────────────────────

  lemma {:induction false} RglobConcat(dir: string, a: seq<Entry>, b: seq<Entry>)
    ensures Rglob(dir, a + b) == Rglob(dir, a) + Rglob(dir, b)
  {
    if a == [] {
      assert a + b == b;
    } else {
      assert (a + b)[1..] == a[1..] + b;
      RglobConcat(dir, a[1..], b);
      ConcatAssoc(Below(dir, a[0]), Rglob(dir, a[1..]), Rglob(dir, b));
    }
  }

  lemma RglobOne(dir: string, e: Entry)
    ensures Rglob(dir, [e]) == Below(dir, e)
  {
    assert [e][1..] == [];
  }

  lemma RglobMiddle(dir: string, before: seq<Entry>, e: Entry, after: seq<Entry>)
    ensures multiset(Rglob(dir, before + ([e] + after))) ==
            multiset(Below(dir, e)) + multiset(Rglob(dir, before + after))
  {
    RglobConcat(dir, before, after);
    RglobConcat(dir, before, [e] + after);
    RglobConcat(dir, [e], after);
    RglobOne(dir, e);
  }

  lemma MiddleOut(a: seq<Entry>, before: seq<Entry>, e: Entry, after: seq<Entry>)
    requires multiset([e] + a) == multiset(before + ([e] + after))
    ensures multiset(a) == multiset(before + after)
  {
    assert multiset([e] + a) - multiset{e} == multiset(a);
    assert multiset(before + ([e] + after)) - multiset{e} == multiset(before + after);
  }

  lemma SplitOut(s: seq<Entry>, i: nat)
    requires i < |s|
    ensures s == s[..i] + ([s[i]] + s[i + 1..])
  {
  }

  lemma {:induction false} RglobPermuted(dir: string, a: seq<Entry>, b: seq<Entry>)
    requires multiset(a) == multiset(b)
    ensures multiset(Rglob(dir, a)) == multiset(Rglob(dir, b))
    decreases |a|
  {
    SameElements(a, b);
    if a != [] {
      assert a[0] in b;
      var i :| 0 <= i < |b| && b[i] == a[0];
      var before, after := b[..i], b[i + 1..];
      SplitOut(b, i);
      SplitOut(a, 0);
      assert a[..0] + ([a[0]] + a[1..]) == [a[0]] + a[1..];
      MiddleOut(a[1..], before, a[0], after);
      RglobPermuted(dir, a[1..], before + after);
      RglobMiddle(dir, before, a[0], after);
    }
  }

  // Inspecting a tree visits each of its items once.
  lemma {:induction false} ScanIsRglob(dir: string, entries: seq<Entry>)
    ensures multiset(Scan(dir, entries)) == multiset(Rglob(dir, entries))
    decreases entries, 1, 0
  {
    var s := ByName(entries);
    SameElements(s, entries);
    DirectDeepIsRglob(dir, s, entries);
    RglobPermuted(dir, s, entries);
  }

  lemma {:induction false} DirectDeepIsRglob(dir: string, s: seq<Entry>, entries: seq<Entry>)
    requires forall e :: e in s ==> e in entries
    ensures multiset(Direct(dir, s)) + multiset(Deep(dir, s, entries)) == multiset(Rglob(dir, s))
    decreases entries, 0, |s|
  {
    if s != [] {
      var init, e := s[..|s| - 1], s[|s| - 1];
      assert s == init + [e];
      DirectDeepIsRglob(dir, init, entries);
      RglobConcat(dir, init, [e]);
      RglobOne(dir, e);
      if e.node.Dir? {
        assert e in entries;
        var k :| 0 <= k < |entries| && entries[k] == e;
        ScanIsRglob(Child(dir, e.name), e.node.entries);
      }
    }
  }

  lemma {:induction false} KindsCounted(s: seq<Entry>, x: Entry)
    ensures multiset(Files(s))[x] == if x.node.File? then multiset(s)[x] else 0
    ensures multiset(Dirs(s))[x] == if x.node.Dir? then multiset(s)[x] else 0
    ensures x in Files(s) <==> x in s && x.node.File?
  {
    if s != [] {
      assert s == s[..|s| - 1] + [s[|s| - 1]];
      KindsCounted(s[..|s| - 1], x);
    }
  }

  lemma FilesPermuted(a: seq<Entry>, b: seq<Entry>)
    requires multiset(a) == multiset(b)
    ensures multiset(Files(a)) == multiset(Files(b))
  {
    forall x ensures multiset(Files(a))[x] == multiset(Files(b))[x] {
      KindsCounted(a, x);
      KindsCounted(b, x);
    }
  }

  lemma SomeFile(s: seq<Entry>)
    ensures Files(s) != [] <==> exists e :: e in s && e.node.File?
  {
    if Files(s) != [] {
      KindsCounted(s, Files(s)[0]);
    }
    forall e | e in s && e.node.File? ensures Files(s) != [] {
      KindsCounted(s, e);
    }
  }

  // A tree is accepted exactly when it holds no link and no special file, and
  // some regular file; the result is its regular files, sorted by path.
  lemma AcceptsExactly(entries: seq<Entry>)
    ensures var items := Rglob("", entries);
            && (Collected(entries).Ok? <==> NoneRefused(items) && exists e :: e in items && e.node.File?)
            && (Collected(entries).Ok? ==>
                  && Sorted(Collected(entries).value)
                  && multiset(Collected(entries).value) == multiset(Files(items)))
  {
    ScanIsRglob("", entries);
    SameElements(Scan("", entries), Rglob("", entries));
    NoRefusal(Scan("", entries));
    FilesPermuted(Scan("", entries), Rglob("", entries));
    SomeFile(Scan("", entries));
  }

  lemma {:induction false} RefusalIsOfAnItem(s: seq<Entry>)
    ensures FirstRefusal(s).Some? ==>
              exists e :: e in s && Refused(e.node) && FirstRefusal(s) == Some(Refusal(e))
  {
    if s != [] {
      assert s[0] in s;
      RefusalIsOfAnItem(s[1..]);
    }
  }

  // A refused tree names one of its own links or special files, or is empty of
  // files.
  lemma RefusedForAnItem(entries: seq<Entry>)
    requires Collected(entries).Bad?
    ensures var error := Collected(entries).error;
            (exists e :: e in Rglob("", entries) && Refused(e.node) && error == Refusal(e)) ||
            (error == EmptyPayload && forall e :: e in Rglob("", entries) ==> e.node.Dir?)
  {
    var scanned := Scan("", entries);
    ScanIsRglob("", entries);
    SameElements(scanned, Rglob("", entries));
    RefusalIsOfAnItem(scanned);
    NoRefusal(scanned);
    SomeFile(scanned);
  }

  // ── the archive ──────────────────────────────────────────────────

  predicate AllFiles(s: seq<Entry>) {
    forall e :: e in s ==> e.node.File?
  }

  function Members(entries: seq<Entry>, files: seq<Entry>): (r: seq<Entry>)
    requires AllFiles(files)
    ensures NoneRefused(r)
  {
    var dirs := Dirs(ByName(Rglob("", entries)));
    DirsAreDirs(ByName(Rglob("", entries)));
    SameElements(ByName(dirs + files), dirs + files);
    ByName(dirs + files)
  }

  // The members of a tree with these files: its directories and the files.
  function Written(entries: seq<Entry>, files: seq<Entry>): Result<seq<Member>>
    requires AllFiles(files)
  {
    match FirstRefusal(ByName(Rglob("", entries)))
    case Some(e) => Bad(e)
    case None => Ok(Tar(Members(entries, files)))
  }

  method WritePayloadTar(entries: seq<Entry>, files: seq<Entry>) returns (r: Result<seq<Member>>)
    requires AllFiles(files)
    ensures r == Written(entries, files)
  {
    var directories := CollectDirectories(entries);
    if directories.Bad? {
      return Bad(directories.error);
    }
    var members := ByName(directories.value + files);
    assert members == Members(entries, files);
    var archive := AddMembers(members);
    return Ok(archive);
  }

  method AddMembers(members: seq<Entry>) returns (archive: seq<Member>)
    requires NoneRefused(members)
    ensures archive == Tar(members)
  {
    archive := [];
    for i := 0 to |members|
      invariant archive == Tar(members)[..i]
    {
      archive := archive + [TarInfo(members[i])];
    }
  }

  function Packaged(entries: seq<Entry>): Result<seq<Member>> {
    match Collected(entries)
    case Bad(e) => Bad(e)
    case Ok(files) =>
      CollectedFiles(entries);
      Written(entries, files)
  }

  lemma {:induction false} FilesAreFiles(s: seq<Entry>)
    ensures AllFiles(Files(s))
  {
    forall x | x in Files(s) ensures x.node.File? {
      KindsCounted(s, x);
    }
  }

  lemma CollectedFiles(entries: seq<Entry>)
    ensures Collected(entries).Ok? ==> AllFiles(Collected(entries).value)
  {
    var files := Files(Scan("", entries));
    FilesAreFiles(Scan("", entries));
    SameElements(ByName(files), files);
  }

  method Package(entries: seq<Entry>) returns (r: Result<seq<Member>>)
    ensures r == Packaged(entries)
    ensures r.Ok? && WellFormed(entries) ==> Holds(entries, r.value)
  {
    var files := CollectPayloadFiles(entries);
    if files.Bad? {
      return Bad(files.error);
    }
    CollectedFiles(entries);
    r := WritePayloadTar(entries, files.value);
    PackagedHolds(entries);
  }

  // ── what the archive is ──────────────────────────────────────────

  predicate NameOk(name: string) {
    name != "" && '/' !in name
  }

  // Names within a directory differ, as in any file system.
  predicate WellFormed(entries: seq<Entry>)
    decreases entries
  {
    && Distinct(entries)
    && forall i :: 0 <= i < |entries| ==>
         NameOk(entries[i].name) && (entries[i].node.Dir? ==> WellFormed(entries[i].node.entries))
  }

  // The path of an entry, or of something below it.
  predicate InGroup(dir: string, name: string, path: string) {
    path == Child(dir, name) || Child(dir, name) + "/" <= path
  }

  // The name is what the path holds up to the next slash.
  lemma GroupSegment(dir: string, name: string, path: string)
    requires InGroup(dir, name, path)
    ensures var at := |Base(dir)|;
            && |path| >= at + |name| && path[at..at + |name|] == name
            && (|path| == at + |name| || path[at + |name|] == '/')
  {
    assert Child(dir, name) <= path;
    assert forall k :: 0 <= k < |name| ==> Child(dir, name)[|Base(dir)| + k] == name[k];
    if path != Child(dir, name) {
      assert path[|Child(dir, name)|] == (Child(dir, name) + "/")[|Child(dir, name)|];
    }
  }

  lemma GroupsDisjoint(dir: string, m: string, n: string, path: string)
    requires NameOk(m) && NameOk(n) && InGroup(dir, m, path) && InGroup(dir, n, path)
    ensures m == n
  {
    var at := |Base(dir)|;
    GroupSegment(dir, m, path);
    GroupSegment(dir, n, path);
    assert forall k :: at <= k < at + |m| ==> path[k] == m[k - at] != '/';
    assert forall k :: at <= k < at + |n| ==> path[k] == n[k - at] != '/';
  }

  lemma {:induction false} RglobGroups(dir: string, entries: seq<Entry>, x: Entry)
    requires WellFormed(entries) && x in Rglob(dir, entries)
    ensures exists i :: 0 <= i < |entries| && InGroup(dir, entries[i].name, x.name)
    decreases entries, 0
  {
    if x in Below(dir, entries[0]) {
      BelowGroup(dir, entries[0], x);
    } else {
      WellFormedTail(entries);
      RglobGroups(dir, entries[1..], x);
      var i :| 0 <= i < |entries[1..]| && InGroup(dir, entries[1..][i].name, x.name);
      assert entries[i + 1] == entries[1..][i];
    }
  }

  lemma {:induction false} BelowGroup(dir: string, e: Entry, x: Entry)
    requires NameOk(e.name) && (e.node.Dir? ==> WellFormed(e.node.entries))
    requires x in Below(dir, e)
    ensures InGroup(dir, e.name, x.name)
    ensures x.name == Child(dir, e.name) ==> x == Item(dir, e)
    decreases e, 1
  {
    if x != Item(dir, e) {
      var sub := e.node.entries;
      RglobGroups(Child(dir, e.name), sub, x);
      var i :| 0 <= i < |sub| && InGroup(Child(dir, e.name), sub[i].name, x.name);
      assert Child(dir, e.name) + "/" <= Child(Child(dir, e.name), sub[i].name) <= x.name;
    }
  }

  lemma WellFormedTail(entries: seq<Entry>)
    requires WellFormed(entries) && entries != []
    ensures WellFormed(entries[1..])
  {
    assert forall i :: 0 <= i < |entries[1..]| ==> entries[1..][i] == entries[i + 1];
  }

  lemma {:induction false} DistinctConcat(a: seq<Entry>, b: seq<Entry>)
    requires Distinct(a) && Distinct(b) && forall x, y :: x in a && y in b ==> x.name != y.name
    ensures Distinct(a + b)
  {
  }

  // No two items of a tree have the same path.
  lemma {:induction false} PathsDistinct(dir: string, entries: seq<Entry>)
    requires WellFormed(entries)
    ensures Distinct(Rglob(dir, entries))
    decreases entries, 0
  {
    if entries != [] {
      var e, rest := entries[0], entries[1..];
      BelowDistinct(dir, e);
      WellFormedTail(entries);
      PathsDistinct(dir, rest);
      forall x, y | x in Below(dir, e) && y in Rglob(dir, rest) ensures x.name != y.name {
        BelowGroup(dir, e, x);
        RglobGroups(dir, rest, y);
        var i :| 0 <= i < |rest| && InGroup(dir, rest[i].name, y.name);
        assert rest[i] == entries[i + 1];
        if x.name == y.name {
          GroupsDisjoint(dir, e.name, rest[i].name, x.name);
        }
      }
      DistinctConcat(Below(dir, e), Rglob(dir, rest));
    }
  }

  lemma {:induction false} BelowDistinct(dir: string, e: Entry)
    requires NameOk(e.name) && (e.node.Dir? ==> WellFormed(e.node.entries))
    ensures Distinct(Below(dir, e))
    decreases e, 1
  {
    if e.node.Dir? {
      var sub := e.node.entries;
      PathsDistinct(Child(dir, e.name), sub);
      forall y | y in Rglob(Child(dir, e.name), sub) ensures y.name != Child(dir, e.name) {
        RglobGroups(Child(dir, e.name), sub, y);
        var i :| 0 <= i < |sub| && InGroup(Child(dir, e.name), sub[i].name, y.name);
        assert Child(dir, e.name) + "/" <= Child(Child(dir, e.name), sub[i].name) <= y.name;
      }
      DistinctConcat([Item(dir, e)], Rglob(Child(dir, e.name), sub));
    }
  }

  lemma MembersAreItems(items: seq<Entry>, files: seq<Entry>)
    requires NoneRefused(items) && multiset(files) == multiset(Files(items))
    ensures multiset(Dirs(items) + files) == multiset(items)
  {
    forall x ensures multiset(Dirs(items) + files)[x] == multiset(items)[x] {
      KindsCounted(items, x);
      assert x in items || multiset(items)[x] == 0;
    }
  }

  // The archive of an accepted tree holds exactly the items of the tree, each
  // once, sorted by path.
  lemma ArchiveIsTree(entries: seq<Entry>)
    requires WellFormed(entries)
    ensures var items := ByName(Rglob("", entries));
            && Distinct(items)
            && (Collected(entries).Ok? ==> NoneRefused(items) && Packaged(entries) == Ok(Tar(items)))
  {
    var tree := Rglob("", entries);
    var items := ByName(tree);
    PathsDistinct("", entries);
    DistinctPermuted(tree, items);
    AcceptsExactly(entries);
    SameElements(items, tree);
    if Collected(entries).Ok? {
      var files := Collected(entries).value;
      CollectedFiles(entries);
      NoRefusal(items);
      FilesPermuted(items, tree);
      MembersAreItems(items, files);
      var members := Members(entries, files);
      SameElements(members, items);
      DistinctPermuted(items, members);
      SortedUnique(members, items);
    }
  }

  // ── directories come first ───────────────────────────────────────

  lemma {:induction false} RglobParents(dir: string, entries: seq<Entry>, x: Entry)
    requires x in Rglob(dir, entries) && WellFormed(entries)
    ensures exists d: string, n: string :: ParentOf(d, n, x.name) && (d == dir || HasDir(Rglob(dir, entries), d))
    decreases entries
  {
    var e, rest := entries[0], entries[1..];
    if x == Item(dir, e) {
      assert ParentOf(dir, e.name, x.name);
    } else if x in Rglob(dir, rest) {
      WellFormedTail(entries);
      RglobParents(dir, rest, x);
      var d, n :| ParentOf(d, n, x.name) && (d == dir || HasDir(Rglob(dir, rest), d));
      HasDirGrows(Below(dir, e), Rglob(dir, rest), d);
    } else {
      var sub := Child(dir, e.name);
      RglobParents(sub, e.node.entries, x);
      var d, n :| ParentOf(d, n, x.name) && (d == sub || HasDir(Rglob(sub, e.node.entries), d));
      assert Rglob(dir, entries)[0] == Item(dir, e);
      assert Rglob(dir, entries) == ([Item(dir, e)] + Rglob(sub, e.node.entries)) + Rglob(dir, rest);
      if d != sub {
        HasDirGrows([Item(dir, e)], Rglob(sub, e.node.entries), d);
        HasDirGrows(Below(dir, e), Rglob(dir, rest), d);
      }
    }
  }

  predicate ParentOf(dir: string, name: string, path: string) {
    NameOk(name) && path == Child(dir, name)
  }

  predicate HasDir(s: seq<Entry>, path: string) {
    exists i :: 0 <= i < |s| && s[i].name == path && s[i].node.Dir?
  }

  lemma HasDirGrows(a: seq<Entry>, b: seq<Entry>, path: string)
    ensures HasDir(a, path) || HasDir(b, path) ==> HasDir(a + b, path)
  {
    if HasDir(a, path) {
      var i :| 0 <= i < |a| && a[i].name == path && a[i].node.Dir?;
      assert (a + b)[i] == a[i];
    } else if HasDir(b, path) {
      var i :| 0 <= i < |b| && b[i].name == path && b[i].node.Dir?;
      assert (a + b)[|a| + i] == b[i];
    }
  }

  lemma DirectoryBefore(items: seq<Entry>, i: nat, j: nat)
    requires Sorted(items) && Distinct(items) && i < |items| && j < |items| && i != j
    requires items[i].name <= items[j].name
    ensures i < j
  {
    PrefixFirst(items[i].name, items[j].name);
    LeqTotal(items[i].name, items[j].name);
  }

  lemma ArchiveItems(entries: seq<Entry>, tar: seq<Member>) returns (items: seq<Entry>)
    requires WellFormed(entries) && Packaged(entries) == Ok(tar)
    ensures Sorted(items) && Distinct(items) && NoneRefused(items) && tar == Tar(items)
    ensures |items| == |Rglob("", entries)|
    ensures forall x :: x in items <==> x in Rglob("", entries)
  {
    ArchiveIsTree(entries);
    items := ByName(Rglob("", entries));
    SameElements(items, Rglob("", entries));
  }

  lemma NamePrefix(a: Entry, b: Entry)
    requires a.node.Dir? && !Refused(b.node) && TarInfo(a).name <= TarInfo(b).name
    ensures a.name <= b.name
  {
    var n := |a.name|;
    assert a.name == TarInfo(a).name[..n] == TarInfo(b).name[..n];
    assert TarInfo(b).name[..|b.name|] == b.name;
  }

  // A directory member precedes everything whose name it begins.
  lemma DirectoriesFirst(entries: seq<Entry>, tar: seq<Member>, i: nat, j: nat)
    requires WellFormed(entries) && Packaged(entries) == Ok(tar) && i < |tar| && j < |tar| && i != j
    requires tar[i].dir.On? && tar[i].name <= tar[j].name
    ensures i < j
  {
    var items := ArchiveItems(entries, tar);
    NamePrefix(items[i], items[j]);
    DirectoryBefore(items, i, j);
  }

  // Member j lies in the root, or in the directory that is member i.
  predicate LiesIn(tar: seq<Member>, i: nat, j: nat, name: string)
    requires j < |tar|
  {
    var end := if tar[j].dir.On? then "/" else "";
    && NameOk(name)
    && (tar[j].name == name + end ||
        (i < |tar| && tar[i].dir.On? && tar[j].name == tar[i].name + name + end))
  }

  lemma ParentItem(entries: seq<Entry>, items: seq<Entry>, j: nat) returns (i: nat, name: string)
    requires WellFormed(entries) && j < |items| && Sorted(items) && Distinct(items)
    requires forall x :: x in items <==> x in Rglob("", entries)
    ensures NameOk(name) && i <= j
    ensures items[j].name == name || (items[i].node.Dir? && items[j].name == items[i].name + "/" + name)
  {
    var tree := Rglob("", entries);
    assert items[j] in tree;
    RglobParents("", entries, items[j]);
    var d, n :| ParentOf(d, n, items[j].name) && (d == "" || HasDir(tree, d));
    i, name := 0, n;
    if d != "" {
      var k :| 0 <= k < |tree| && tree[k].name == d && tree[k].node.Dir?;
      assert tree[k] in items;
      i :| 0 <= i < |items| && items[i] == tree[k];
      DirectoryBefore(items, i, j);
    }
  }

  // Every member below the root comes after the directory it lies in.
  lemma ParentsPresent(entries: seq<Entry>, tar: seq<Member>, j: nat) returns (i: nat, name: string)
    requires WellFormed(entries) && Packaged(entries) == Ok(tar) && j < |tar|
    ensures i <= j && LiesIn(tar, i, j, name)
  {
    var items := ArchiveItems(entries, tar);
    i, name := ParentItem(entries, items, j);
    assert tar[j] == TarInfo(items[j]);
    assert tar[i] == TarInfo(items[i]);
  }

  // ── contents ─────────────────────────────────────────────────────

  // Owned by nobody, at no time.
  predicate Anonymous(m: Member) {
    m.uid == 0 && m.gid == 0 && m.uname == "" && m.gname == "" && m.mtime == 0
  }

  // The member is this item: a file with its bytes, executable (0755) if its
  // owner, its group or others may execute it and plain (0644) otherwise, or a
  // directory (0755) without bytes.
  predicate Describes(m: Member, e: Entry) {
    && Anonymous(m)
    && match e.node
       case File(data, mode) =>
         && m.name == e.name && m.dir.Off? && m.data == data
         && m.mode == if mode & 0x40 != 0 || mode & 0x08 != 0 || mode & 0x01 != 0 then 0x1ed else 0x1a4
       case Dir(_) => m.name == e.name + "/" && m.dir.On? && m.data == [] && m.mode == 0x1ed
       case _ => false
  }

  // The archive is the tree: every item has its member, every member its item,
  // and no two members have the same name.
  ghost predicate Holds(entries: seq<Entry>, tar: seq<Member>) {
    var tree := Rglob("", entries);
    && |tar| == |tree|
    && (forall e :: e in tree ==> HasMember(tar, e))
    && (forall i :: 0 <= i < |tar| ==> HasItem(tree, tar[i]))
    && NamesUnique(tar)
  }

  predicate HasItem(tree: seq<Entry>, m: Member) {
    exists e :: e in tree && Describes(m, e)
  }

  predicate NamesUnique(tar: seq<Member>) {
    forall i, j :: 0 <= i < j < |tar| ==> tar[i].name != tar[j].name
  }

  predicate HasMember(tar: seq<Member>, e: Entry) {
    exists i :: 0 <= i < |tar| && Describes(tar[i], e)
  }

  lemma ExecuteBits(mode: bv12)
    ensures Executable(mode) <==> mode & 0x40 != 0 || mode & 0x08 != 0 || mode & 0x01 != 0
  {
  }

  lemma InfoDescribes(e: Entry)
    requires !Refused(e.node)
    ensures Describes(TarInfo(e), e)
  {
    if e.node.File? {
      ExecuteBits(e.node.mode);
    }
  }

  // A path does not end in a slash, so a file is never named like a directory.
  lemma NoTrailingSlash(entries: seq<Entry>, e: Entry)
    requires WellFormed(entries) && e in Rglob("", entries)
    ensures e.name != "" && e.name[|e.name| - 1] != '/'
  {
    RglobParents("", entries, e);
    var d, n :| ParentOf(d, n, e.name) && (d == "" || HasDir(Rglob("", entries), d));
    assert e.name[|e.name| - 1] == n[|n| - 1];
  }

  lemma NamesDiffer(entries: seq<Entry>, a: Entry, b: Entry)
    requires WellFormed(entries) && a in Rglob("", entries) && b in Rglob("", entries) && a.name != b.name
    requires !Refused(a.node) && !Refused(b.node)
    ensures TarInfo(a).name != TarInfo(b).name
  {
    NoTrailingSlash(entries, a);
    NoTrailingSlash(entries, b);
    assert TarInfo(a).name[..|a.name|] == a.name && TarInfo(b).name[..|b.name|] == b.name;
    assert TarInfo(a).dir.On? ==> TarInfo(a).name[|a.name|] == '/';
    assert TarInfo(b).dir.On? ==> TarInfo(b).name[|b.name|] == '/';
  }

  lemma MembersFound(tree: seq<Entry>, items: seq<Entry>, e: Entry)
    requires NoneRefused(items) && (forall x :: x in items <==> x in tree) && e in tree
    ensures HasMember(Tar(items), e)
  {
    assert e in items;
    var i :| 0 <= i < |items| && items[i] == e;
    InfoDescribes(e);
    assert Describes(Tar(items)[i], e);
  }

  lemma ItemsFound(tree: seq<Entry>, items: seq<Entry>, i: nat)
    requires NoneRefused(items) && (forall x :: x in items <==> x in tree) && i < |items|
    ensures HasItem(tree, Tar(items)[i])
  {
    InfoDescribes(items[i]);
    assert items[i] in tree && Describes(Tar(items)[i], items[i]);
  }

  lemma TarNamesUnique(entries: seq<Entry>, items: seq<Entry>)
    requires WellFormed(entries) && Distinct(items) && NoneRefused(items)
    requires forall x :: x in items <==> x in Rglob("", entries)
    ensures NamesUnique(Tar(items))
  {
    forall i, j | 0 <= i < j < |items| ensures Tar(items)[i].name != Tar(items)[j].name {
      assert items[i] in Rglob("", entries) && items[j] in Rglob("", entries);
      NamesDiffer(entries, items[i], items[j]);
    }
  }

  lemma ArchiveContents(entries: seq<Entry>, tar: seq<Member>)
    requires WellFormed(entries) && Packaged(entries) == Ok(tar)
    ensures Holds(entries, tar)
  {
    var tree := Rglob("", entries);
    var items := ArchiveItems(entries, tar);
    forall e | e in tree ensures HasMember(tar, e) {
      MembersFound(tree, items, e);
    }
    forall i | 0 <= i < |tar| ensures HasItem(tree, tar[i]) {
      ItemsFound(tree, items, i);
    }
    TarNamesUnique(entries, items);
  }

  lemma PackagedHolds(entries: seq<Entry>)
    ensures Packaged(entries).Ok? && WellFormed(entries) ==> Holds(entries, Packaged(entries).value)
  {
    if Packaged(entries).Ok? && WellFormed(entries) {
      ArchiveContents(entries, Packaged(entries).value);
    }
  }

  // ── the items are the tree's ─────────────────────────────────────

  // The names lead from the root, directory by directory, to the node.
  ghost predicate LeadsTo(entries: seq<Entry>, names: seq<string>, node: Node)
    decreases |names|, 0
  {
    names != [] && exists e :: e in entries && e.name == names[0] && LeadsFrom(e, names[1..], node)
  }

  ghost predicate LeadsFrom(e: Entry, names: seq<string>, node: Node)
    decreases |names|, 1
  {
    if names == [] then e.node == node else e.node.Dir? && LeadsTo(e.node.entries, names, node)
  }

  function PathOf(names: seq<string>): string {
    if names == [] then "" else if |names| == 1 then names[0] else names[0] + "/" + PathOf(names[1..])
  }

  ghost predicate InTree(dir: string, entries: seq<Entry>, x: Entry) {
    exists names :: names != [] && LeadsTo(entries, names, x.node) && x.name == Base(dir) + PathOf(names)
  }

  lemma BelowInRglob(dir: string, entries: seq<Entry>, e: Entry, x: Entry)
    requires e in entries && x in Below(dir, e)
    ensures x in Rglob(dir, entries)
    decreases |entries|
  {
    if e != entries[0] {
      BelowInRglob(dir, entries[1..], e, x);
    }
  }

  // One more directory on the way.
  lemma PathBelow(dir: string, name: string, names: seq<string>)
    requires name != "" && names != []
    ensures Base(dir) + PathOf([name] + names) == Base(Child(dir, name)) + PathOf(names)
  {
    assert ([name] + names)[1..] == names;
    ConcatAssoc(Base(dir), name, "/" + PathOf(names));
    ConcatAssoc(Base(dir) + name, "/", PathOf(names));
    ConcatAssoc(name, "/", PathOf(names));
  }

  lemma {:induction false} RglobInTree(dir: string, entries: seq<Entry>, x: Entry)
    requires WellFormed(entries) && x in Rglob(dir, entries)
    ensures InTree(dir, entries, x)
    decreases entries, 0
  {
    var e := entries[0];
    if x == Item(dir, e) {
      assert [e.name][1..] == [] && LeadsFrom(e, [e.name][1..], x.node);
      assert LeadsTo(entries, [e.name], x.node) && PathOf([e.name]) == e.name;
    } else if x in Below(dir, e) {
      RglobInTree(Child(dir, e.name), e.node.entries, x);
      var names :| names != [] && LeadsTo(e.node.entries, names, x.node) &&
                   x.name == Base(Child(dir, e.name)) + PathOf(names);
      assert ([e.name] + names)[1..] == names;
      assert LeadsTo(entries, [e.name] + names, x.node);
      PathBelow(dir, e.name, names);
    } else {
      WellFormedTail(entries);
      RglobInTree(dir, entries[1..], x);
      var names :| names != [] && LeadsTo(entries[1..], names, x.node) && x.name == Base(dir) + PathOf(names);
      assert LeadsTo(entries, names, x.node);
    }
  }

  lemma {:induction false} TreeInRglob(dir: string, entries: seq<Entry>, names: seq<string>, x: Entry)
    requires WellFormed(entries) && names != [] && LeadsTo(entries, names, x.node)
    requires x.name == Base(dir) + PathOf(names)
    ensures x in Rglob(dir, entries)
    decreases |names|
  {
    var e :| e in entries && e.name == names[0] && LeadsFrom(e, names[1..], x.node);
    if |names| > 1 {
      assert [names[0]] + names[1..] == names;
      PathBelow(dir, names[0], names[1..]);
      TreeInRglob(Child(dir, e.name), e.node.entries, names[1..], x);
    } else {
      assert x == Item(dir, e);
    }
    BelowInRglob(dir, entries, e, x);
  }

  // The recursive listing holds an item if and only if the names on its path
  // lead to it from the root.
  lemma RglobIsTree(entries: seq<Entry>, x: Entry)
    requires WellFormed(entries)
    ensures x in Rglob("", entries) <==> InTree("", entries, x)
  {
    if x in Rglob("", entries) {
      RglobInTree("", entries, x);
    }
    if InTree("", entries, x) {
      var names :| names != [] && LeadsTo(entries, names, x.node) && x.name == Base("") + PathOf(names);
      TreeInRglob("", entries, names, x);
    }
  }
}
