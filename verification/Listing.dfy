// listPending: from the entries of the spool directory to the sorted names of the
// queue, and what its first name means for the protocol.
module Listing {
  import opened Options
  import opened SpoolNames
  import opened Protocol

  datatype DirEntry = DirEntry(name: string, isDir: bool)

  predicate HasSuffix(s: string, suffix: string) {
    |suffix| <= |s| && s[|s| - |suffix|..] == suffix
  }

  predicate IsPending(e: DirEntry) {
    !e.isDir && HasSuffix(e.name, ".json")
  }

  function PendingNames(entries: seq<DirEntry>): seq<string> {
    if entries == [] then []
    else
      var n := |entries| - 1;
      PendingNames(entries[..n]) + if IsPending(entries[n]) then [entries[n].name] else []
  }

  // --------------------------------------------------------------- sort.Strings

  predicate LexLeq(a: string, b: string) {
    !LexLess(b, a)
  }

  ghost predicate Sorted(names: seq<string>) {
    forall i, j | 0 <= i < j < |names| :: LexLeq(names[i], names[j])
  }

  function Insert(names: seq<string>, x: string): seq<string> {
    if names == [] || LexLeq(x, names[0]) then [x] + names else [names[0]] + Insert(names[1..], x)
  }

  function Sort(names: seq<string>): seq<string> {
    if names == [] then [] else Insert(Sort(names[1..]), names[0])
  }

  lemma {:induction false} InsertSorted(names: seq<string>, x: string)
    requires Sorted(names)
    ensures Sorted(Insert(names, x)) && multiset(Insert(names, x)) == multiset(names) + multiset{x}
  {
    if names == [] {
    } else if LexLeq(x, names[0]) {
      forall j | 0 < j < |names| ensures LexLeq(x, names[j]) {
        LeqTransitive(x, names[0], names[j]);
      }
    } else {
      var rest := names[1..];
      InsertSorted(rest, x);
      assert names == [names[0]] + rest;
      var out := Insert(rest, x);
      LexTotal(x, names[0]);
      LeqAntisymmetric(x, names[0]);
      forall i | 0 <= i < |out| ensures LexLeq(names[0], out[i]) {
        assert out[i] in multiset(out);
        assert out[i] == x || out[i] in rest;
      }
    }
  }

  lemma LeqTransitive(a: string, b: string, c: string)
    requires LexLeq(a, b) && LexLeq(b, c)
    ensures LexLeq(a, c)
  {
    LexTotal(b, c);
    if LexLess(c, a) {
      if b == c {
      } else {
        LexTransitive(b, c, a);
      }
    }
  }

  lemma LeqAntisymmetric(a: string, b: string)
    ensures LexLess(a, b) ==> !LexLess(b, a)
  {
    if LexLess(a, b) && LexLess(b, a) {
      LexTransitive(a, b, a);
      LexIrreflexive(a);
    }
  }

  lemma {:induction false} SortSorted(names: seq<string>)
    ensures Sorted(Sort(names)) && multiset(Sort(names)) == multiset(names)
  {
    if names != [] {
      SortSorted(names[1..]);
      InsertSorted(Sort(names[1..]), names[0]);
      assert names == [names[0]] + names[1..];
    }
  }

  // The code: a loop over the entries, then the library sort.
  method ListPending(entries: seq<DirEntry>) returns (names: seq<string>)
    ensures Sorted(names) && multiset(names) == multiset(PendingNames(entries))
    ensures forall n :: n in names <==>
              exists e | e in entries ::
                e.name == n && !e.isDir && |n| >= 5 && n[|n| - 5..] == ".json"
  {
    names := [];
    for i := 0 to |entries|
      invariant names == PendingNames(entries[..i])
    {
      assert entries[..i + 1][..i] == entries[..i];
      if !entries[i].isDir && HasSuffix(entries[i].name, ".json") {
        names := names + [entries[i].name];
      }
    }
    assert entries[..|entries|] == entries;
    SortSorted(names);
    ghost var found := names;
    names := Sort(names);
    forall n ensures n in names <==>
               exists e | e in entries :: e.name == n && !e.isDir && |n| >= 5 && n[|n| - 5..] == ".json"
    {
      PendingMembers(entries, n);
      assert n in names <==> n in multiset(found);
      assert n in found <==> exists e | e in entries :: IsPending(e) && e.name == n;
    }
  }

  // -------------------------------------------------------------- the directory

  // A file as a reader of the spool directory sees it. What is not visible is
  // whether any of it would survive a power loss.
  datatype Node = Node(loc: Loc, data: Payload)

  function Visible(files: map<Key, File>): map<Key, Node> {
    map k | k in files && files[k].loc != Absent :: Node(files[k].loc, files[k].data)
  }

  lemma VisiblePut(files: map<Key, File>, k: Key, f: File)
    ensures Visible(files[k := f]) ==
            if f.loc == Absent then Visible(files) - {k} else Visible(files)[k := Node(f.loc, f.data)]
  {
  }

  lemma VisibleSynced(files: map<Key, File>)
    ensures Visible(Synced(files)) == Visible(files)
  {
    assert forall k | k in files :: Synced(files)[k].loc == files[k].loc && Synced(files)[k].data == files[k].data;
  }

  function Waiting(disk: map<Key, Node>): set<Key> {
    set k | k in disk && disk[k].loc == Queue
  }

  lemma WaitingVisible(files: map<Key, File>)
    ensures Waiting(Visible(files)) == Queued(files)
  {
  }

  // The entry of one file: its name, with ".tmp" until the commit. What is in
  // dead/ is not listed.
  function EntryOf(k: Key, node: Node): Option<DirEntry> {
    match node.loc
    case Queue => Some(DirEntry(FileName(k), false))
    case Temp => Some(DirEntry(FileName(k) + ".tmp", false))
    case _ => None
  }

  predicate Found(disk: map<Key, Node>, e: DirEntry) {
    e == DirEntry("dead", true) || exists k | k in disk :: EntryOf(k, disk[k]) == Some(e)
  }

  // What os.ReadDir returns, in any order.
  ghost predicate Describes(entries: seq<DirEntry>, disk: map<Key, Node>) {
    && (forall e | e in entries :: Found(disk, e))
    && (forall k | k in disk :: EntryOf(k, disk[k]).Some? ==> EntryOf(k, disk[k]).value in entries)
    && forall i, j | 0 <= i < j < |entries| :: entries[i] != entries[j]
  }

  lemma NameSuffixes(k: Key)
    ensures HasSuffix(FileName(k), ".json") && !HasSuffix(FileName(k) + ".tmp", ".json")
  {
    var n := FileName(k);
    assert n == (Padded(k.nanos, 20) + "-" + Padded(k.seqNo, 6)) + ".json";
    var tail := (n + ".tmp")[|n| - 1..];
    assert tail[4] == 'p' && ".json"[4] == 'n';
  }

  lemma EntriesDiffer(j: Key, k: Key, n: Node, m: Node)
    requires EntryOf(j, n).Some? && EntryOf(j, n) == EntryOf(k, m)
    ensures j == k
  {
    NameSuffixes(j);
    NameSuffixes(k);
    if n.loc == Temp {
      assert FileName(j) == (FileName(j) + ".tmp")[..|FileName(j) + ".tmp"| - 4];
      assert FileName(k) == (FileName(k) + ".tmp")[..|FileName(k) + ".tmp"| - 4];
    }
    FileNameInjective(j, k);
  }

  // The entry of a file that is no longer left to visit.
  ghost predicate Visited(disk: map<Key, Node>, left: set<Key>, e: DirEntry) {
    exists k | k in disk && k !in left :: EntryOf(k, disk[k]) == Some(e)
  }

  method ReadDir(disk: map<Key, Node>) returns (entries: seq<DirEntry>)
    ensures Describes(entries, disk)
  {
    entries := [DirEntry("dead", true)];
    var left := disk.Keys;
    while left != {}
      invariant left <= disk.Keys
      invariant forall i | 0 < i < |entries| :: Visited(disk, left, entries[i])
      invariant |entries| > 0 && entries[0] == DirEntry("dead", true)
      invariant forall i, j | 0 <= i < j < |entries| :: entries[i] != entries[j]
      invariant forall k | k in disk && k !in left ::
          EntryOf(k, disk[k]).Some? ==> EntryOf(k, disk[k]).value in entries
    {
      var k :| k in left;
      var e := EntryOf(k, disk[k]);
      if e.Some? {
        forall i | 0 < i < |entries| ensures entries[i] != e.value {
          assert Visited(disk, left, entries[i]);
          var j :| j in disk && j !in left && EntryOf(j, disk[j]) == Some(entries[i]);
          if entries[i] == e.value {
            EntriesDiffer(j, k, disk[j], disk[k]);
            assert false;
          }
        }
        entries := entries + [e.value];
      }
      assert forall f | Visited(disk, left, f) :: Visited(disk, left - {k}, f);
      left := left - {k};
    }
  }

  // ------------------------------------------------------------- what it lists

  lemma {:induction false} PendingMembers(entries: seq<DirEntry>, name: string)
    ensures name in PendingNames(entries) <==> exists e | e in entries :: IsPending(e) && e.name == name
  {
    if entries != [] {
      var n := |entries| - 1;
      PendingMembers(entries[..n], name);
      assert entries == entries[..n] + [entries[n]];
    }
  }

  lemma PendingEntry(k: Key, node: Node)
    requires EntryOf(k, node).Some?
    ensures IsPending(EntryOf(k, node).value) <==> node.loc == Queue
  {
    NameSuffixes(k);
  }

  // The listing holds exactly the queue.
  lemma ListedIsQueued(entries: seq<DirEntry>, disk: map<Key, Node>, name: string)
    requires Describes(entries, disk)
    ensures name in PendingNames(entries) <==> exists k | k in Waiting(disk) :: FileName(k) == name
  {
    PendingMembers(entries, name);
    if e :| e in entries && IsPending(e) && e.name == name {
      var k :| k in disk && EntryOf(k, disk[k]) == Some(e);
      PendingEntry(k, disk[k]);
      assert k in Waiting(disk);
    }
    if k :| k in Waiting(disk) && FileName(k) == name {
      PendingEntry(k, disk[k]);
      assert EntryOf(k, disk[k]).value in entries;
    }
  }

  // Its first name is the protocol's head, and there is none exactly when the
  // queue is empty.
  lemma ListingHead(entries: seq<DirEntry>, files: map<Key, File>, names: seq<string>, k: Key)
    requires Describes(entries, Visible(files))
    requires Sorted(names) && multiset(names) == multiset(PendingNames(entries))
    ensures names == [] <==> Queued(files) == {}
    ensures names != [] && k in Queued(files) && FileName(k) == names[0] ==> IsHead(files, k)
    ensures names != [] ==> exists j | j in Queued(files) :: FileName(j) == names[0]
  {
    WaitingVisible(files);
    assert forall n :: n in names <==> n in multiset(names);
    assert forall n :: n in PendingNames(entries) <==> n in multiset(PendingNames(entries));
    forall j | j in Queued(files) ensures FileName(j) in names {
      ListedIsQueued(entries, Visible(files), FileName(j));
    }
    if names != [] {
      ListedIsQueued(entries, Visible(files), names[0]);
      forall j | j in Queued(files) && FileName(k) == names[0] ensures !Precedes(j, k) {
        var i :| 0 <= i < |names| && names[i] == FileName(j);
        LexIrreflexive(names[0]);
      }
    }
  }

  // --------------------------------------------------------------- how many

  // The keys behind the pending names, one for each.
  function Behind(entries: seq<DirEntry>, disk: map<Key, Node>): set<Key> {
    set k | k in Waiting(disk) && DirEntry(FileName(k), false) in entries
  }

  lemma BehindOne(e: DirEntry, disk: map<Key, Node>)
    requires Found(disk, e)
    ensures |Behind([e], disk)| == if IsPending(e) then 1 else 0
  {
    if IsPending(e) {
      var k :| k in disk && EntryOf(k, disk[k]) == Some(e);
      PendingEntry(k, disk[k]);
      forall j | j in Waiting(disk) && DirEntry(FileName(j), false) == e ensures j == k {
        FileNameInjective(j, k);
      }
      assert Behind([e], disk) == {k};
    } else {
      forall j | j in Waiting(disk) ensures DirEntry(FileName(j), false) != e {
        PendingEntry(j, disk[j]);
      }
      assert Behind([e], disk) == {};
    }
  }

  lemma BehindMore(rest: seq<DirEntry>, e: DirEntry, disk: map<Key, Node>)
    requires e !in rest
    ensures |Behind(rest + [e], disk)| == |Behind(rest, disk)| + |Behind([e], disk)|
  {
    assert Behind(rest + [e], disk) == Behind(rest, disk) + Behind([e], disk);
    assert Behind(rest, disk) !! Behind([e], disk);
  }

  lemma {:induction false} PendingCount(entries: seq<DirEntry>, disk: map<Key, Node>)
    requires forall e | e in entries :: Found(disk, e)
    requires forall i, j | 0 <= i < j < |entries| :: entries[i] != entries[j]
    ensures |PendingNames(entries)| == |Behind(entries, disk)|
  {
    if entries == [] {
      assert Behind(entries, disk) == {};
    } else {
      var n := |entries| - 1;
      var rest, e := entries[..n], entries[n];
      assert entries == rest + [e];
      PendingCount(rest, disk);
      BehindOne(e, disk);
      BehindMore(rest, e, disk);
    }
  }

  lemma ListingCount(entries: seq<DirEntry>, files: map<Key, File>, names: seq<string>)
    requires Describes(entries, Visible(files)) && multiset(names) == multiset(PendingNames(entries))
    ensures |names| == |Queued(files)|
  {
    var disk := Visible(files);
    PendingCount(entries, disk);
    WaitingVisible(files);
    forall k | k in Queued(files) ensures k in Behind(entries, disk) {
      assert EntryOf(k, disk[k]).value in entries;
    }
    assert Behind(entries, disk) == Queued(files);
    assert |multiset(names)| == |names| && |multiset(PendingNames(entries))| == |PendingNames(entries)|;
  }
}
