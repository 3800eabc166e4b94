/** The folder archive (http/zip.go): collecting the files of a subtree and writing them under cleaned
    relative names. */
module Zip {
  import opened Types
  import opened Strings
  import opened Paths
  import opened Folders
  import opened Ordering

  datatype ZipEntry = ZipEntry(file: nat, name: string, dir: string)

  /** tree.rel: the folder names from the root of the archive down to a folder. */
  function Rel(fs: seq<Folder>, ghost rank: seq<nat>, root: nat, x: nat): string
    requires Ranked(fs, rank) && x < |fs|
    decreases rank[x]
  {
    if x == root || fs[x].parent.None? then fs[x].name
    else Rel(fs, rank, root, fs[x].parent.value) + "/" + fs[x].name
  }

  function NamesOf(fs: seq<Folder>, path: seq<nat>): seq<string>
    requires forall i :: 0 <= i < |path| ==> path[i] < |fs|
  {
    seq(|path|, i requires 0 <= i < |path| => fs[path[i]].name)
  }

  /** Whatever chain of folders leads from the root of the archive to a folder, its names in that order, with slashes
      between, are the folder's path there. */
  lemma {:induction false} RelIsPath(fs: seq<Folder>, rank: seq<nat>, root: nat, x: nat, path: seq<nat>)
    requires Ranked(fs, rank) && PathTo(fs, root, x, path)
    ensures Rel(fs, rank, root, x) == Join(NamesOf(fs, path), '/')
    decreases |path|
  {
    if |path| == 1 {
      assert NamesOf(fs, path) == [fs[x].name];
    } else {
      var front := path[..|path| - 1];
      var y := front[|front| - 1];
      assert fs[path[|path| - 1]].parent == Some(y);
      RelIsPath(fs, rank, root, y, front);
      LinksRaise(fs, rank, path);
      assert NamesOf(fs, path) == NamesOf(fs, front) + [fs[x].name];
      JoinAppend(NamesOf(fs, front), [fs[x].name], '/');
    }
  }

  lemma {:induction false} LinksRaise(fs: seq<Folder>, rank: seq<nat>, path: seq<nat>)
    requires Ranked(fs, rank) && Links(fs, path)
    ensures rank[path[0]] + |path| - 1 <= rank[path[|path| - 1]]
    decreases |path|
  {
    if |path| > 1 {
      var front := path[..|path| - 1];
      assert fs[path[|path| - 1]].parent == Some(front[|front| - 1]);
      LinksRaise(fs, rank, front);
    }
  }

  /** An entry as the archive should have it: the directory is the path of folder names from the root down, and
      the name is the normalized upload name, or the file's id if nothing is left of it. */
  ghost predicate EntryOk(fs: seq<Folder>, files: seq<FileRec>, root: nat, e: ZipEntry) {
    && e.file < |files| && files[e.file].folder.Some?
    && (exists path :: PathTo(fs, root, files[e.file].folder.value, path) && e.dir == Join(NamesOf(fs, path), '/'))
    && (NormalizeNodeName(files[e.file].originalName) != "" ==> e.name == NormalizeNodeName(files[e.file].originalName))
    && (NormalizeNodeName(files[e.file].originalName) == "" ==> e.name == files[e.file].uuid)
  }

  /** The written name of such an entry is that list of folder names and the entry's name: a folder is unpacked as it
      was, when no name has a meaning of its own in a path. */
  lemma WrittenPath(fs: seq<Folder>, path: seq<nat>, e: ZipEntry)
    requires Links(fs, path) && e.dir == Join(NamesOf(fs, path), '/')
    requires (forall i :: 0 <= i < |path| ==> Plain(fs[path[i]].name)) && Plain(e.name)
    ensures EntryPath(e).Some? && Split(EntryPath(e).value, '/') == NamesOf(fs, path) + [e.name]
  {
    var names := NamesOf(fs, path);
    var segs := names + [e.name];
    JoinAppend(names, [e.name], '/');
    var whole := Join(segs, '/');
    assert whole == e.dir + "/" + e.name;
    SplitJoin(segs, '/');
    CleanPlain(segs);
    PlainNoClimb(segs);
    JoinHead(names);
  }

  function EntryName(f: FileRec): string {
    var name := NormalizeNodeName(f.originalName);
    if name == "" then f.uuid else name
  }

  function EntryFor(fs: seq<Folder>, ghost rank: seq<nat>, files: seq<FileRec>, root: nat, f: nat): ZipEntry
    requires Ranked(fs, rank) && f < |files| && files[f].folder.Some? && files[f].folder.value < |fs|
  {
    ZipEntry(f, EntryName(files[f]), Rel(fs, rank, root, files[f].folder.value))
  }

  /** The join of the query: live files of the owner in the live subtree of the owner. */
  ghost predicate Zipped(fs: seq<Folder>, files: seq<FileRec>, root: nat, owner: nat, f: nat) {
    && f < |files| && files[f].owner == owner && !files[f].deleted && files[f].folder.Some?
    && InTree(fs, LiveOwned(owner), root, files[f].folder.value)
  }

  lemma InTreeBounded(fs: seq<Folder>, w: Filter, root: nat, x: nat)
    requires InTree(fs, w, root, x)
    ensures x < |fs|
  {
  }

  /** Entry i is the one of file ids[i]. */
  ghost predicate EntriesOf(fs: seq<Folder>, rank: seq<nat>, files: seq<FileRec>, root: nat, ids: seq<nat>, entries: seq<ZipEntry>)
    requires Ranked(fs, rank)
  {
    && |ids| == |entries|
    && forall i :: 0 <= i < |ids| ==>
         && ids[i] < |files| && files[ids[i]].folder.Some? && files[ids[i]].folder.value < |fs|
         && entries[i] == EntryFor(fs, rank, files, root, ids[i])
  }

  lemma OneMoreEntry(fs: seq<Folder>, rank: seq<nat>, files: seq<FileRec>, root: nat, ids: seq<nat>, entries: seq<ZipEntry>, f: nat)
    requires Ranked(fs, rank) && EntriesOf(fs, rank, files, root, ids, entries)
    requires f < |files| && files[f].folder.Some? && files[f].folder.value < |fs|
    ensures EntriesOf(fs, rank, files, root, ids + [f], entries + [EntryFor(fs, rank, files, root, f)])
  {
  }

  /** ORDER BY tree.rel, fi.original_name. */
  ghost predicate InZipOrder(files: seq<FileRec>, entries: seq<ZipEntry>, collate: (string, string) -> bool)
    requires forall i :: 0 <= i < |entries| ==> entries[i].file < |files|
  {
    forall i, j :: 0 <= i < j < |entries| ==>
      Lexicographic(collate)((entries[i].dir, files[entries[i].file].originalName), (entries[j].dir, files[entries[j].file].originalName))
  }

  /** A row of the query: the file and what it is ordered by. */
  datatype ZipRow = ZipRow(file: nat, rel: string, originalName: string)

  function RowOrder(collate: (string, string) -> bool): (ZipRow, ZipRow) -> bool {
    (a: ZipRow, b: ZipRow) => Lexicographic(collate)((a.rel, a.originalName), (b.rel, b.originalName))
  }

  function RowFor(fs: seq<Folder>, ghost rank: seq<nat>, files: seq<FileRec>, root: nat, f: nat): ZipRow
    requires Ranked(fs, rank) && f < |files| && files[f].folder.Some? && files[f].folder.value < |fs|
  {
    ZipRow(f, Rel(fs, rank, root, files[f].folder.value), files[f].originalName)
  }

  ghost predicate RowOk(fs: seq<Folder>, rank: seq<nat>, files: seq<FileRec>, root: nat, owner: nat, r: ZipRow)
    requires Ranked(fs, rank)
  {
    && Zipped(fs, files, root, owner, r.file) && files[r.file].folder.value < |fs|
    && r == RowFor(fs, rank, files, root, r.file)
  }

  /** The query: the live files of the owner joined to the live subtree, in order. */
  method ZipRows(fs: seq<Folder>, files: seq<FileRec>, root: nat, owner: nat, ghost rank: seq<nat>,
                 collate: (string, string) -> bool)
    returns (rows: seq<ZipRow>)
    requires Ranked(fs, rank) && TotalPreorder(collate)
    ensures forall r :: r in rows ==> RowOk(fs, rank, files, root, owner, r)
    ensures forall f: nat :: Zipped(fs, files, root, owner, f) ==> exists r :: r in rows && r.file == f
    ensures forall i, j :: 0 <= i < j < |rows| ==> rows[i] != rows[j]
    ensures SortedBy(RowOrder(collate), rows)
  {
    var tree := RecursiveQuery(fs, LiveOwned(owner), root, rank);
    var found: seq<ZipRow> := [];
    for f := 0 to |files|
      invariant forall r :: r in found ==> RowOk(fs, rank, files, root, owner, r) && r.file < f
      invariant forall g: nat :: g < f && Zipped(fs, files, root, owner, g) ==> FoundIn(found, g)
      invariant forall i, j :: 0 <= i < j < |found| ==> found[i] != found[j]
    {
      if files[f].owner == owner && !files[f].deleted && files[f].folder.Some? && files[f].folder.value in tree {
        InTreeBounded(fs, LiveOwned(owner), root, files[f].folder.value);
        var row := RowFor(fs, rank, files, root, f);
        assert row !in found;
        FoundMore(found, row);
        found := found + [row];
      }
    }
    RowOrderIsOne(collate);
    rows := Sort(found, RowOrder(collate));
    SameRows(found, rows);
    StillOnce(found, rows);
    forall f: nat | Zipped(fs, files, root, owner, f) ensures exists r :: r in rows && r.file == f {
      assert FoundIn(found, f);
      var r :| r in found && r.file == f;
      assert r in rows;
    }
  }

  ghost predicate FoundIn(rows: seq<ZipRow>, f: nat) {
    exists r :: r in rows && r.file == f
  }

  lemma FoundMore(rows: seq<ZipRow>, row: ZipRow)
    ensures forall f :: FoundIn(rows, f) ==> FoundIn(rows + [row], f)
    ensures FoundIn(rows + [row], row.file)
  {
    forall f | FoundIn(rows, f) ensures FoundIn(rows + [row], f) {
      var r :| r in rows && r.file == f;
      assert r in rows + [row];
    }
    assert row in rows + [row];
  }

  lemma RowOrderIsOne(collate: (string, string) -> bool)
    requires TotalPreorder(collate)
    ensures TotalPreorder(RowOrder(collate))
  {
    LexicographicOrders(collate);
    var leq := RowOrder(collate);
    var lex := Lexicographic(collate);
    forall a, b ensures leq(a, b) || leq(b, a) {
      assert lex((a.rel, a.originalName), (b.rel, b.originalName)) || lex((b.rel, b.originalName), (a.rel, a.originalName));
    }
    forall a, b, c | leq(a, b) && leq(b, c) ensures leq(a, c) {
      assert lex((a.rel, a.originalName), (b.rel, b.originalName)) && lex((b.rel, b.originalName), (c.rel, c.originalName));
    }
  }

  /** collectFolderZipEntries: each file of the subtree exactly once, ordered by folder path and upload name. */
  method CollectEntries(fs: seq<Folder>, files: seq<FileRec>, root: nat, owner: nat, ghost rank: seq<nat>,
                        collate: (string, string) -> bool)
    returns (entries: seq<ZipEntry>, ghost ids: seq<nat>)
    requires Ranked(fs, rank) && TotalPreorder(collate)
    ensures EntriesOf(fs, rank, files, root, ids, entries)
    ensures |entries| == |ids| && forall i :: 0 <= i < |ids| ==> entries[i].file == ids[i] && EntryOk(fs, files, root, entries[i])
    ensures forall f: nat :: f in ids <==> Zipped(fs, files, root, owner, f)
    ensures forall i, j :: 0 <= i < j < |ids| ==> ids[i] != ids[j]
    ensures InZipOrder(files, entries, collate)
  {
    var rows := ZipRows(fs, files, root, owner, rank, collate);
    entries, ids := [], [];
    for k := 0 to |rows|
      invariant |ids| == k && EntriesOf(fs, rank, files, root, ids, entries)
      invariant forall i :: 0 <= i < k ==> ids[i] == rows[i].file
    {
      assert RowOk(fs, rank, files, root, owner, rows[k]);
      var f := rows[k].file;
      var name := NormalizeNodeName(rows[k].originalName);
      if name == "" {
        name := files[f].uuid;
      }
      OneMoreEntry(fs, rank, files, root, ids, entries, f);
      entries, ids := entries + [ZipEntry(f, name, rows[k].rel)], ids + [f];
    }
    RowsToEntries(fs, rank, files, root, owner, rows, ids, entries, collate);
    forall i | 0 <= i < |ids| ensures EntryOk(fs, files, root, entries[i]) {
      assert ids[i] in ids;
      EntryFits(fs, rank, files, root, owner, ids[i]);
    }
  }

  lemma EntryFits(fs: seq<Folder>, rank: seq<nat>, files: seq<FileRec>, root: nat, owner: nat, f: nat)
    requires Ranked(fs, rank) && Zipped(fs, files, root, owner, f) && files[f].folder.value < |fs|
    ensures EntryOk(fs, files, root, EntryFor(fs, rank, files, root, f))
  {
    var x := files[f].folder.value;
    var k: nat :| AtDepth(fs, LiveOwned(owner), root, k, x);
    var path := DepthPath(fs, LiveOwned(owner), root, k, x);
    RelIsPath(fs, rank, root, x, path);
  }

  lemma RowsToEntries(fs: seq<Folder>, rank: seq<nat>, files: seq<FileRec>, root: nat, owner: nat, rows: seq<ZipRow>,
                      ids: seq<nat>, entries: seq<ZipEntry>, collate: (string, string) -> bool)
    requires Ranked(fs, rank) && EntriesOf(fs, rank, files, root, ids, entries)
    requires |ids| == |rows| && forall i :: 0 <= i < |rows| ==> ids[i] == rows[i].file
    requires forall r :: r in rows ==> RowOk(fs, rank, files, root, owner, r)
    requires forall f: nat :: Zipped(fs, files, root, owner, f) ==> exists r :: r in rows && r.file == f
    requires forall i, j :: 0 <= i < j < |rows| ==> rows[i] != rows[j]
    requires SortedBy(RowOrder(collate), rows)
    ensures forall f: nat :: f in ids <==> Zipped(fs, files, root, owner, f)
    ensures forall i, j :: 0 <= i < j < |ids| ==> ids[i] != ids[j]
    ensures InZipOrder(files, entries, collate)
  {
    forall i | 0 <= i < |rows| ensures RowOk(fs, rank, files, root, owner, rows[i]) {
      assert rows[i] in rows;
    }
    forall f: nat ensures f in ids <==> Zipped(fs, files, root, owner, f) {
      if Zipped(fs, files, root, owner, f) {
        var r :| r in rows && r.file == f;
        var i :| 0 <= i < |rows| && rows[i] == r;
        assert ids[i] == f;
      }
    }
    forall i, j | 0 <= i < j < |entries|
      ensures Lexicographic(collate)((entries[i].dir, files[entries[i].file].originalName), (entries[j].dir, files[entries[j].file].originalName))
    {
      assert RowOrder(collate)(rows[i], rows[j]);
    }
  }

  /** The name written into the archive, unless it climbs above the archive's root. */
  function EntryPath(e: ZipEntry): Option<string> {
    var name := Clean(JoinPath(e.dir, e.name));
    if HasPrefix(name, "../") || name == ".." then None else Some(name)
  }

  /** Whatever the folder and file names were, a written name has no parent component; and an entry is
      refused exactly when its cleaned path starts with one. */
  lemma EntryPathSafe(e: ZipEntry)
    ensures EntryPath(e).None? <==> var st := Stack(JoinPath(e.dir, e.name)); st != [] && st[0] == ".."
    ensures EntryPath(e).Some? ==> ".." !in Split(EntryPath(e).value, '/')
  {
    var p := JoinPath(e.dir, e.name);
    var st := Stack(p);
    StackNormal(p);
    if st == [] {
      assert Clean(p) == "/" || Clean(p) == ".";
      assert Split("/", '/') == ["", ""];
      SplitPlain(".", '/');
    } else {
      JoinHead(st);
      SplitJoin(st, '/');
      if Rooted(p) {
        assert Clean(p)[1..] == Join(st, '/');
        assert Split(Clean(p), '/') == [""] + st;
      } else if st[0] != ".." {
        assert Clean(p)[0] == st[0][0];
        PlainNoClimb(st);
      } else if |st| == 1 {
        assert Clean(p) == "..";
      }
    }
  }

  lemma PlainNoClimb(st: seq<string>)
    requires |st| > 0 && Plain(st[0])
    ensures !HasPrefix(Join(st, '/'), "../") && Join(st, '/') != ".."
  {
    SplitJoinHead(st);
    ClimbSplits(Join(st, '/'));
  }

  /** The first segment of a climbing path is the parent. */
  lemma ClimbSplits(j: string)
    ensures HasPrefix(j, "../") || j == ".." ==> Split(j, '/')[0] == ".."
  {
    if HasPrefix(j, "../") {
      assert j == ".." + "/" + j[3..];
      SplitAfter("..", '/', j[3..]);
    } else if j == ".." {
      SplitPlain("..", '/');
    }
  }

  lemma SplitJoinHead(st: seq<string>)
    requires |st| > 0 && '/' !in st[0]
    ensures Split(Join(st, '/'), '/')[0] == st[0]
  {
    if |st| == 1 {
      SplitPlain(st[0], '/');
    } else {
      SplitAfter(st[0], '/', Join(st[1..], '/'));
    }
  }

  lemma {:induction false} RelRelative(fs: seq<Folder>, rank: seq<nat>, root: nat, x: nat)
    requires Ranked(fs, rank) && NamesPlain(fs) && x < |fs|
    ensures Rel(fs, rank, root, x) != "" && !Rooted(Rel(fs, rank, root, x))
    decreases rank[x]
  {
    if x == root || fs[x].parent.None? {
      assert fs[x].name[0] in fs[x].name;
    } else {
      RelRelative(fs, rank, root, fs[x].parent.value);
    }
  }

  /** Unpacking an archive below any directory writes below that directory only: a written name leads from
      there to something reached by plain names, for every shape of the forest and every name in it. */
  lemma UnpacksBelow(fs: seq<Folder>, rank: seq<nat>, files: seq<FileRec>, root: nat, f: nat, cwd: seq<string>)
    requires Ranked(fs, rank) && NamesPlain(fs)
    requires f < |files| && files[f].folder.Some? && files[f].folder.value < |fs|
    requires EntryPath(EntryFor(fs, rank, files, root, f)).Some?
    ensures cwd <= Leads(cwd, EntryPath(EntryFor(fs, rank, files, root, f)).value)
  {
    var e := EntryFor(fs, rank, files, root, f);
    var p := JoinPath(e.dir, e.name);
    RelRelative(fs, rank, root, files[f].folder.value);
    EntryPathSafe(e);
    CleanIdempotent(e.dir + "/" + e.name);
    StackNormal(p);
    CleanLeads(cwd, p);
    JoinSplit(p, '/');
    PushAllWalks(cwd, false, Split(p, '/'));
    WalkPlain(cwd, Stack(p));
  }

  /** The writer loop of streamFolderZip: entries go out in order, and the first one that has no object or
      no safe name ends the archive. */
  method StreamEntries(entries: seq<ZipEntry>, objects: map<nat, Bytes>)
    returns (archive: seq<(string, Bytes)>, complete: bool)
    ensures |archive| <= |entries|
    ensures forall i :: 0 <= i < |archive| ==>
              && entries[i].file in objects && EntryPath(entries[i]).Some?
              && archive[i] == (EntryPath(entries[i]).value, objects[entries[i].file])
              && ".." !in Split(archive[i].0, '/')
    ensures complete <==> |archive| == |entries|
    ensures !complete ==> var e := entries[|archive|]; e.file !in objects || EntryPath(e).None?
  {
    archive := [];
    for k := 0 to |entries|
      invariant |archive| == k
      invariant forall i :: 0 <= i < k ==>
                  && entries[i].file in objects && EntryPath(entries[i]).Some?
                  && archive[i] == (EntryPath(entries[i]).value, objects[entries[i].file])
                  && ".." !in Split(archive[i].0, '/')
    {
      if entries[k].file !in objects {
        return archive, false;
      }
      var name := EntryPath(entries[k]);
      if name.None? {
        return archive, false;
      }
      EntryPathSafe(entries[k]);
      archive := archive + [(name.value, objects[entries[k].file])];
    }
    complete := true;
  }
}
