/** The folder forest (http/folders.go): recursive subtree queries over rows with parent links, and the
    handlers that create, move and soft-delete folders. */
module Folders {
  import opened Types
  import opened Strings

  datatype Folder = Folder(owner: nat, parent: Option<nat>, name: string, deleted: bool)

  /** name is what the folder shows and what is unique there; originalName is the name of the upload. */
  datatype FileRec = FileRec(
    uuid: string, name: string, originalName: string, owner: nat, folder: Option<nat>, deleted: bool)

  /** The WHERE clauses of the recursive queries. */
  datatype Filter = Any | Live | Owned(user: nat) | LiveOwned(user: nat)

  predicate Passes(w: Filter, f: Folder) {
    match w
    case Any => true
    case Live => !f.deleted
    case Owned(u) => f.owner == u
    case LiveOwned(u) => f.owner == u && !f.deleted
  }

  // ---- subtrees ----------------------------------------------------------------------------------

  /** x lies k parent links below root, and every row from root to x passes the filter. */
  predicate AtDepth(fs: seq<Folder>, w: Filter, root: nat, k: nat, x: nat) {
    && x < |fs| && Passes(w, fs[x])
    && if k == 0 then x == root
       else fs[x].parent.Some? && AtDepth(fs, w, root, k - 1, fs[x].parent.value)
  }

  /** The rows of the recursive query, as a set. */
  ghost predicate InTree(fs: seq<Folder>, w: Filter, root: nat, x: nat) {
    exists k: nat :: AtDepth(fs, w, root, k, x)
  }

  /** A ranking that grows along every parent link, deleted folders included. */
  ghost predicate Ranked(fs: seq<Folder>, rank: seq<nat>) {
    && |rank| == |fs|
    && forall x :: 0 <= x < |fs| && fs[x].parent.Some? ==>
         fs[x].parent.value < |fs| && rank[fs[x].parent.value] < rank[x]
  }

  lemma {:induction false} DepthRaisesRank(fs: seq<Folder>, rank: seq<nat>, w: Filter, root: nat, k: nat, x: nat)
    requires Ranked(fs, rank) && AtDepth(fs, w, root, k, x)
    ensures root < |fs| && rank[root] + k <= rank[x]
    decreases k
  {
    if k > 0 {
      DepthRaisesRank(fs, rank, w, root, k - 1, fs[x].parent.value);
    }
  }

  /** A folder is found at one depth only, so UNION ALL yields no row twice. */
  lemma {:induction false} DepthUnique(fs: seq<Folder>, rank: seq<nat>, w: Filter, root: nat, j: nat, k: nat, x: nat)
    requires Ranked(fs, rank) && AtDepth(fs, w, root, j, x) && AtDepth(fs, w, root, k, x)
    ensures j == k
    decreases j
  {
    if j == 0 || k == 0 {
      DepthRaisesRank(fs, rank, w, root, j, x);
      DepthRaisesRank(fs, rank, w, root, k, x);
    } else {
      DepthUnique(fs, rank, w, root, j - 1, k - 1, fs[x].parent.value);
    }
  }

  /** No folder lies below itself. */
  lemma NoCycle(fs: seq<Folder>, rank: seq<nat>, k: nat, x: nat)
    requires Ranked(fs, rank) && k > 0
    ensures !AtDepth(fs, Any, x, k, x)
  {
    if AtDepth(fs, Any, x, k, x) {
      DepthRaisesRank(fs, rank, Any, x, k, x);
    }
  }

  lemma {:induction false} DepthTransitive(fs: seq<Folder>, w: Filter, a: nat, j: nat, b: nat, k: nat, c: nat)
    requires AtDepth(fs, w, a, j, b) && AtDepth(fs, w, b, k, c)
    ensures AtDepth(fs, w, a, j + k, c)
    decreases k
  {
    if k > 0 {
      DepthTransitive(fs, w, a, j, b, k - 1, fs[c].parent.value);
    }
  }

  lemma ChildInTree(fs: seq<Folder>, w: Filter, root: nat, x: nat)
    requires x < |fs| && Passes(w, fs[x]) && fs[x].parent.Some? && InTree(fs, w, root, fs[x].parent.value)
    ensures InTree(fs, w, root, x)
  {
    var k: nat :| AtDepth(fs, w, root, k, fs[x].parent.value);
    assert AtDepth(fs, w, root, k + 1, x);
  }

  lemma ParentInTree(fs: seq<Folder>, w: Filter, root: nat, x: nat)
    requires InTree(fs, w, root, x) && x != root
    ensures x < |fs| && fs[x].parent.Some? && InTree(fs, w, root, fs[x].parent.value)
  {
    var k: nat :| AtDepth(fs, w, root, k, x);
    assert AtDepth(fs, w, root, k - 1, fs[x].parent.value);
  }

  /** Folders linked from parent to child. */
  ghost predicate Links(fs: seq<Folder>, path: seq<nat>) {
    && |path| > 0 && (forall i :: 0 <= i < |path| ==> path[i] < |fs|)
    && forall i :: 0 < i < |path| ==> fs[path[i]].parent == Some(path[i - 1])
  }

  ghost predicate PathTo(fs: seq<Folder>, root: nat, x: nat, path: seq<nat>) {
    Links(fs, path) && path[0] == root && path[|path| - 1] == x
  }

  /** Nothing on the path is deleted, or anybody else's, if the query cares. */
  ghost predicate PathAllowed(fs: seq<Folder>, w: Filter, path: seq<nat>)
    requires Links(fs, path)
  {
    forall i :: 0 <= i < |path| ==>
      && (w.Live? || w.LiveOwned? ==> !fs[path[i]].deleted)
      && (w.Owned? || w.LiveOwned? ==> fs[path[i]].owner == w.user)
  }

  lemma {:induction false} DepthPath(fs: seq<Folder>, w: Filter, root: nat, k: nat, x: nat) returns (path: seq<nat>)
    requires AtDepth(fs, w, root, k, x)
    ensures PathTo(fs, root, x, path) && |path| == k + 1 && PathAllowed(fs, w, path)
    decreases k
  {
    if k == 0 {
      path := [x];
    } else {
      path := DepthPath(fs, w, root, k - 1, fs[x].parent.value);
      path := path + [x];
    }
  }

  lemma {:induction false} PathDepth(fs: seq<Folder>, w: Filter, root: nat, x: nat, path: seq<nat>)
    requires PathTo(fs, root, x, path) && PathAllowed(fs, w, path)
    ensures AtDepth(fs, w, root, |path| - 1, x)
    decreases |path|
  {
    if |path| > 1 {
      var front := path[..|path| - 1];
      assert fs[path[|path| - 1]].parent == Some(front[|front| - 1]);
      PathDepth(fs, w, root, front[|front| - 1], front);
    }
  }

  /** The rows of the recursive query are exactly those a chain of parent links leads to, every row of which the
      query's filter lets pass. */
  lemma TreeByPaths(fs: seq<Folder>, w: Filter, root: nat, x: nat)
    ensures InTree(fs, w, root, x) <==> exists path :: PathTo(fs, root, x, path) && PathAllowed(fs, w, path)
  {
    if k: nat :| AtDepth(fs, w, root, k, x) {
      var path := DepthPath(fs, w, root, k, x);
    }
    if path :| PathTo(fs, root, x, path) && PathAllowed(fs, w, path) {
      PathDepth(fs, w, root, x, path);
    }
  }

  // ---- the forest --------------------------------------------------------------------------------

  /** A child belongs to its parent's owner, and the parent of a live folder is live. */
  ghost predicate Nested(fs: seq<Folder>) {
    forall x :: 0 <= x < |fs| && fs[x].parent.Some? && fs[x].parent.value < |fs| ==>
      && fs[x].owner == fs[fs[x].parent.value].owner
      && (!fs[x].deleted ==> !fs[fs[x].parent.value].deleted)
  }

  /** uq_folders_owner_parent_name_active: live siblings below one parent differ in name; a NULL parent
      is distinct from every other. */
  ghost predicate NamesUnique(fs: seq<Folder>) {
    forall x, y :: 0 <= x < y < |fs| && !fs[x].deleted && !fs[y].deleted && SameParent(fs[x], fs[y]) ==>
      fs[x].name != fs[y].name
  }

  predicate SameParent(f: Folder, g: Folder) {
    f.parent.Some? && f.parent == g.parent && f.owner == g.owner
  }

  predicate Clashes(fs: seq<Folder>, owner: nat, parent: Option<nat>, name: string, self: nat) {
    parent.Some? && exists x | 0 <= x < |fs| ::
      x != self && !fs[x].deleted && fs[x].owner == owner && fs[x].parent == parent && fs[x].name == name
  }

  ghost predicate FilesNested(fs: seq<Folder>, files: seq<FileRec>) {
    forall f :: 0 <= f < |files| && files[f].folder.Some? ==>
      files[f].folder.value < |fs| && files[f].owner == fs[files[f].folder.value].owner
  }

  /** uq_files_owner_folder_name_active: likewise for live files in one folder. */
  ghost predicate FileNamesUnique(files: seq<FileRec>) {
    forall f, g :: 0 <= f < g < |files| && !files[f].deleted && !files[g].deleted && SameFolder(files[f], files[g]) ==>
      files[f].name != files[g].name
  }

  predicate SameFolder(f: FileRec, g: FileRec) {
    f.folder.Some? && f.folder == g.folder && f.owner == g.owner
  }

  predicate FileClashes(files: seq<FileRec>, owner: nat, folder: Option<nat>, name: string, self: nat) {
    folder.Some? && exists f | 0 <= f < |files| ::
      f != self && !files[f].deleted && files[f].owner == owner && files[f].folder == folder && files[f].name == name
  }

  ghost predicate NamesPlain(fs: seq<Folder>) {
    forall x :: 0 <= x < |fs| ==> fs[x].name != "" && '/' !in fs[x].name && '\\' !in fs[x].name
  }

  ghost predicate Forest(fs: seq<Folder>, files: seq<FileRec>, rank: seq<nat>) {
    Ranked(fs, rank) && Nested(fs) && NamesUnique(fs) && NamesPlain(fs) && FilesNested(fs, files)
    && FileNamesUnique(files)
  }

  /** What no two live rows share: the place and the name, below one parent and within one folder. */
  lemma LiveNamesDiffer(fs: seq<Folder>, files: seq<FileRec>, rank: seq<nat>)
    requires Forest(fs, files, rank)
    ensures forall x, y | 0 <= x < |fs| && 0 <= y < |fs| && x != y && !fs[x].deleted && !fs[y].deleted ::
      fs[x].parent.Some? && fs[x].parent == fs[y].parent ==> fs[x].name != fs[y].name
    ensures forall f, g | 0 <= f < |files| && 0 <= g < |files| && f != g && !files[f].deleted && !files[g].deleted ::
      files[f].folder.Some? && files[f].folder == files[g].folder ==> files[f].name != files[g].name
  {
    forall x, y | 0 <= x < y < |fs| && !fs[x].deleted && !fs[y].deleted && fs[x].parent.Some? && fs[x].parent == fs[y].parent
      ensures fs[x].name != fs[y].name
    {
      assert SameParent(fs[x], fs[y]);
    }
    forall f, g | 0 <= f < g < |files| && !files[f].deleted && !files[g].deleted && files[f].folder.Some?
        && files[f].folder == files[g].folder
      ensures files[f].name != files[g].name
    {
      assert SameFolder(files[f], files[g]);
    }
  }

  /** Below a folder everything belongs to one owner, and above a live folder everything is live: the
      live rows of the full subtree are just the rows the filtered query finds. */
  lemma {:induction false} LivePart(fs: seq<Folder>, root: nat, k: nat, x: nat)
    requires Nested(fs) && AtDepth(fs, Any, root, k, x)
    ensures root < |fs| && fs[x].owner == fs[root].owner
    ensures !fs[x].deleted ==> !fs[root].deleted && AtDepth(fs, LiveOwned(fs[root].owner), root, k, x)
    decreases k
  {
    if k > 0 {
      LivePart(fs, root, k - 1, fs[x].parent.value);
    }
  }

  lemma {:induction false} Weaken(fs: seq<Folder>, w: Filter, v: Filter, root: nat, k: nat, x: nat)
    requires AtDepth(fs, w, root, k, x)
    requires forall f :: Passes(w, f) ==> Passes(v, f)
    ensures AtDepth(fs, v, root, k, x)
    decreases k
  {
    if k > 0 {
      Weaken(fs, w, v, root, k - 1, fs[x].parent.value);
    }
  }

  /** Three ways to say the same: the live owned query, the live query, and the live rows of the full
      subtree. */
  lemma TreesAgree(fs: seq<Folder>, root: nat, x: nat)
    requires Nested(fs) && root < |fs| && x < |fs|
    ensures InTree(fs, LiveOwned(fs[root].owner), root, x) <==> InTree(fs, Any, root, x) && !fs[x].deleted
    ensures InTree(fs, Live, root, x) <==> InTree(fs, Any, root, x) && !fs[x].deleted
    ensures InTree(fs, Owned(fs[root].owner), root, x) <==> InTree(fs, Any, root, x)
  {
    var u := fs[root].owner;
    if k: nat :| AtDepth(fs, LiveOwned(u), root, k, x) {
      Weaken(fs, LiveOwned(u), Any, root, k, x);
      Weaken(fs, LiveOwned(u), Live, root, k, x);
    }
    if k: nat :| AtDepth(fs, Live, root, k, x) {
      Weaken(fs, Live, Any, root, k, x);
    }
    if k: nat :| AtDepth(fs, Owned(u), root, k, x) {
      Weaken(fs, Owned(u), Any, root, k, x);
    }
    if k: nat :| AtDepth(fs, Any, root, k, x) {
      LivePart(fs, root, k, x);
      OwnedPart(fs, root, k, x);
      if !fs[x].deleted {
        Weaken(fs, LiveOwned(u), Live, root, k, x);
      }
    }
  }

  lemma {:induction false} OwnedPart(fs: seq<Folder>, root: nat, k: nat, x: nat)
    requires Nested(fs) && AtDepth(fs, Any, root, k, x)
    ensures root < |fs| && AtDepth(fs, Owned(fs[root].owner), root, k, x)
    decreases k
  {
    if k > 0 {
      OwnedPart(fs, root, k - 1, fs[x].parent.value);
    }
    LivePart(fs, root, k, x);
  }

  // ---- WITH RECURSIVE ... UNION ALL ----------------------------------------------------------------

  ghost predicate AllAtDepth(fs: seq<Folder>, w: Filter, root: nat, k: nat, level: seq<nat>) {
    && (forall i, j :: 0 <= i < j < |level| ==> level[i] != level[j])
    && (forall x: nat :: x in level <==> AtDepth(fs, w, root, k, x))
  }

  /** One iteration: the rows joined to the working table by their parent. */
  method NextLevel(fs: seq<Folder>, w: Filter, ghost root: nat, ghost k: nat, working: seq<nat>) returns (next: seq<nat>)
    requires AllAtDepth(fs, w, root, k, working)
    ensures AllAtDepth(fs, w, root, k + 1, next)
  {
    next := [];
    for i := 0 to |fs|
      invariant forall a, b :: 0 <= a < b < |next| ==> next[a] != next[b]
      invariant forall x: nat :: x in next <==> x < i && AtDepth(fs, w, root, k + 1, x)
    {
      for j := 0 to |working|
        invariant forall a, b :: 0 <= a < b < |next| ==> next[a] != next[b]
        invariant forall x: nat :: x in next <==>
                    || (x < i && AtDepth(fs, w, root, k + 1, x))
                    || (x == i && Passes(w, fs[i]) && fs[i].parent.Some? && fs[i].parent.value in working[..j])
      {
        if fs[i].parent == Some(working[j]) && Passes(w, fs[i]) {
          assert i !in next;
          next := next + [i];
        }
        assert working[..j + 1] == working[..j] + [working[j]];
      }
      assert working[..|working|] == working;
    }
  }

  ghost predicate WithinDepth(fs: seq<Folder>, w: Filter, root: nat, k: nat, x: nat) {
    exists j: nat :: j <= k && AtDepth(fs, w, root, j, x)
  }

  lemma OneDeeper(fs: seq<Folder>, w: Filter, root: nat, k: nat, x: nat)
    ensures WithinDepth(fs, w, root, k + 1, x) <==> WithinDepth(fs, w, root, k, x) || AtDepth(fs, w, root, k + 1, x)
  {
    if WithinDepth(fs, w, root, k + 1, x) {
      var j: nat :| j <= k + 1 && AtDepth(fs, w, root, j, x);
      assert j <= k || AtDepth(fs, w, root, k + 1, x);
    }
    if WithinDepth(fs, w, root, k, x) {
      var j: nat :| j <= k && AtDepth(fs, w, root, j, x);
      assert j <= k + 1;
    }
  }

  lemma NoRepeats(a: seq<nat>, b: seq<nat>)
    requires forall i, j :: 0 <= i < j < |a| ==> a[i] != a[j]
    requires forall i, j :: 0 <= i < j < |b| ==> b[i] != b[j]
    requires forall x: nat :: x in b ==> x !in a
    ensures forall i, j :: 0 <= i < j < |a + b| ==> (a + b)[i] != (a + b)[j]
  {
    forall i, j | 0 <= i < j < |a + b| ensures (a + b)[i] != (a + b)[j] {
      if i < |a| <= j {
        assert a[i] in a && b[j - |a|] in b;
      }
    }
  }

  /** The whole query.  It terminates on every forest, whatever its filter, and returns each row once. */
  method RecursiveQuery(fs: seq<Folder>, w: Filter, root: nat, ghost rank: seq<nat>) returns (rows: seq<nat>)
    requires Ranked(fs, rank)
    ensures forall x: nat :: x in rows <==> InTree(fs, w, root, x)
    ensures forall i, j :: 0 <= i < j < |rows| ==> rows[i] != rows[j]
  {
    ghost var bound := MaxRank(rank);
    ghost var k: nat := 0;
    var working: seq<nat> := if root < |fs| && Passes(w, fs[root]) then [root] else [];
    rows := working;
    while working != []
      invariant AllAtDepth(fs, w, root, k, working)
      invariant forall x: nat :: x in rows <==> WithinDepth(fs, w, root, k, x)
      invariant forall i, j :: 0 <= i < j < |rows| ==> rows[i] != rows[j]
      decreases bound + 1 - k
    {
      assert working[0] in working;
      DepthRaisesRank(fs, rank, w, root, k, working[0]);
      var next := NextLevel(fs, w, root, k, working);
      forall x: nat | x in next ensures x !in rows {
        if x in rows {
          var j: nat :| j <= k && AtDepth(fs, w, root, j, x);
          DepthUnique(fs, rank, w, root, j, k + 1, x);
        }
      }
      forall x: nat
        ensures WithinDepth(fs, w, root, k + 1, x) <==> WithinDepth(fs, w, root, k, x) || AtDepth(fs, w, root, k + 1, x)
      {
        OneDeeper(fs, w, root, k, x);
      }
      NoRepeats(rows, next);
      rows := rows + next;
      working := next;
      k := k + 1;
    }
    forall x, j: nat | AtDepth(fs, w, root, j, x) ensures x in rows {
      NothingBelow(fs, w, root, k, j, x);
    }
  }

  /** An empty level has only empty levels below it. */
  lemma {:induction false} NothingBelow(fs: seq<Folder>, w: Filter, root: nat, k: nat, j: nat, x: nat)
    requires forall y: nat :: !AtDepth(fs, w, root, k, y)
    requires AtDepth(fs, w, root, j, x)
    ensures j < k
    decreases j
  {
    if j > k {
      NothingBelow(fs, w, root, k, j - 1, fs[x].parent.value);
    }
  }

  ghost function MaxRank(rank: seq<nat>): (m: nat)
    ensures forall x :: 0 <= x < |rank| ==> rank[x] <= m
  {
    if |rank| == 0 then 0 else Max(rank[|rank| - 1], MaxRank(rank[..|rank| - 1]))
  }

  // ---- moving a subtree ---------------------------------------------------------------------------

  /** The whole subtree of the moved folder is ranked above its new parent. */
  ghost function Reranked(fs: seq<Folder>, rank: seq<nat>, moved: nat, parent: nat): (r: seq<nat>)
    requires |rank| == |fs| && parent < |fs|
    ensures |r| == |fs|
  {
    seq(|fs|, x requires 0 <= x < |fs| => if InTree(fs, Any, moved, x) then rank[x] + rank[parent] + 1 else rank[x])
  }

  lemma MoveKeepsRanked(fs: seq<Folder>, rank: seq<nat>, moved: nat, parent: nat)
    requires Ranked(fs, rank) && moved < |fs| && parent < |fs| && !InTree(fs, Any, moved, parent)
    ensures Ranked(fs[moved := fs[moved].(parent := Some(parent))], Reranked(fs, rank, moved, parent))
  {
    var gs := fs[moved := fs[moved].(parent := Some(parent))];
    var r := Reranked(fs, rank, moved, parent);
    assert AtDepth(fs, Any, moved, 0, moved);
    forall x | 0 <= x < |gs| && gs[x].parent.Some?
      ensures gs[x].parent.value < |gs| && r[gs[x].parent.value] < r[x]
    {
      if x != moved {
        var q := fs[x].parent.value;
        if InTree(fs, Any, moved, q) {
          ChildInTree(fs, Any, moved, x);
        }
        if InTree(fs, Any, moved, x) {
          ParentInTree(fs, Any, moved, x);
        }
      }
    }
  }

  /** Empty tables are a forest. */
  lemma EmptyForest(fs: seq<Folder>, files: seq<FileRec>, rank: seq<nat>)
    requires |fs| == 0 && |files| == 0 && |rank| == 0
    ensures Forest(fs, files, rank)
  {
    assert Ranked(fs, rank) && Nested(fs);
  }

  /** Folder rows never change hands or disappear. */
  predicate OwnersKept(fs: seq<Folder>, gs: seq<Folder>) {
    |fs| <= |gs| && forall x :: 0 <= x < |fs| ==> gs[x].owner == fs[x].owner
  }

  /** No live folder and no live file anywhere in the full subtree. */
  ghost predicate NothingLiveBelow(fs: seq<Folder>, files: seq<FileRec>, root: nat) {
    && (forall x: nat :: InTree(fs, Any, root, x) ==> x < |fs| && fs[x].deleted)
    && (forall f :: 0 <= f < |files| && files[f].folder.Some? ==>
          InTree(fs, Any, root, files[f].folder.value) ==> files[f].deleted)
  }

  lemma AppendKeepsForest(fs: seq<Folder>, files: seq<FileRec>, rank: seq<nat>, f: Folder, r: nat)
    requires Forest(fs, files, rank) && !f.deleted
    requires f.name != "" && '/' !in f.name && '\\' !in f.name
    requires f.parent.Some? ==>
               f.parent.value < |fs| && Passes(LiveOwned(f.owner), fs[f.parent.value]) && rank[f.parent.value] < r
    requires !Clashes(fs, f.owner, f.parent, f.name, |fs|)
    ensures Forest(fs + [f], files, rank + [r])
  {
    var gs := fs + [f];
    assert forall x :: 0 <= x < |fs| ==> gs[x] == fs[x];
    assert NamesUnique(gs);
  }

  /** Exactly the rows of the full subtree are deleted on top of those that were. */
  ghost predicate FoldersDeleted(fs: seq<Folder>, gs: seq<Folder>, root: nat) {
    && |gs| == |fs|
    && forall x :: 0 <= x < |fs| ==> gs[x] == fs[x].(deleted := fs[x].deleted || InTree(fs, Any, root, x))
  }

  /** Exactly the files in the full subtree are deleted on top of those that were. */
  ghost predicate FilesDeleted(fs: seq<Folder>, files: seq<FileRec>, hs: seq<FileRec>, root: nat) {
    && |hs| == |files|
    && forall f :: 0 <= f < |files| ==>
         hs[f] == files[f].(deleted := files[f].deleted || (files[f].folder.Some? && InTree(fs, Any, root, files[f].folder.value)))
  }

  lemma DeletionKeepsForest(fs: seq<Folder>, files: seq<FileRec>, rank: seq<nat>, gs: seq<Folder>, hs: seq<FileRec>, root: nat)
    requires Forest(fs, files, rank) && FoldersDeleted(fs, gs, root) && FilesDeleted(fs, files, hs, root)
    ensures Forest(gs, hs, rank) && NothingLiveBelow(gs, hs, root)
  {
    SubtreeClosed(fs, root);
    assert Ranked(gs, rank) && Nested(gs);
    assert NamesUnique(gs) && NamesPlain(gs) && FilesNested(gs, hs);
    forall x: nat | InTree(gs, Any, root, x) ensures InTree(fs, Any, root, x) {
      SameLinks(fs, gs, root, x);
    }
  }

  // ---- the handlers ------------------------------------------------------------------------------

  class FolderStore {
    var folders: seq<Folder>
    var files: seq<FileRec>
    ghost var rank: seq<nat>

    ghost predicate Valid()
      reads this
    {
      Forest(folders, files, rank)
    }

    /** Opens a store on tables that form a forest. */
    constructor (fs: seq<Folder>, fileRecs: seq<FileRec>, ghost ranking: seq<nat>)
      requires Forest(fs, fileRecs, ranking)
      ensures Valid() && folders == fs && files == fileRecs
    {
      folders, files, rank := fs, fileRecs, ranking;
    }

    /** validateParentOwnership. */
    predicate ParentAllowed(user: nat, parent: Option<nat>)
      reads this
    {
      parent.None? || (parent.value < |folders| && Passes(LiveOwned(user), folders[parent.value]))
    }

    method CreateFolder(user: nat, parent: Option<nat>, rawName: string) returns (code: nat, id: nat)
      requires Valid()
      modifies this
      ensures Valid() && files == old(files) && OwnersKept(old(folders), folders)
      ensures code in {201, 400, 409}
      ensures code == 400 <==>
                || NormalizeNodeName(rawName) == ""
                || (parent.Some? && (parent.value >= |old(folders)| || old(folders)[parent.value].owner != user
                                     || old(folders)[parent.value].deleted))
      ensures code == 409 <==>
                && code != 400 && parent.Some?
                && exists x :: 0 <= x < |old(folders)| && !old(folders)[x].deleted && old(folders)[x].owner == user
                     && old(folders)[x].parent == parent && old(folders)[x].name == NormalizeNodeName(rawName)
      ensures code == 201 ==>
                id == |old(folders)| && folders == old(folders) + [Folder(user, parent, NormalizeNodeName(rawName), false)]
      ensures code != 201 ==> folders == old(folders)
    {
      id := |folders|;
      var name := NormalizeNodeName(rawName);
      NormalizedPlain(rawName);
      if name == "" || !ParentAllowed(user, parent) {
        return 400, id;
      }
      if Clashes(folders, user, parent, name, |folders|) {
        return 409, id;
      }
      ghost var r: nat := if parent.Some? then rank[parent.value] + 1 else 0;
      AppendKeepsForest(folders, files, rank, Folder(user, parent, name, false), r);
      rank := rank + [r];
      folders := folders + [Folder(user, parent, name, false)];
      code := 201;
    }

    /** The INSERT of a file by an upload: its folder was checked when the upload began and may have been
        deleted since. */
    method AddFile(uuid: string, name: string, originalName: string, user: nat, folder: Option<nat>) returns (code: nat)
      requires Valid() && (folder.Some? ==> folder.value < |folders| && folders[folder.value].owner == user)
      modifies this
      ensures Valid() && folders == old(folders)
      ensures code == 201 || code == 409
      ensures code == 409 <==>
                && folder.Some?
                && exists g :: 0 <= g < |old(files)| && !old(files)[g].deleted && old(files)[g].owner == user
                     && old(files)[g].folder == folder && old(files)[g].name == name
      ensures code == 201 ==> files == old(files) + [FileRec(uuid, name, originalName, user, folder, false)]
      ensures code == 409 ==> files == old(files)
    {
      if FileClashes(files, user, folder, name, |files|) {
        return 409;
      }
      files := files + [FileRec(uuid, name, originalName, user, folder, false)];
      code := 201;
    }

    method RenameFile(user: nat, f: nat, rawName: string) returns (code: nat)
      requires Valid()
      modifies this
      ensures Valid() && folders == old(folders)
      ensures code in {200, 400, 404, 409}
      ensures code == 400 <==> NormalizeNodeName(rawName) == ""
      ensures code == 404 <==> code != 400 && !(f < |old(files)| && old(files)[f].owner == user && !old(files)[f].deleted)
      ensures code == 409 <==>
                && code !in {400, 404} && old(files)[f].folder.Some?
                && exists g :: 0 <= g < |old(files)| && g != f && !old(files)[g].deleted && old(files)[g].owner == user
                     && old(files)[g].folder == old(files)[f].folder && old(files)[g].name == NormalizeNodeName(rawName)
      ensures code == 200 ==> files == old(files)[f := old(files)[f].(name := NormalizeNodeName(rawName))]
      ensures code != 200 ==> files == old(files)
    {
      var name := NormalizeNodeName(rawName);
      if name == "" {
        return 400;
      }
      if !(f < |files| && files[f].owner == user && !files[f].deleted) {
        return 404;
      }
      if FileClashes(files, user, files[f].folder, name, f) {
        return 409;
      }
      files := files[f := files[f].(name := name)];
      code := 200;
    }

    method RenameFolder(user: nat, id: nat, rawName: string) returns (code: nat)
      requires Valid()
      modifies this
      ensures Valid() && files == old(files) && OwnersKept(old(folders), folders)
      ensures code in {200, 400, 404, 409}
      ensures code == 400 <==> NormalizeNodeName(rawName) == ""
      ensures code == 404 <==> code != 400 && !(id < |old(folders)| && old(folders)[id].owner == user && !old(folders)[id].deleted)
      ensures code == 409 <==>
                && code !in {400, 404} && old(folders)[id].parent.Some?
                && exists x :: 0 <= x < |old(folders)| && x != id && !old(folders)[x].deleted && old(folders)[x].owner == user
                     && old(folders)[x].parent == old(folders)[id].parent && old(folders)[x].name == NormalizeNodeName(rawName)
      ensures code == 200 ==> folders == old(folders)[id := old(folders)[id].(name := NormalizeNodeName(rawName))]
      ensures code != 200 ==> folders == old(folders)
    {
      var name := NormalizeNodeName(rawName);
      NormalizedPlain(rawName);
      if name == "" {
        return 400;
      }
      if !(id < |folders| && Passes(LiveOwned(user), folders[id])) {
        return 404;
      }
      if Clashes(folders, user, folders[id].parent, name, id) {
        return 409;
      }
      folders := folders[id := folders[id].(name := name)];
      code := 200;
    }

    method MoveFile(user: nat, f: nat, folder: Option<nat>) returns (code: nat)
      requires Valid()
      modifies this
      ensures Valid() && folders == old(folders)
      ensures code in {200, 400, 404, 409}
      ensures code == 400 <==>
                folder.Some? && (folder.value >= |old(folders)| || old(folders)[folder.value].owner != user
                                 || old(folders)[folder.value].deleted)
      ensures code == 404 <==> code != 400 && !(f < |old(files)| && old(files)[f].owner == user && !old(files)[f].deleted)
      ensures code == 409 <==>
                && code !in {400, 404} && folder.Some?
                && exists g :: 0 <= g < |old(files)| && g != f && !old(files)[g].deleted && old(files)[g].owner == user
                     && old(files)[g].folder == folder && old(files)[g].name == old(files)[f].name
      ensures code == 200 ==> files == old(files)[f := old(files)[f].(folder := folder)]
      ensures code == 200 && folder.Some? ==> !folders[folder.value].deleted
      ensures code != 200 ==> files == old(files)
    {
      if !ParentAllowed(user, folder) {
        return 400;
      }
      if !(f < |files| && files[f].owner == user && !files[f].deleted) {
        return 404;
      }
      if FileClashes(files, user, folder, files[f].name, f) {
        return 409;
      }
      files := files[f := files[f].(folder := folder)];
      code := 200;
    }

    method MoveFolder(user: nat, id: nat, parent: Option<nat>) returns (code: nat)
      requires Valid()
      modifies this
      ensures Valid() && files == old(files) && OwnersKept(old(folders), folders)
      ensures code in {200, 400, 404, 409}
      ensures code == 400 <==>
                && parent.Some?
                && (|| parent.value >= |old(folders)| || old(folders)[parent.value].owner != user
                    || old(folders)[parent.value].deleted
                    || id == parent.value
                    || (id < |old(folders)| && old(folders)[id].owner == user && !old(folders)[id].deleted
                        && InTree(old(folders), Any, id, parent.value)))
      ensures code == 404 <==> code != 400 && !(id < |old(folders)| && old(folders)[id].owner == user && !old(folders)[id].deleted)
      ensures code == 409 <==>
                && code !in {400, 404} && parent.Some?
                && exists x :: 0 <= x < |old(folders)| && x != id && !old(folders)[x].deleted && old(folders)[x].owner == user
                     && old(folders)[x].parent == parent && old(folders)[x].name == old(folders)[id].name
      ensures code == 200 ==> folders == old(folders)[id := old(folders)[id].(parent := parent)]
      ensures code != 200 ==> folders == old(folders)
    {
      if (parent.Some? && parent.value == id) || !ParentAllowed(user, parent) {
        return 400;
      }
      var live := id < |folders| && Passes(LiveOwned(user), folders[id]);
      if parent.Some? {
        var subtree := RecursiveQuery(folders, LiveOwned(user), id, rank);
        if live {
          TreesAgree(folders, id, parent.value);
        } else if k: nat :| AtDepth(folders, LiveOwned(user), id, k, parent.value) {
          RootPasses(folders, LiveOwned(user), id, k, parent.value);
        }
        if parent.value in subtree {
          return 400;
        }
      }
      if !live {
        return 404;
      }
      if Clashes(folders, user, parent, folders[id].name, id) {
        return 409;
      }
      if parent.Some? {
        MoveKeepsRanked(folders, rank, id, parent.value);
        rank := Reranked(folders, rank, id, parent.value);
      }
      folders := folders[id := folders[id].(parent := parent)];
      code := 200;
    }

    method DeleteFolder(user: nat, id: nat) returns (code: nat)
      requires Valid()
      modifies this
      ensures Valid() && OwnersKept(old(folders), folders)
      ensures code == 200 || code == 404
      ensures code == 200 <==> id < |old(folders)| && old(folders)[id].owner == user && !old(folders)[id].deleted
      ensures code == 404 ==> folders == old(folders) && files == old(files)
      ensures code == 200 ==> FoldersDeleted(old(folders), folders, id) && FilesDeleted(old(folders), old(files), files, id)
      ensures code == 200 ==> NothingLiveBelow(folders, files, id)
    {
      if !(id < |folders| && Passes(LiveOwned(user), folders[id])) {
        return 404;
      }
      ghost var before, filesBefore := folders, files;
      MarkFolders(user, id);
      MarkFiles(user, id, before);
      DeletionKeepsForest(before, filesBefore, rank, folders, files, id);
      code := 200;
    }

    /** The first UPDATE of deleteFolder: the live owned subtree. */
    method MarkFolders(user: nat, id: nat)
      requires Valid() && id < |folders| && folders[id].owner == user
      modifies this`folders
      ensures FoldersDeleted(old(folders), folders, id)
    {
      var gone := RecursiveQuery(folders, LiveOwned(user), id, rank);
      forall x | 0 <= x < |folders| ensures x in gone <==> InTree(folders, Any, id, x) && !folders[x].deleted {
        TreesAgree(folders, id, x);
      }
      folders := seq(|folders|, x requires 0 <= x < |folders| reads this =>
                   if x in gone then folders[x].(deleted := true) else folders[x]);
    }

    /** The second UPDATE: the owner's files over the unfiltered subtree, whose folders are deleted by now. */
    method MarkFiles(user: nat, id: nat, ghost before: seq<Folder>)
      requires Forest(before, files, rank) && FoldersDeleted(before, folders, id)
      requires id < |folders| && folders[id].owner == user
      modifies this`files
      ensures FilesDeleted(before, old(files), files, id)
    {
      var all := RecursiveQuery(folders, Owned(user), id, rank);
      forall x: nat ensures x in all <==> InTree(before, Any, id, x) {
        OwnedSubtree(before, folders, id, x);
      }
      FilesOfTree(before, files, id);
      files := seq(|files|, f requires 0 <= f < |files| reads this =>
                 if files[f].owner == user && !files[f].deleted && files[f].folder.Some? && files[f].folder.value in all
                 then files[f].(deleted := true) else files[f]);
    }
  }

  /** The unfiltered query is not disturbed by the deletions before it. */
  lemma OwnedSubtree(fs: seq<Folder>, gs: seq<Folder>, id: nat, x: nat)
    requires Nested(fs) && FoldersDeleted(fs, gs, id) && id < |fs|
    ensures InTree(gs, Owned(gs[id].owner), id, x) <==> InTree(fs, Any, id, x)
  {
    SubtreeClosed(fs, id);
    SameLinks(fs, gs, id, x);
    if x < |fs| {
      assert Nested(gs);
      TreesAgree(gs, id, x);
    }
  }

  lemma {:induction false} RootPasses(fs: seq<Folder>, w: Filter, root: nat, k: nat, x: nat)
    requires AtDepth(fs, w, root, k, x)
    ensures root < |fs| && Passes(w, fs[root])
    decreases k
  {
    if k > 0 {
      RootPasses(fs, w, root, k - 1, fs[x].parent.value);
    }
  }

  /** Deleting rows leaves the links, and so the full subtrees, alone. */
  lemma {:induction false} SameLinksAt(fs: seq<Folder>, gs: seq<Folder>, root: nat, k: nat, x: nat)
    requires |fs| == |gs| && forall i :: 0 <= i < |fs| ==> fs[i].parent == gs[i].parent
    ensures AtDepth(fs, Any, root, k, x) <==> AtDepth(gs, Any, root, k, x)
    decreases k
  {
    if k > 0 && x < |fs| && fs[x].parent.Some? {
      SameLinksAt(fs, gs, root, k - 1, fs[x].parent.value);
    }
  }

  lemma SameLinks(fs: seq<Folder>, gs: seq<Folder>, root: nat, x: nat)
    requires |fs| == |gs| && forall i :: 0 <= i < |fs| ==> fs[i].parent == gs[i].parent
    ensures InTree(fs, Any, root, x) <==> InTree(gs, Any, root, x)
  {
    forall k: nat ensures AtDepth(fs, Any, root, k, x) <==> AtDepth(gs, Any, root, k, x) {
      SameLinksAt(fs, gs, root, k, x);
    }
  }

  /** The subtree is closed under children, so no live folder is left below a deleted one. */
  lemma SubtreeClosed(fs: seq<Folder>, id: nat)
    ensures forall x :: 0 <= x < |fs| && fs[x].parent.Some? && InTree(fs, Any, id, fs[x].parent.value) ==> InTree(fs, Any, id, x)
  {
    forall x | 0 <= x < |fs| && fs[x].parent.Some? && InTree(fs, Any, id, fs[x].parent.value)
      ensures InTree(fs, Any, id, x)
    {
      ChildInTree(fs, Any, id, x);
    }
  }

  /** Every file in the subtree belongs to the owner of its root. */
  lemma FilesOfTree(fs: seq<Folder>, files: seq<FileRec>, id: nat)
    requires Nested(fs) && FilesNested(fs, files) && id < |fs|
    ensures forall f :: 0 <= f < |files| && files[f].folder.Some? && InTree(fs, Any, id, files[f].folder.value) ==>
              files[f].owner == fs[id].owner
  {
    forall f | 0 <= f < |files| && files[f].folder.Some? && InTree(fs, Any, id, files[f].folder.value)
      ensures files[f].owner == fs[id].owner
    {
      var k: nat :| AtDepth(fs, Any, id, k, files[f].folder.value);
      LivePart(fs, id, k, files[f].folder.value);
    }
  }
}
