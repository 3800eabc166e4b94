/** Public shares (http/shares.go): what a visitor can list, fetch and download through one share. */
module Shares {
  import opened Types
  import opened Strings
  import opened Folders
  import opened Zip
  import opened Ordering

  datatype Target = FileTarget(id: nat) | FolderTarget(id: nat)

  datatype Share = Share(owner: nat, target: Target)

  datatype Item = FolderItem(id: nat) | FileItem(id: nat)

  /** A live folder of the user or a live file of the user. */
  predicate OwnLiveTarget(fs: seq<Folder>, files: seq<FileRec>, user: nat, t: Target) {
    match t
    case FileTarget(f) => f < |files| && files[f].owner == user && !files[f].deleted
    case FolderTarget(x) => x < |fs| && Passes(LiveOwned(user), fs[x])
  }

  /** What stays true of a folder share whatever happens to the folder: rows keep their owner. */
  predicate OwnFolder(fs: seq<Folder>, s: Share) {
    s.target.FolderTarget? && s.target.id < |fs| && fs[s.target.id].owner == s.owner
  }

  // ---- browsing ---------------------------------------------------------------------------------

  /** The rows of the two listing queries for one folder. */
  predicate Listed(fs: seq<Folder>, files: seq<FileRec>, shown: nat, it: Item) {
    match it
    case FolderItem(x) => x < |fs| && !fs[x].deleted && fs[x].parent == Some(shown)
    case FileItem(f) => f < |files| && !files[f].deleted && files[f].folder == Some(shown)
  }

  /** The requests publicShareItems answers: without a parentId always, otherwise inside the live tree. */
  ghost predicate Accepted(fs: seq<Folder>, s: Share, parentId: Option<nat>) {
    s.target.FolderTarget? && (parentId.Some? ==> InTree(fs, Live, s.target.id, parentId.value))
  }

  function Shown(s: Share, parentId: Option<nat>): nat {
    if parentId.Some? then parentId.value else s.target.id
  }

  function FolderName(fs: seq<Folder>, x: nat): string {
    if x < |fs| then fs[x].name else ""
  }

  function FileName(files: seq<FileRec>, f: nat): string {
    if f < |files| then files[f].name else ""
  }

  function ItemName(fs: seq<Folder>, files: seq<FileRec>, it: Item): string {
    match it
    case FolderItem(x) => FolderName(fs, x)
    case FileItem(f) => FileName(files, f)
  }

  /** Folders before files, each ordered by name. */
  ghost predicate InListOrder(fs: seq<Folder>, files: seq<FileRec>, items: seq<Item>, collate: (string, string) -> bool) {
    forall i, j :: 0 <= i < j < |items| ==>
      && (items[i].FileItem? ==> items[j].FileItem?)
      && (items[i].FileItem? == items[j].FileItem? ==> collate(ItemName(fs, files, items[i]), ItemName(fs, files, items[j])))
  }

  function ByName(fs: seq<Folder>, files: seq<FileRec>, collate: (string, string) -> bool): (Item, Item) -> bool {
    (a: Item, b: Item) => collate(ItemName(fs, files, a), ItemName(fs, files, b))
  }

  lemma ByNameOrders(fs: seq<Folder>, files: seq<FileRec>, collate: (string, string) -> bool)
    requires TotalPreorder(collate)
    ensures TotalPreorder(ByName(fs, files, collate))
  {
    var leq := ByName(fs, files, collate);
    forall a, b ensures leq(a, b) || leq(b, a) {
      assert collate(ItemName(fs, files, a), ItemName(fs, files, b)) || collate(ItemName(fs, files, b), ItemName(fs, files, a));
    }
    forall a, b, c | leq(a, b) && leq(b, c) ensures leq(a, c) {
      assert collate(ItemName(fs, files, a), ItemName(fs, files, b)) && collate(ItemName(fs, files, b), ItemName(fs, files, c));
    }
  }

  /** The two queries of one page, each with its ORDER BY name. */
  method FolderRows(fs: seq<Folder>, files: seq<FileRec>, shown: nat, collate: (string, string) -> bool) returns (items: seq<Item>)
    requires TotalPreorder(collate)
    ensures forall it :: it in items <==> it.FolderItem? && Listed(fs, files, shown, it)
    ensures forall i, j :: 0 <= i < j < |items| ==> items[i] != items[j]
    ensures SortedBy(ByName(fs, files, collate), items)
  {
    var found: seq<Item> := [];
    for x := 0 to |fs|
      invariant forall it :: it in found <==> it.FolderItem? && it.id < x && Listed(fs, files, shown, it)
      invariant forall i, j :: 0 <= i < j < |found| ==> found[i] != found[j]
    {
      if !fs[x].deleted && fs[x].parent == Some(shown) {
        found := found + [FolderItem(x)];
      }
    }
    ByNameOrders(fs, files, collate);
    items := Sort(found, ByName(fs, files, collate));
    SameRows(found, items);
    StillOnce(found, items);
  }

  method FileRows(fs: seq<Folder>, files: seq<FileRec>, shown: nat, collate: (string, string) -> bool) returns (items: seq<Item>)
    requires TotalPreorder(collate)
    ensures forall it :: it in items <==> it.FileItem? && Listed(fs, files, shown, it)
    ensures forall i, j :: 0 <= i < j < |items| ==> items[i] != items[j]
    ensures SortedBy(ByName(fs, files, collate), items)
  {
    var found: seq<Item> := [];
    for f := 0 to |files|
      invariant forall it :: it in found <==> it.FileItem? && it.id < f && Listed(fs, files, shown, it)
      invariant forall i, j :: 0 <= i < j < |found| ==> found[i] != found[j]
    {
      if !files[f].deleted && files[f].folder == Some(shown) {
        found := found + [FileItem(f)];
      }
    }
    ByNameOrders(fs, files, collate);
    items := Sort(found, ByName(fs, files, collate));
    SameRows(found, items);
    StillOnce(found, items);
  }

  method PublicShareItems(fs: seq<Folder>, files: seq<FileRec>, s: Share, parentId: Option<nat>, ghost rank: seq<nat>,
                          collate: (string, string) -> bool)
    returns (code: nat, items: seq<Item>)
    requires Ranked(fs, rank) && TotalPreorder(collate)
    ensures code in {200, 400}
    ensures code == 200 <==> Accepted(fs, s, parentId)
    ensures code == 200 <==>
              s.target.FolderTarget? && (parentId.Some? ==> InTree(fs, Live, s.target.id, parentId.value))
    ensures code == 200 ==> forall it :: it in items <==> Listed(fs, files, Shown(s, parentId), it)
    ensures code == 200 ==>
              var shown := if parentId.None? then s.target.id else parentId.value;
              && (forall x: nat :: FolderItem(x) in items <==> x < |fs| && !fs[x].deleted && fs[x].parent == Some(shown))
              && (forall f: nat :: FileItem(f) in items <==> f < |files| && !files[f].deleted && files[f].folder == Some(shown))
    ensures forall i, j :: 0 <= i < j < |items| ==>
              match (items[i], items[j])
              case (FolderItem(x), FolderItem(y)) => x < |fs| && y < |fs| && collate(fs[x].name, fs[y].name)
              case (FileItem(f), FileItem(g)) => f < |files| && g < |files| && collate(files[f].name, files[g].name)
              case (FolderItem(_), FileItem(_)) => true
              case (FileItem(_), FolderItem(_)) => false
    ensures forall i, j :: 0 <= i < j < |items| ==> items[i] != items[j]
    ensures InListOrder(fs, files, items, collate)
  {
    items := [];
    if !s.target.FolderTarget? {
      return 400, items;
    }
    if parentId.Some? {
      var tree := RecursiveQuery(fs, Live, s.target.id, rank);
      if parentId.value !in tree {
        return 400, items;
      }
    }
    var shown := Shown(s, parentId);
    var folderRows := FolderRows(fs, files, shown, collate);
    for k := 0 to |folderRows|
      invariant items == folderRows[..k]
    {
      items := items + [folderRows[k]];
    }
    var fileRows := FileRows(fs, files, shown, collate);
    for k := 0 to |fileRows|
      invariant items == folderRows + fileRows[..k]
    {
      items := items + [fileRows[k]];
    }
    assert items == folderRows + fileRows;
    TwoLists(fs, files, folderRows, fileRows, collate);
    code := 200;
  }

  lemma TwoLists(fs: seq<Folder>, files: seq<FileRec>, a: seq<Item>, b: seq<Item>, collate: (string, string) -> bool)
    requires (forall it :: it in a ==> it.FolderItem?) && (forall it :: it in b ==> it.FileItem?)
    requires forall i, j :: 0 <= i < j < |a| ==> a[i] != a[j]
    requires forall i, j :: 0 <= i < j < |b| ==> b[i] != b[j]
    requires SortedBy(ByName(fs, files, collate), a) && SortedBy(ByName(fs, files, collate), b)
    ensures forall i, j :: 0 <= i < j < |a + b| ==> (a + b)[i] != (a + b)[j]
    ensures InListOrder(fs, files, a + b, collate)
  {
    var r := a + b;
    forall i, j | 0 <= i < j < |r|
      ensures r[i] != r[j] && (r[i].FileItem? ==> r[j].FileItem?)
      ensures r[i].FileItem? == r[j].FileItem? ==> collate(ItemName(fs, files, r[i]), ItemName(fs, files, r[j]))
    {
      if j < |a| {
        assert a[i] in a && a[j] in a && ByName(fs, files, collate)(a[i], a[j]);
      } else if |a| <= i {
        assert b[i - |a|] in b && b[j - |a|] in b && ByName(fs, files, collate)(b[i - |a|], b[j - |a|]);
      } else {
        assert a[i] in a && b[j - |a|] in b;
      }
    }
  }

  /** Folder x can be opened k clicks away from the entry page: every click follows a folder of the page
      before it, and the server accepts it. */
  ghost predicate Opened(fs: seq<Folder>, files: seq<FileRec>, s: Share, k: nat, x: nat) {
    if k == 0 then s.target.FolderTarget? && x == s.target.id
    else Accepted(fs, s, Some(x)) && exists y :: Opened(fs, files, s, k - 1, y) && Listed(fs, files, y, FolderItem(x))
  }

  /** The files a visitor comes across by clicking. */
  ghost predicate Browsable(fs: seq<Folder>, files: seq<FileRec>, s: Share, f: nat) {
    exists k: nat, x: nat :: Opened(fs, files, s, k, x) && Listed(fs, files, x, FileItem(f))
  }

  /** The files on any page the server will give out, guessed folder ids included. */
  ghost predicate Listable(fs: seq<Folder>, files: seq<FileRec>, s: Share, f: nat) {
    exists p :: Accepted(fs, s, p) && Listed(fs, files, Shown(s, p), FileItem(f))
  }

  // ---- fetching and zipping -----------------------------------------------------------------------

  ghost predicate Fetchable(fs: seq<Folder>, files: seq<FileRec>, s: Share, f: nat) {
    && f < |files| && !files[f].deleted
    && match s.target
       case FileTarget(id) => f == id
       case FolderTarget(root) => files[f].folder.Some? && InTree(fs, Live, root, files[f].folder.value)
  }

  method FetchFileForShare(fs: seq<Folder>, files: seq<FileRec>, s: Share, f: nat, ghost rank: seq<nat>)
    returns (found: Option<FileRec>)
    requires Ranked(fs, rank)
    ensures found.Some? <==> Fetchable(fs, files, s, f)
    ensures found.Some? <==>
              && f < |files| && !files[f].deleted
              && (s.target.FileTarget? ==> f == s.target.id)
              && (s.target.FolderTarget? ==> files[f].folder.Some? && InTree(fs, Live, s.target.id, files[f].folder.value))
    ensures found.Some? ==> found.value == files[f]
  {
    if s.target.FileTarget? {
      if s.target.id != f || f >= |files| || files[f].deleted {
        return None;
      }
      return Some(files[f]);
    }
    var tree := RecursiveQuery(fs, Live, s.target.id, rank);
    if f < |files| && !files[f].deleted && files[f].folder.Some? && files[f].folder.value in tree {
      found := Some(files[f]);
    } else {
      found := None;
    }
  }

  /** The boundary check of publicShareFolderZip. */
  method ZipAllowed(fs: seq<Folder>, s: Share, folder: nat, ghost rank: seq<nat>) returns (ok: bool)
    requires Ranked(fs, rank)
    ensures ok <==> s.target.FolderTarget? && InTree(fs, LiveOwned(s.owner), s.target.id, folder)
  {
    ok := false;
    if s.target.FolderTarget? {
      var tree := RecursiveQuery(fs, LiveOwned(s.owner), s.target.id, rank);
      ok := folder in tree;
    }
  }

  // ---- the views agree ----------------------------------------------------------------------------

  /** Clicking reaches exactly the folders of the live tree, and each at its depth. */
  lemma {:induction false} OpenedIsDepth(fs: seq<Folder>, files: seq<FileRec>, s: Share, k: nat, x: nat)
    requires OwnFolder(fs, s) && !fs[s.target.id].deleted
    ensures Opened(fs, files, s, k, x) <==> AtDepth(fs, Live, s.target.id, k, x)
    decreases k
  {
    if k > 0 {
      if Opened(fs, files, s, k, x) {
        var y :| Opened(fs, files, s, k - 1, y) && Listed(fs, files, y, FolderItem(x));
        OpenedIsDepth(fs, files, s, k - 1, y);
      }
      if AtDepth(fs, Live, s.target.id, k, x) {
        var y := fs[x].parent.value;
        OpenedIsDepth(fs, files, s, k - 1, y);
        assert InTree(fs, Live, s.target.id, x);
        assert Listed(fs, files, y, FolderItem(x));
      }
    }
  }

  lemma BrowsableIsFetchable(fs: seq<Folder>, files: seq<FileRec>, s: Share, f: nat)
    requires OwnFolder(fs, s) && !fs[s.target.id].deleted
    ensures Browsable(fs, files, s, f) <==> Fetchable(fs, files, s, f)
    ensures Listable(fs, files, s, f) <==> Fetchable(fs, files, s, f)
  {
    var root := s.target.id;
    if k: nat, x: nat :| Opened(fs, files, s, k, x) && Listed(fs, files, x, FileItem(f)) {
      OpenedIsDepth(fs, files, s, k, x);
    }
    assert AtDepth(fs, Live, root, 0, root);
    if Listable(fs, files, s, f) {
      var p :| Accepted(fs, s, p) && Listed(fs, files, Shown(s, p), FileItem(f));
      assert InTree(fs, Live, root, Shown(s, p));
    }
    if Fetchable(fs, files, s, f) {
      var x := files[f].folder.value;
      var k: nat :| AtDepth(fs, Live, root, k, x);
      OpenedIsDepth(fs, files, s, k, x);
      assert Listed(fs, files, x, FileItem(f));
      assert Accepted(fs, s, Some(x)) && Shown(s, Some(x)) == x;
    }
  }

  /** The owner filters of the archive query are redundant: the archive of the target holds just the files
      that can be fetched one by one. */
  lemma ZipIsFetchable(fs: seq<Folder>, files: seq<FileRec>, rank: seq<nat>, s: Share, f: nat)
    requires Forest(fs, files, rank) && OwnFolder(fs, s)
    ensures Zipped(fs, files, s.target.id, s.owner, f) <==> Fetchable(fs, files, s, f)
  {
    var root := s.target.id;
    if f < |files| && files[f].folder.Some? {
      var x := files[f].folder.value;
      TreesAgree(fs, root, x);
      if InTree(fs, Any, root, x) {
        var k: nat :| AtDepth(fs, Any, root, k, x);
        LivePart(fs, root, k, x);
      }
    }
  }

  /** Below a deleted target nothing is fetched or zipped, nothing can be opened beyond the entry page, and
      the entry page still lists the live files left directly in the target. */
  lemma DeletedTarget(fs: seq<Folder>, files: seq<FileRec>, rank: seq<nat>, s: Share, f: nat)
    requires Forest(fs, files, rank) && OwnFolder(fs, s) && fs[s.target.id].deleted
    ensures !Fetchable(fs, files, s, f) && !Zipped(fs, files, s.target.id, s.owner, f)
    ensures Browsable(fs, files, s, f) <==> Listed(fs, files, s.target.id, FileItem(f))
  {
    var root := s.target.id;
    forall x: nat ensures !InTree(fs, Live, root, x) {
      if k: nat :| AtDepth(fs, Live, root, k, x) {
        RootPasses(fs, Live, root, k, x);
      }
    }
    ZipIsFetchable(fs, files, rank, s, f);
    if Listed(fs, files, root, FileItem(f)) {
      assert Opened(fs, files, s, 0, root);
    }
  }

  ghost predicate ViewsAgree(fs: seq<Folder>, files: seq<FileRec>, s: Share) {
    forall f: nat ::
      && (Browsable(fs, files, s, f) <==> Fetchable(fs, files, s, f))
      && (Fetchable(fs, files, s, f) <==> Zipped(fs, files, s.target.id, s.owner, f))
  }

  /** The three views of a folder share agree exactly when its target is live, or is deleted without a live
      file left directly in it (an upload that completed late leaves one). */
  lemma ViewsAgreeExactly(fs: seq<Folder>, files: seq<FileRec>, rank: seq<nat>, s: Share)
    requires Forest(fs, files, rank) && OwnFolder(fs, s)
    ensures ViewsAgree(fs, files, s) <==>
            !fs[s.target.id].deleted || !exists f: nat :: Listed(fs, files, s.target.id, FileItem(f))
  {
    var root := s.target.id;
    forall f: nat ensures Fetchable(fs, files, s, f) <==> Zipped(fs, files, root, s.owner, f) {
      ZipIsFetchable(fs, files, rank, s, f);
    }
    forall f: nat
      ensures (Browsable(fs, files, s, f) <==> Fetchable(fs, files, s, f)) <==>
              !fs[root].deleted || !Listed(fs, files, root, FileItem(f))
    {
      if fs[root].deleted {
        DeletedTarget(fs, files, rank, s, f);
      } else {
        BrowsableIsFetchable(fs, files, s, f);
      }
    }
  }

  /** The archive of a folder inside the boundary never holds a file that could not be fetched alone. */
  lemma SubfolderZipWithin(fs: seq<Folder>, files: seq<FileRec>, rank: seq<nat>, s: Share, d: nat, f: nat)
    requires Forest(fs, files, rank) && OwnFolder(fs, s)
    requires InTree(fs, LiveOwned(s.owner), s.target.id, d) && Zipped(fs, files, d, s.owner, f)
    ensures Fetchable(fs, files, s, f)
  {
    var w := LiveOwned(s.owner);
    var x := files[f].folder.value;
    var j: nat :| AtDepth(fs, w, s.target.id, j, d);
    var k: nat :| AtDepth(fs, w, d, k, x);
    DepthTransitive(fs, w, s.target.id, j, d, k, x);
    ZipIsFetchable(fs, files, rank, s, f);
  }

  // ---- a share over its life ------------------------------------------------------------------------

  /** createShare.  A share exists just for something live of its maker's, and what it gives out then is all of
      that and nothing else: the file itself, or the folder's archive, file by file and page by page. */
  method CreateShare(fs: seq<Folder>, files: seq<FileRec>, user: nat, t: Target, ghost rank: seq<nat>) returns (share: Option<Share>)
    requires Forest(fs, files, rank)
    ensures share.None? <==> match t
              case FileTarget(f) => f >= |files| || files[f].owner != user || files[f].deleted
              case FolderTarget(x) => x >= |fs| || fs[x].owner != user || fs[x].deleted
    ensures share.Some? ==> share.value == Share(user, t)
    ensures share.Some? && t.FileTarget? ==> forall f: nat :: Fetchable(fs, files, share.value, f) <==> f == t.id
    ensures share.Some? && t.FolderTarget? ==> OwnFolder(fs, share.value) && ViewsAgree(fs, files, share.value)
    ensures share.Some? ==> forall f: nat :: Fetchable(fs, files, share.value, f) ==> files[f].owner == user
  {
    if !OwnLiveTarget(fs, files, user, t) {
      return None;
    }
    share := Some(Share(user, t));
    if t.FolderTarget? {
      ViewsAgreeExactly(fs, files, rank, share.value);
      forall f: nat | Fetchable(fs, files, share.value, f) ensures files[f].owner == user {
        ZipIsFetchable(fs, files, rank, share.value, f);
      }
    }
  }

  /** Whatever folder steps come later -- rows never change hands -- the share stays its maker's: its views keep
      agreeing under the same exact condition, and never give out anybody else's file. */
  lemma ShareLater(fs: seq<Folder>, gs: seq<Folder>, hs: seq<FileRec>, rank: seq<nat>, s: Share, f: nat)
    requires OwnFolder(fs, s) && OwnersKept(fs, gs) && Forest(gs, hs, rank)
    ensures OwnFolder(gs, s)
    ensures ViewsAgree(gs, hs, s) <==>
            !gs[s.target.id].deleted || !exists g: nat :: Listed(gs, hs, s.target.id, FileItem(g))
    ensures Browsable(gs, hs, s, f) || Fetchable(gs, hs, s, f) ==> f < |hs| && hs[f].owner == s.owner
  {
    ViewsAgreeExactly(gs, hs, rank, s);
    ZipIsFetchable(gs, hs, rank, s, f);
    if gs[s.target.id].deleted {
      DeletedTarget(gs, hs, rank, s, f);
    } else {
      BrowsableIsFetchable(gs, hs, s, f);
    }
  }

  lemma LateFile(fs: seq<Folder>, files: seq<FileRec>, rank: seq<nat>, s: Share, f: nat)
    requires Forest(fs, files, rank) && OwnFolder(fs, s) && fs[s.target.id].deleted
    requires Listed(fs, files, s.target.id, FileItem(f))
    ensures !Fetchable(fs, files, s, f) && !ViewsAgree(fs, files, s)
  {
    DeletedTarget(fs, files, rank, s, f);
    ViewsAgreeExactly(fs, files, rank, s);
  }

  /** A user makes a folder, shares it and deletes it. */
  method SharedThenDeleted(store: FolderStore, user: nat, rawName: string) returns (s: Share)
    requires store.Valid() && NormalizeNodeName(rawName) != ""
    modifies store
    ensures store.Valid() && s == Share(user, FolderTarget(|old(store.folders)|)) && OwnFolder(store.folders, s)
    ensures store.folders[s.target.id].deleted && |store.files| == |old(store.files)|
    ensures forall g :: 0 <= g < |store.files| ==> store.files[g].folder == old(store.files)[g].folder
  {
    var code, x := store.CreateFolder(user, None, rawName);
    var share := CreateShare(store.folders, store.files, user, FolderTarget(x), store.rank);
    s := share.value;
    assert AtDepth(store.folders, Any, x, 0, x);
    assert InTree(store.folders, Any, x, x);
    code := store.DeleteFolder(user, x);
  }

  /** A share outlives its folder: an upload begun before the folder was deleted completes into it, and the entry
      page lists a file that the share does not let anybody fetch. */
  method LateFileListed(store: FolderStore, user: nat, rawName: string, uuid: string, fileName: string)
    returns (s: Share, f: nat)
    requires store.Valid() && NormalizeNodeName(rawName) != ""
    modifies store
    ensures store.Valid() && s.owner == user && OwnFolder(store.folders, s)
    ensures Listed(store.folders, store.files, s.target.id, FileItem(f)) && !Fetchable(store.folders, store.files, s, f)
    ensures !ViewsAgree(store.folders, store.files, s)
  {
    ghost var x := |store.folders|;
    assert forall g :: 0 <= g < |store.files| ==> store.files[g].folder != Some(x);
    s := SharedThenDeleted(store, user, rawName);
    f := |store.files|;
    var code := store.AddFile(uuid, fileName, fileName, user, Some(s.target.id));
    LateFile(store.folders, store.files, store.rank, s, f);
  }

  /** And it can from empty tables. */
  method LateFileFromNothing(fs: seq<Folder>, files: seq<FileRec>, ghost rank: seq<nat>, rawName: string)
    returns (store: FolderStore, s: Share, f: nat)
    requires |fs| == 0 && |files| == 0 && |rank| == 0 && NormalizeNodeName(rawName) != ""
    ensures store.Valid() && Listed(store.folders, store.files, s.target.id, FileItem(f))
    ensures !Fetchable(store.folders, store.files, s, f)
  {
    EmptyForest(fs, files, rank);
    store := new FolderStore(fs, files, rank);
    s, f := LateFileListed(store, 0, rawName, "", "");
  }
}
