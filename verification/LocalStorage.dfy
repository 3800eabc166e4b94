/** The local storage (storage/local.go) over a file system of paths: scratch-file writes, appends at an
    offset, moves, deletes and range reads. */
module LocalStorage {
  import opened Types
  import opened Paths
  import opened Disk
  import Ranges

  /** The system call that fails, if one does.  A read may break off after some chunks; a reader that is
      cancelled (contextReader) reads like one that breaks off. */
  datatype Fault = NoFault | OpenFails | ReadBreaks(after: nat) | CloseFails | RenameFails

  datatype Answer = Done(written: nat) | BadKeyError | Mismatch | Failed(written: nat)

  function Flatten(chunks: seq<Bytes>): Bytes {
    if |chunks| == 0 then [] else Flatten(chunks[..|chunks| - 1]) + chunks[|chunks| - 1]
  }

  /** The chunks a reader delivers under a fault. */
  function Delivered(chunks: seq<Bytes>, fault: Fault): seq<Bytes> {
    if fault.ReadBreaks? && fault.after < |chunks| then chunks[..fault.after] else chunks
  }

  predicate Breaks(fault: Fault) {
    fault.ReadBreaks?
  }

  class Storage {
    const root: string
    var files: map<string, Bytes>
    /** The file system after every system call so far. */
    ghost var seen: seq<map<string, Bytes>>

    constructor (cleanRoot: string)
      ensures root == cleanRoot && files == map[] && seen == []
    {
      root := cleanRoot;
      files := map[];
      seen := [];
    }

    function Content(path: string): Bytes
      reads this
    {
      ContentOf(files, path)
    }

    method Set(path: string, data: Bytes)
      modifies this
      ensures files == old(files)[path := data] && seen == old(seen) + [files]
    {
      files := files[path := data];
      seen := seen + [files];
    }

    /** os.Remove; a missing file stays missing. */
    method Unlink(path: string)
      modifies this
      ensures files == old(files) - {path} && seen == old(seen) + [files]
    {
      files := files - {path};
      seen := seen + [files];
    }

    method Rename(from: string, to: string)
      requires from in files
      modifies this
      ensures files == (old(files) - {from})[to := old(files)[from]] && seen == old(seen) + [files]
    {
      files := (files - {from})[to := files[from]];
      seen := seen + [files];
    }

    /** io.Copy into an open file. */
    method Copy(path: string, chunks: seq<Bytes>, fault: Fault) returns (written: nat)
      requires path in files
      modifies this
      ensures files == old(files)[path := old(files)[path] + Flatten(Delivered(chunks, fault))]
      ensures written == |Flatten(Delivered(chunks, fault))|
      ensures old(seen) <= seen
      ensures forall i :: |old(seen)| <= i < |seen| ==> seen[i] - {path} == old(files) - {path}
    {
      var sent := Delivered(chunks, fault);
      written := 0;
      ghost var before := files;
      assert before[path] + [] == before[path] && before == before[path := before[path]];
      for i := 0 to |sent|
        invariant path in files && files == before[path := before[path] + Flatten(sent[..i])]
        invariant written == |Flatten(sent[..i])|
        invariant old(seen) <= seen
        invariant forall j :: |old(seen)| <= j < |seen| ==> seen[j] - {path} == before - {path}
      {
        assert sent[..i + 1][..i] == sent[..i];
        assert (before[path] + Flatten(sent[..i])) + sent[i] == before[path] + (Flatten(sent[..i]) + sent[i]);
        Set(path, files[path] + sent[i]);
        written := written + |sent[i]|;
      }
      assert sent[..|sent|] == sent;
    }

    /** The scratch file of PutStream, filled and closed, or removed again. */
    method FillScratch(tmp: string, chunks: seq<Bytes>, fault: Fault) returns (ok: bool, written: nat)
      modifies this
      ensures files - {tmp} == old(files) - {tmp}
      ensures ok <==> fault.NoFault? || fault.RenameFails? || fault.OpenFails?
      ensures ok ==> tmp in files && files[tmp] == Flatten(chunks)
      ensures old(seen) <= seen
      ensures forall i :: |old(seen)| <= i < |seen| ==> seen[i] - {tmp} == old(files) - {tmp}
    {
      Set(tmp, []);
      ok := true;
      written := Copy(tmp, chunks, fault);
      assert [] + Flatten(chunks) == Flatten(chunks);
      if Breaks(fault) || fault == CloseFails {
        Unlink(tmp);
        ok := false;
      }
    }

    /** PutStream writes a scratch file and renames it.  Whenever somebody looks, or the process dies, every
        other path is as before and the object is the old one or the whole new one. */
    method PutStream(key: string, chunks: seq<Bytes>, fault: Fault) returns (answer: Answer)
      requires root != ""
      modifies this
      ensures answer == BadKeyError <==> Resolve(root, key).None?
      ensures answer == BadKeyError ==> files == old(files) && seen == old(seen)
      ensures Resolve(root, key).Some? ==> var path := Resolve(root, key).value;
        if fault == NoFault then answer.Done? && files == (old(files) - {path + ".tmp"})[path := Flatten(chunks)]
        else answer.Failed? && files - {path + ".tmp"} == old(files) - {path + ".tmp"}
      ensures Resolve(root, key).Some? ==> var path := Resolve(root, key).value;
        && old(seen) <= seen
        && forall i :: |old(seen)| <= i < |seen| ==>
             OldOrNew(seen[i] - {path + ".tmp"}, old(files) - {path + ".tmp"}, path, Flatten(chunks))
    {
      var resolved := Resolve(root, key);
      if resolved.None? {
        return BadKeyError;
      }
      answer := PutPath(resolved.value, resolved.value + ".tmp", chunks, fault);
    }

    method PutPath(path: string, tmp: string, chunks: seq<Bytes>, fault: Fault) returns (answer: Answer)
      requires path != tmp
      modifies this
      ensures if fault == NoFault then answer.Done? && files == (old(files) - {tmp})[path := Flatten(chunks)]
              else answer.Failed? && files - {tmp} == old(files) - {tmp}
      ensures old(seen) <= seen
      ensures forall i :: |old(seen)| <= i < |seen| ==> OldOrNew(seen[i] - {tmp}, old(files) - {tmp}, path, Flatten(chunks))
    {
      if fault == OpenFails {
        return Failed(0);
      }
      ghost var base := files - {tmp};
      var ok, n := FillScratch(tmp, chunks, fault);
      if !ok {
        return Failed(n);
      }
      if fault == RenameFails {
        Unlink(tmp);
        return Failed(n);
      }
      Rename(tmp, path);
      assert files == base[path := Flatten(chunks)] && files - {tmp} == files;
      answer := Done(n);
    }

    /** AppendAt: appends only at the exact end of the object, which it creates when it is missing even if it
        then refuses to write; a broken read leaves what arrived. */
    method AppendAt(key: string, offset: int, chunks: seq<Bytes>, fault: Fault) returns (answer: Answer)
      requires root != ""
      modifies this
      ensures answer == BadKeyError <==> Resolve(root, key).None?
      ensures answer == BadKeyError || fault == OpenFails ==> files == old(files)
      ensures Resolve(root, key).Some? && fault == OpenFails ==> answer == Failed(0)
      ensures Resolve(root, key).Some? && fault != OpenFails ==> var path := Resolve(root, key).value;
        if |old(Content(path))| != offset
        then answer == Mismatch && files == old(files)[path := old(Content(path))]
        else
          && files == old(files)[path := old(Content(path)) + Flatten(Delivered(chunks, fault))]
          && answer == if Breaks(fault) then Failed(|Flatten(Delivered(chunks, fault))|) else Done(|Flatten(chunks)|)
    {
      var resolved := Resolve(root, key);
      if resolved.None? {
        return BadKeyError;
      }
      var path := resolved.value;
      if fault == OpenFails {
        return Failed(0);
      }
      if path !in files {
        Set(path, []);
      }
      if |files[path]| != offset {
        return Mismatch;
      }
      var n := Copy(path, chunks, fault);
      answer := if Breaks(fault) then Failed(n) else Done(n);
    }

    method Move(from: string, to: string, fault: Fault) returns (answer: Answer)
      requires root != ""
      modifies this
      ensures answer == BadKeyError <==> Resolve(root, from).None? || Resolve(root, to).None?
      ensures answer.Done? <==> answer != BadKeyError && fault == NoFault && Resolve(root, from).value in old(files)
      ensures !answer.Done? ==> files == old(files)
      ensures answer.Done? ==> var f := Resolve(root, from).value;
        files == (old(files) - {f})[Resolve(root, to).value := old(files)[f]]
    {
      var fromPath := Resolve(root, from);
      var toPath := Resolve(root, to);
      if fromPath.None? || toPath.None? {
        return BadKeyError;
      }
      if fault != NoFault || fromPath.value !in files {
        return Failed(0);
      }
      Rename(fromPath.value, toPath.value);
      answer := Done(0);
    }

    method Delete(key: string, fault: Fault) returns (answer: Answer)
      requires root != ""
      modifies this
      ensures answer == BadKeyError <==> Resolve(root, key).None?
      ensures answer.Done? <==> answer != BadKeyError && fault == NoFault
      ensures files == if answer.Done? then old(files) - {Resolve(root, key).value} else old(files)
    {
      var path := Resolve(root, key);
      if path.None? {
        return BadKeyError;
      }
      if fault != NoFault {
        return Failed(0);
      }
      if path.value in files {
        Unlink(path.value);
      } else {
        assert files == files - {path.value};
      }
      answer := Done(0);
    }

    /** GetRangeStream: the bytes between two positions of an existing object. */
    method GetRangeStream(key: string, start: int, end: int) returns (body: Option<Bytes>)
      requires root != ""
      ensures body.None? ==> Resolve(root, key).None? || var path := Resolve(root, key).value;
        path !in files || start < 0 || end < start || start >= |files[path]|
      ensures body.Some? ==> Resolve(root, key).Some? && var path := Resolve(root, key).value;
        && path in files && 0 <= start <= end && start < |files[path]|
        && body.value == files[path][start..Min(end + 1, |files[path]|)]
    {
      var path := Resolve(root, key);
      body := if path.Some? && path.value in files then Ranges.GetRange(files[path.value], start, end) else None;
    }
  }

  ghost predicate OldOrNew(now: map<string, Bytes>, before: map<string, Bytes>, path: string, data: Bytes) {
    now == before || now == before[path := data]
  }

  // ---- the abstract disk ---------------------------------------------------------------------------

  /** The files are what the abstract disk says, key by key. */
  ghost predicate Agrees(files: map<string, Bytes>, d: Disk, path: Key -> string) {
    && d.Valid()
    && (forall k :: k in d.names <==> path(k) in files)
    && (forall k :: k in d.names ==> files[path(k)] == d.Peek(k))
  }

  ghost predicate Injective(path: Key -> string) {
    forall j, k :: path(j) == path(k) ==> j == k
  }

  /** A completed PutStream, leftover scratch file aside, is one Put. */
  lemma PutAgrees(files: map<string, Bytes>, d: Disk, path: Key -> string, k: Key, data: Bytes)
    requires Agrees(files, d, path) && Injective(path) && forall j :: path(j) != path(k) + ".tmp"
    ensures Agrees((files - {path(k) + ".tmp"})[path(k) := data], d.Put(k, data), path)
  {
    var after := (files - {path(k) + ".tmp"})[path(k) := data];
    var put := d.Put(k, data);
    forall j ensures (j in put.names <==> path(j) in after) && (j in put.names ==> after[path(j)] == put.Peek(j)) {
      assert j == k || path(j) != path(k);
    }
  }

  /** Opening with O_CREATE makes a missing object empty and changes nothing else. */
  lemma OpenAgrees(files: map<string, Bytes>, d: Disk, path: Key -> string, k: Key)
    requires Agrees(files, d, path) && Injective(path)
    ensures var (o, i) := d.Open(k); var before := if path(k) in files then files[path(k)] else [];
      k in o.names && o.names[k] == i && o.Peek(k) == before && Agrees(files[path(k) := before], o, path)
  {
    if k in d.names {
      assert files[path(k) := files[path(k)]] == files;
    } else {
      CreateAgrees(files, d, path, k);
    }
  }

  lemma CreateAgrees(files: map<string, Bytes>, d: Disk, path: Key -> string, k: Key)
    requires Agrees(files, d, path) && Injective(path) && k !in d.names
    ensures Agrees(files[path(k) := []], d.Open(k).0, path)
  {
    var o := d.Open(k).0;
    forall j | j in o.names ensures files[path(k) := []][path(j)] == o.Peek(j) {
      assert j != k ==> j in d.names;
    }
  }

  /** Appending to an object is Write on its inode. */
  lemma WriteAgrees(files: map<string, Bytes>, d: Disk, path: Key -> string, k: Key, data: Bytes)
    requires Agrees(files, d, path) && Injective(path) && k in d.names
    ensures Agrees(files[path(k) := files[path(k)] + data], d.Write(d.names[k], data), path)
  {
    var w := d.Write(d.names[k], data);
    var after := files[path(k) := files[path(k)] + data];
    forall j | j in w.names ensures after[path(j)] == w.Peek(j) {
      if j != k {
        assert d.names[j] != d.names[k];
        assert after[path(j)] == files[path(j)];
      }
    }
  }

  /** Open, compare, Write. */
  ghost function Appended(d: Disk, k: Key, offset: int, data: Bytes): Disk {
    var (o, i) := d.Open(k);
    if |d.Peek(k)| == offset && i < |o.inodes| then o.Write(i, data) else o
  }

  function ContentOf(files: map<string, Bytes>, path: string): Bytes {
    if path in files then files[path] else []
  }

  lemma AppendedAgrees(files: map<string, Bytes>, d: Disk, path: Key -> string, k: Key, offset: int, data: Bytes)
    requires Agrees(files, d, path) && Injective(path)
    ensures ContentOf(files, path(k)) == d.Peek(k)
    ensures var before := ContentOf(files, path(k));
            Agrees(files[path(k) := if |before| == offset then before + data else before], Appended(d, k, offset, data), path)
    ensures |d.Peek(k)| == offset ==> d.Open(k).1 < |d.Open(k).0.inodes|
  {
    var (o, i) := d.Open(k);
    var before := ContentOf(files, path(k));
    OpenAgrees(files, d, path, k);
    WriteAgrees(files[path(k) := before], o, path, k, data);
    assert files[path(k) := before][path(k) := before + data] == files[path(k) := before + data];
  }

  lemma RenameAgrees(files: map<string, Bytes>, d: Disk, path: Key -> string, from: Key, to: Key)
    requires Agrees(files, d, path) && Injective(path) && from in d.names
    ensures Agrees((files - {path(from)})[path(to) := files[path(from)]], d.Rename(from, to), path)
  {
  }

  lemma RemoveAgrees(files: map<string, Bytes>, d: Disk, path: Key -> string, k: Key)
    requires Agrees(files, d, path) && Injective(path)
    ensures Agrees(files - {path(k)}, d.Remove(k), path)
  {
  }

  // ---- the program's keys ---------------------------------------------------------------------------

  /** Names for the abstract keys, as the handlers mint them: session and part objects below tmp/uploads, stored
      objects below files; fresh uuids make them distinct. */
  ghost predicate Minted(names: Key -> ObjectName) {
    && (forall k :: WellNamed(names(k)) && (if k.Final? then names(k).Stored? else names(k).Temp?))
    && (forall j, k :: names(j) == names(k) ==> j == k)
  }

  /** One way to mint names: the purpose of the key and its number, tallied. */
  function Tallied(k: Key): ObjectName {
    match k
    case SessionTemp(n) => Temp("session", Tally(n))
    case PartTemp(n) => Temp("part", Tally(n))
    case Final(n) => Stored("user", "2024", "01", "02", Tally(n))
  }

  function Tally(n: nat): string {
    seq(n + 1, _ => 'i')
  }

  lemma TallyPlain(n: nat, m: nat)
    ensures Plain(Tally(n)) && (Tally(n) == Tally(m) ==> n == m)
  {
    assert Tally(n)[0] == 'i' && |Tally(n)| == n + 1 && |Tally(m)| == m + 1;
  }

  lemma MintedExists()
    ensures Minted(Tallied)
  {
    forall k ensures WellNamed(Tallied(k)) && (if k.Final? then Tallied(k).Stored? else Tallied(k).Temp?) {
      match k
      case SessionTemp(n) => TallyPlain(n, n);
      case PartTemp(n) => TallyPlain(n, n);
      case Final(n) => TallyPlain(n, n);
    }
    forall j, k | Tallied(j) == Tallied(k) ensures j == k {
      if j.SessionTemp? && k.SessionTemp? {
        TallyPlain(j.sid, k.sid);
      } else if (j.PartTemp? && k.PartTemp?) || (j.Final? && k.Final?) {
        TallyPlain(j.serial, k.serial);
      }
    }
  }

  predicate ProperRootPath(root: string) {
    root == Clean(root) && root != "/" && root != "."
  }

  /** Where the object of a key is. */
  function PathOf(root: string, names: Key -> ObjectName): Key -> string {
    (k: Key) => var p := Resolve(root, KeyOf(names(k))); if p.Some? then p.value else ""
  }

  /** Minted keys are accepted, have paths of their own, and no scratch file is in the way of any of them. */
  lemma MintedPaths(root: string, names: Key -> ObjectName)
    requires ProperRootPath(root) && Minted(names)
    ensures Injective(PathOf(root, names))
    ensures forall k :: Resolve(root, KeyOf(names(k))) == Some(PathOf(root, names)(k))
    ensures forall j, k :: PathOf(root, names)(j) != PathOf(root, names)(k) + ".tmp"
  {
    var path := PathOf(root, names);
    forall k ensures Resolve(root, KeyOf(names(k))) == Some(path(k)) {
      KeysApart(root, names(k), names(k));
    }
    forall j, k ensures (path(j) == path(k) ==> j == k) && path(j) != path(k) + ".tmp" {
      KeysApart(root, names(k), names(j));
    }
  }

  /** Scratch files are nobody's objects. */
  lemma ScratchIgnored(files: map<string, Bytes>, others: map<string, Bytes>, d: Disk, path: Key -> string, k: Key)
    requires Agrees(others, d, path) && forall j :: path(j) != path(k) + ".tmp"
    requires files - {path(k) + ".tmp"} == others - {path(k) + ".tmp"}
    ensures Agrees(files, d, path)
  {
    var tmp := path(k) + ".tmp";
    forall j ensures (path(j) in files <==> path(j) in others) && (path(j) in files ==> files[path(j)] == others[path(j)]) {
      assert path(j) in files - {tmp} <==> path(j) in files;
      assert path(j) in others - {tmp} <==> path(j) in others;
      if path(j) in files {
        assert (files - {tmp})[path(j)] == files[path(j)];
      }
    }
  }

  /** The storage as the upload machine sees it: a local storage whose objects carry minted keys, and the
      abstract disk it stands for. */
  class ObjectStore {
    const storage: Storage
    const names: Key -> ObjectName
    ghost var disk: Disk

    ghost predicate Valid()
      reads this, storage
    {
      ProperRootPath(storage.root) && Minted(names) && Agrees(storage.files, disk, PathOf(storage.root, names))
    }

    constructor (root: string, keyNames: Key -> ObjectName)
      requires ProperRootPath(root) && Minted(keyNames)
      ensures Valid() && disk == Disk(map[], []) && storage.root == root && names == keyNames && fresh(storage)
    {
      storage := new Storage(root);
      names := keyNames;
      disk := Disk(map[], []);
    }

    /** PutStream is the machine's Put, in one step: at every moment in between, the files stand for the disk
        before or the disk after. */
    method Put(k: Key, chunks: seq<Bytes>, fault: Fault) returns (answer: Answer)
      requires Valid()
      modifies this, storage
      ensures Valid() && answer != BadKeyError && (answer.Done? <==> fault == NoFault)
      ensures disk == if fault == NoFault then old(disk).Put(k, Flatten(chunks)) else old(disk)
      ensures old(storage.seen) <= storage.seen
      ensures forall i :: |old(storage.seen)| <= i < |storage.seen| ==>
                || Agrees(storage.seen[i], old(disk), PathOf(storage.root, names))
                || Agrees(storage.seen[i], old(disk).Put(k, Flatten(chunks)), PathOf(storage.root, names))
    {
      ghost var path := PathOf(storage.root, names);
      ghost var before := storage.files;
      MintedPaths(storage.root, names);
      answer := storage.PutStream(KeyOf(names(k)), chunks, fault);
      ghost var put := disk.Put(k, Flatten(chunks));
      PutAgrees(before, disk, path, k, Flatten(chunks));
      forall i | |old(storage.seen)| <= i < |storage.seen|
        ensures Agrees(storage.seen[i], disk, path) || Agrees(storage.seen[i], put, path)
      {
        SeenAgrees(storage.seen[i], before, disk, path, k, Flatten(chunks));
      }
      if fault == NoFault {
        disk := put;
      } else {
        ScratchIgnored(storage.files, before, disk, path, k);
      }
    }

    /** AppendAt is the machine's Open and Write. */
    method Append(k: Key, offset: int, chunks: seq<Bytes>, fault: Fault) returns (answer: Answer)
      requires Valid()
      modifies this, storage
      ensures Valid() && answer != BadKeyError
      ensures disk == if fault == OpenFails then old(disk) else Appended(old(disk), k, offset, Flatten(Delivered(chunks, fault)))
      ensures answer == Mismatch <==> fault != OpenFails && |old(disk).Peek(k)| != offset
      ensures answer.Done? <==> answer != Mismatch && fault != OpenFails && !Breaks(fault)
    {
      ghost var path := PathOf(storage.root, names);
      ghost var before := storage.files;
      ghost var data := Flatten(Delivered(chunks, fault));
      MintedPaths(storage.root, names);
      AppendedAgrees(before, disk, path, k, offset, data);
      answer := storage.AppendAt(KeyOf(names(k)), offset, chunks, fault);
      if fault != OpenFails {
        disk := Appended(disk, k, offset, data);
      }
    }

    method Move(from: Key, to: Key, fault: Fault) returns (answer: Answer)
      requires Valid()
      modifies this, storage
      ensures Valid() && (answer.Done? <==> fault == NoFault && from in old(disk).names)
      ensures disk == if answer.Done? then old(disk).Rename(from, to) else old(disk)
    {
      ghost var path := PathOf(storage.root, names);
      ghost var before := storage.files;
      MintedPaths(storage.root, names);
      answer := storage.Move(KeyOf(names(from)), KeyOf(names(to)), fault);
      if answer.Done? {
        RenameAgrees(before, disk, path, from, to);
        disk := disk.Rename(from, to);
      }
    }

    method Remove(k: Key, fault: Fault) returns (answer: Answer)
      requires Valid()
      modifies this, storage
      ensures Valid() && (answer.Done? <==> fault == NoFault)
      ensures disk == if answer.Done? then old(disk).Remove(k) else old(disk)
    {
      ghost var path := PathOf(storage.root, names);
      ghost var before := storage.files;
      MintedPaths(storage.root, names);
      answer := storage.Delete(KeyOf(names(k)), fault);
      if answer.Done? {
        RemoveAgrees(before, disk, path, k);
        disk := disk.Remove(k);
      }
    }

    method ReadRange(k: Key, start: int, end: int) returns (body: Option<Bytes>)
      requires Valid()
      ensures body.Some? <==> k in disk.names && 0 <= start <= end && start < |disk.Peek(k)|
      ensures body.Some? ==> body.value == disk.Peek(k)[start..Min(end + 1, |disk.Peek(k)|)]
    {
      MintedPaths(storage.root, names);
      body := storage.GetRangeStream(KeyOf(names(k)), start, end);
    }
  }

  /** So there is such a store below every proper root. */
  method NewStore(root: string) returns (store: ObjectStore)
    requires ProperRootPath(root)
    ensures store.Valid() && store.disk == Disk(map[], []) && store.storage.root == root && fresh(store)
  {
    MintedExists();
    store := new ObjectStore(root, Tallied);
  }

  lemma SeenAgrees(now: map<string, Bytes>, before: map<string, Bytes>, d: Disk, path: Key -> string, k: Key, data: Bytes)
    requires Agrees(before, d, path) && Injective(path) && forall j :: path(j) != path(k) + ".tmp"
    requires OldOrNew(now - {path(k) + ".tmp"}, before - {path(k) + ".tmp"}, path(k), data)
    ensures Agrees(now, d, path) || Agrees(now, d.Put(k, data), path)
  {
    var tmp := path(k) + ".tmp";
    if now - {tmp} == before - {tmp} {
      ScratchIgnored(now, before, d, path, k);
    } else {
      var after := (before - {tmp})[path(k) := data];
      PutAgrees(before, d, path, k, data);
      assert path(k) != tmp;
      assert after - {tmp} == after;
      ScratchIgnored(now, after, d.Put(k, data), path, k);
    }
  }
}
