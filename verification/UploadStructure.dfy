/** Every step keeps the structural half of the invariant. */
module UploadStructure {
  import opened Types
  import opened Disk
  import opened UploadModel
  import opened UploadInvariant

  // ---- what every step does to rows that exist ----------------------------------------------------

  /** A session row only moves forward; a terminal one keeps its content and its file. */
  ghost predicate RowGrows(a: Session, b: Session) {
    && b.owner == a.owner && b.total == a.total
    && a.uploaded <= b.uploaded && a.accepted <= b.accepted
    && (a.aborted ==> b.aborted) && (a.recreated ==> b.recreated) && (a.exposed ==> b.exposed)
    && (a.fileId.Some? ==> b.fileId == a.fileId)
    && (Terminal(a.status) ==>
          Terminal(b.status) && b.accepted == a.accepted && b.uploaded == a.uploaded && b.fileId == a.fileId)
  }

  ghost predicate FileGrows(a: FileRow, b: FileRow) {
    && b == a.(state := b.state)
    && (!a.state.Live? ==> !b.state.Live?)
    && (a.state.Removed? ==> b.state.Removed?)
  }

  ghost predicate Extends(s: State, t: State) {
    && |s.users| <= |t.users| && |s.sessions| <= |t.sessions| && |s.files| <= |t.files|
    && s.minted <= t.minted && |s.disk.inodes| <= |t.disk.inodes|
    && (forall sid :: 0 <= sid < |s.sessions| ==> RowGrows(s.sessions[sid], t.sessions[sid]))
    && (forall f :: 0 <= f < |s.files| ==> FileGrows(s.files[f], t.files[f]))
  }

  /** The step leaves alone the object at a process's final key. */
  ghost predicate SparesDraft(s: State, t: State, q: Proc) {
    DraftOf(q).Some? ==>
      var k := Final(DraftOf(q).value.serial);
      (k in t.disk.names <==> k in s.disk.names) && t.disk.Peek(k) == s.disk.Peek(k)
  }

  /** The step leaves alone what a process relies on. */
  ghost predicate Spares(s: State, t: State, q: Proc) {
    && (HeldSession(q).Some? && HeldSession(q).value < |s.sessions| && HeldSession(q).value < |t.sessions| ==>
          t.sessions[HeldSession(q).value] == s.sessions[HeldSession(q).value])
    && SparesDraft(s, t, q)
    && (q.Moving? && q.draft.origin.FromPart? ==>
          var k := PartTemp(q.draft.serial);
          (k in t.disk.names <==> k in s.disk.names) && t.disk.Peek(k) == s.disk.Peek(k))
    && (q.Appending? && q.inode < |s.disk.inodes| && q.inode < |t.disk.inodes| ==>
          && t.disk.inodes[q.inode] == s.disk.inodes[q.inode]
          && (forall k :: k in t.disk.names && t.disk.names[k] == q.inode ==>
                k in s.disk.names && s.disk.names[k] == q.inode))
  }

  lemma ProcKept(s: State, t: State, q: Proc)
    requires Extends(s, t) && ProcOk(s, q) && Spares(s, t, q)
    ensures ProcOk(t, q)
  {
    match q
    case Undoing(d, locked) =>
      var sid := OriginSid(d.origin);
      if sid.Some? {
        assert RowGrows(s.sessions[sid.value], t.sessions[sid.value]);
      }
    case Deleted(fid) =>
      assert FileGrows(s.files[fid], t.files[fid]);
    case _ =>
  }

  ghost predicate LiveKeysKept(s: State, t: State)
    requires |s.files| <= |t.files|
  {
    forall f :: 0 <= f < |s.files| && t.files[f].state.Live? && Final(s.files[f].serial) in s.disk.names ==>
      Final(s.files[f].serial) in t.disk.names
  }

  lemma FilesKept(s: State, t: State)
    requires Extends(s, t) && forall f :: 0 <= f < |s.files| ==> FileOk(s, f)
    requires LiveKeysKept(s, t)
    ensures forall f :: 0 <= f < |s.files| ==> FileOk(t, f)
  {
    forall f | 0 <= f < |s.files| ensures FileOk(t, f) {
      assert FileOk(s, f) && FileGrows(s.files[f], t.files[f]);
      var sid := OriginSid(s.files[f].origin);
      if sid.Some? {
        assert RowGrows(s.sessions[sid.value], t.sessions[sid.value]);
      }
    }
  }

  lemma SessionsKept(s: State, t: State, changed: Option<nat>)
    requires Extends(s, t) && forall sid :: 0 <= sid < |s.sessions| ==> SessionOk(s, sid)
    requires forall sid :: 0 <= sid < |s.sessions| && Some(sid) != changed ==> t.sessions[sid] == s.sessions[sid]
    requires changed.Some? && changed.value < |t.sessions| ==> SessionOk(t, changed.value)
    ensures forall sid :: 0 <= sid < |s.sessions| ==> SessionOk(t, sid)
  {
    forall sid | 0 <= sid < |s.sessions| ensures SessionOk(t, sid) {
      assert SessionOk(s, sid);
      var f := s.sessions[sid].fileId;
      if f.Some? {
        assert FileGrows(s.files[f.value], t.files[f.value]);
      }
    }
  }

  // Process p steps to q; it may keep, drop or newly take a lock, a draft and a handle.

  ghost predicate LocksAgree(s: State, p: nat, q: Proc)
    requires p < |s.procs|
  {
    && (HeldSession(q).Some? && HeldSession(q) != HeldSession(s.procs[p]) ==> SessionFree(s, HeldSession(q).value))
    && (HeldUser(q).Some? && HeldUser(q) != HeldUser(s.procs[p]) ==> UserFree(s, HeldUser(q).value))
  }

  ghost predicate DraftAgrees(s: State, p: nat, q: Proc)
    requires p < |s.procs|
  {
    DraftOf(q).Some? ==>
      || DraftOf(q).value.serial >= s.minted
      || (DraftOf(s.procs[p]).Some? && DraftOf(s.procs[p]).value.serial == DraftOf(q).value.serial)
  }

  ghost predicate HandleAgrees(s: State, p: nat, q: Proc)
    requires p < |s.procs|
  {
    q.Appending? ==>
      || (s.procs[p].Appending? && s.procs[p].inode == q.inode)
      || forall i :: 0 <= i < |s.procs| && s.procs[i].Appending? ==> s.procs[i].inode != q.inode
  }

  /** A new file row takes over the serial of the process that commits it. */
  ghost predicate RowFromDraft(s: State, t: State, p: nat, q: Proc)
    requires p < |s.procs|
  {
    || |t.files| == |s.files|
    || (|t.files| == |s.files| + 1 && DraftOf(s.procs[p]).Some? && DraftOf(q).None?
        && DraftOf(s.procs[p]).value.serial == t.files[|s.files|].serial)
  }

  lemma Advance(s: State, t: State, p: nat, q: Proc)
    requires Structure(s) && Extends(s, t)
    requires p < |s.procs| && t.procs == s.procs[p := q]
    requires |t.sessions| == |s.sessions|
    requires forall f :: 0 <= f < |t.files| ==> FileOk(t, f)
    requires RowFromDraft(s, t, p, q)
    requires forall sid :: 0 <= sid < |t.sessions| ==> SessionOk(t, sid)
    requires t.disk.Valid() && SerialsMinted(t)
    requires forall i :: 0 <= i < |s.procs| && i != p ==> Spares(s, t, s.procs[i])
    requires ProcOk(t, q) && LocksAgree(s, p, q) && DraftAgrees(s, p, q) && HandleAgrees(s, p, q)
    ensures Structure(t)
  {
    forall i | 0 <= i < |t.procs| ensures ProcOk(t, t.procs[i]) {
      if i != p {
        ProcKept(s, t, s.procs[i]);
      }
    }
    ExclusiveKept(s, t, p, q);
    SerialsKept(s, t, p, q);
  }

  lemma ExclusiveKept(s: State, t: State, p: nat, q: Proc)
    requires Exclusive(s) && HandlesDistinct(s)
    requires p < |s.procs| && t.procs == s.procs[p := q]
    requires LocksAgree(s, p, q) && HandleAgrees(s, p, q)
    ensures Exclusive(t) && HandlesDistinct(t)
  {
  }

  lemma SerialsKept(s: State, t: State, p: nat, q: Proc)
    requires Structure(s) && Extends(s, t)
    requires p < |s.procs| && t.procs == s.procs[p := q] && DraftAgrees(s, p, q)
    requires RowFromDraft(s, t, p, q)
    ensures SerialsDistinct(t)
  {
    forall i | 0 <= i < |s.procs| ensures DraftOf(s.procs[i]).Some? ==> DraftOf(s.procs[i]).value.serial < s.minted {
      assert ProcOk(s, s.procs[i]);
    }
    forall f | 0 <= f < |s.files| ensures t.files[f].serial == s.files[f].serial < s.minted {
      assert FileOk(s, f) && FileGrows(s.files[f], t.files[f]);
    }
  }

}
