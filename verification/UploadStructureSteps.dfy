module UploadStructureSteps {
  import opened Types
  import opened Disk
  import opened UploadModel
  import opened UploadInvariant
  import opened UploadStructure

  /** A step that changes its own process only (and may mint a serial). */
  lemma Quiet(s: State, t: State, p: nat, q: Proc)
    requires Structure(s) && p < |s.procs|
    requires s.minted <= t.minted && t == With(s.(minted := t.minted), p, q)
    requires ProcOk(t, q) && LocksAgree(s, p, q) && DraftAgrees(s, p, q) && HandleAgrees(s, p, q)
    ensures Structure(t)
  {
    FilesKept(s, t);
    SessionsKept(s, t, None);
    Advance(s, t, p, q);
  }

  /** A step of the holder of a session row, or of a process that found it free, that changes the row. */
  lemma RowStep(s: State, t: State, p: nat, q: Proc, sid: nat, row: Session)
    requires Structure(s) && p < |s.procs| && sid < |s.sessions|
    requires t == With(WithSession(s, sid, row), p, q)
    requires RowGrows(s.sessions[sid], row) && SessionOk(t, sid)
    requires HeldSession(s.procs[p]) == Some(sid) || SessionFree(s, sid)
    requires ProcOk(t, q) && LocksAgree(s, p, q) && DraftAgrees(s, p, q) && HandleAgrees(s, p, q)
    ensures Structure(t)
  {
    FilesKept(s, t);
    SessionsKept(s, t, Some(sid));
    forall i | 0 <= i < |s.procs| && i != p ensures Spares(s, t, s.procs[i]) {
      assert HeldSession(s.procs[i]) != Some(sid);
    }
    Advance(s, t, p, q);
  }

  /** A step that changes its own process and the disk. */
  lemma DiskStep(s: State, t: State, p: nat, q: Proc)
    requires Structure(s) && p < |s.procs|
    requires s.minted <= t.minted && t == With(s.(minted := t.minted, disk := t.disk), p, q)
    requires |s.disk.inodes| <= |t.disk.inodes| && t.disk.Valid() && SerialsMinted(t)
    requires LiveKeysKept(s, t)
    requires forall i :: 0 <= i < |s.procs| && i != p ==> Spares(s, t, s.procs[i])
    requires ProcOk(t, q) && LocksAgree(s, p, q) && DraftAgrees(s, p, q) && HandleAgrees(s, p, q)
    ensures Structure(t)
  {
    FilesKept(s, t);
    SessionsKept(s, t, None);
    Advance(s, t, p, q);
  }

  lemma LockStructure(s: State, p: nat)
    requires Structure(s) && CanLock(s, p)
    ensures Structure(DoLock(s, p))
  {
    var t := DoLock(s, p);
    match s.procs[p]
    case AppendWaiting(req) =>
      Quiet(s, t, p, t.procs[p]);
    case CompleteWaiting(_, sid) =>
      if sid < |s.sessions| {
        assert SessionOk(s, sid);
        assert Final(s.minted) !in s.disk.names;
      }
      Quiet(s, t, p, t.procs[p]);
  }

  lemma AbandonStructure(s: State, p: nat, code: nat)
    requires Structure(s) && p < |s.procs|
    ensures Structure(Abandon(s, p, code))
  {
    var sid := Uncommitted(s.procs[p]);
    assert ProcOk(s, s.procs[p]);
    if sid.Some? {
      var row := s.sessions[sid.value].(aborted := true);
      assert SessionOk(s, sid.value);
      RowStep(s, Abandon(s, p, code), p, Ended(code), sid.value, row);
    } else {
      Quiet(s, Abandon(s, p, code), p, Ended(code));
    }
  }

  lemma FinishStructure(s: State, p: nat)
    requires Structure(s) && CanFinish(s, p)
    ensures Structure(DoFinish(s, p))
  {
    var Appending(req, row, _, sent, _) := s.procs[p];
    match Settle(req, row, row.uploaded + |sent|)
    case Reject(code) => AbandonStructure(s, p, code);
    case Keep => KeepStructure(s, p);
    case Finalize => FinalizeStructure(s, p);
  }

  lemma KeepStructure(s: State, p: nat)
    requires Structure(s) && CanFinish(s, p)
    requires Settle(s.procs[p].req, s.procs[p].row, s.procs[p].row.uploaded + |s.procs[p].sent|).Keep?
    ensures Structure(DoFinish(s, p))
  {
    var t := DoFinish(s, p);
    var sid := s.procs[p].req.sid;
    assert ProcOk(s, s.procs[p]) && SessionOk(s, sid);
    RowStep(s, t, p, t.procs[p], sid, t.sessions[sid]);
  }

  lemma FinalizeStructure(s: State, p: nat)
    requires Structure(s) && CanFinish(s, p)
    requires Settle(s.procs[p].req, s.procs[p].row, s.procs[p].row.uploaded + |s.procs[p].sent|).Finalize?
    ensures Structure(DoFinish(s, p))
  {
    var t := DoFinish(s, p);
    assert ProcOk(s, s.procs[p]) && SessionOk(s, s.procs[p].req.sid);
    assert Final(s.minted) !in s.disk.names;
    Quiet(s, t, p, t.procs[p]);
  }

  lemma ChargeStructure(s: State, p: nat)
    requires Structure(s) && CanCharge(s, p)
    ensures Structure(DoCharge(s, p))
  {
    assert ProcOk(s, s.procs[p]);
    Quiet(s, DoCharge(s, p), p, Charged(s.procs[p].draft));
  }

  lemma FailStatementRows(s: State, p: nat)
    requires CanFailStatement(s, p)
    ensures var t := DoFailStatement(s, p); var sid := OriginSid(s.procs[p].draft.origin);
            && t.disk == s.disk && t.files == s.files && t.users == s.users && t.minted == s.minted
            && t.procs == s.procs[p := Undoing(s.procs[p].draft, false)] && |t.sessions| == |s.sessions|
            && (sid.Some? ==>
                  && t.sessions == s.sessions[sid.value := t.sessions[sid.value]]
                  && t.sessions[sid.value].accepted == s.sessions[sid.value].accepted
                  && RowGrows(s.sessions[sid.value], t.sessions[sid.value]))
            && (sid.None? ==> t.sessions == s.sessions)
  {
  }

  lemma FailStatementStructure(s: State, p: nat)
    requires Structure(s) && CanFailStatement(s, p)
    ensures Structure(DoFailStatement(s, p))
  {
    var d := s.procs[p].draft;
    var sid := OriginSid(d.origin);
    var t := DoFailStatement(s, p);
    FailStatementRows(s, p);
    FailStatementProc(s, p);
    if sid.Some? {
      RowStep(s, t, p, Undoing(d, false), sid.value, t.sessions[sid.value]);
    } else {
      Quiet(s, t, p, Undoing(d, false));
    }
  }

  lemma FailStatementProc(s: State, p: nat)
    requires Structure(s) && CanFailStatement(s, p)
    ensures var t := DoFailStatement(s, p); var sid := OriginSid(s.procs[p].draft.origin);
            ProcOk(t, Undoing(s.procs[p].draft, false)) && (sid.Some? ==> SessionOk(t, sid.value))
  {
    var sid := OriginSid(s.procs[p].draft.origin);
    assert ProcOk(s, s.procs[p]) && (sid.Some? ==> SessionOk(s, sid.value));
  }

  lemma UndoStructure(s: State, p: nat)
    requires Structure(s) && CanUndo(s, p)
    ensures Structure(DoUndo(s, p))
  {
    var sid := Uncommitted(s.procs[p]);
    var q := Undoing(s.procs[p].draft, true);
    assert ProcOk(s, s.procs[p]);
    if sid.Some? {
      assert SessionOk(s, sid.value);
      RowStep(s, DoUndo(s, p), p, q, sid.value, s.sessions[sid.value].(aborted := true));
    } else {
      Quiet(s, DoUndo(s, p), p, q);
    }
  }

  lemma RetireRowStructure(s: State, p: nat)
    requires Structure(s) && CanRetireRow(s, p)
    ensures Structure(DoRetireRow(s, p))
  {
    var Retiring(sid, to, _) := s.procs[p];
    assert ProcOk(s, s.procs[p]) && SessionOk(s, sid);
    RowStep(s, DoRetireRow(s, p), p, Retired(sid), sid, s.sessions[sid].(status := to));
  }

  lemma RetireRowFailsStructure(s: State, p: nat)
    requires Structure(s) && CanRetireRowFails(s, p)
    ensures Structure(DoRetireRowFails(s, p))
  {
    assert ProcOk(s, s.procs[p]);
    var t := DoRetireRowFails(s, p);
    Quiet(s, t, p, t.procs[p]);
  }

  // ---- steps on the disk --------------------------------------------------------------------------

  /** The handle of an open that finds the expected length is on an object with the accepted bytes. */
  lemma OpenFinds(s: State, p: nat)
    requires Structure(s) && Contents(s) && CanOpen(s, p)
    requires Tracked(s.procs[p].row)
    requires |s.disk.Peek(SessionTemp(s.procs[p].req.sid))| == s.procs[p].row.uploaded
    ensures s.disk.Peek(SessionTemp(s.procs[p].req.sid)) == s.procs[p].row.accepted
  {
    var AppendLocked(req, row, _) := s.procs[p];
    assert ProcOk(s, s.procs[p]) && SessionOk(s, req.sid) && TempOk(s, req.sid);
    forall i | 0 <= i < |s.procs| ensures AheadOf(s.procs[i]) != Some(req.sid) {
      assert AheadOf(s.procs[i]).Some? ==> HeldSession(s.procs[i]) == AheadOf(s.procs[i]);
    }
  }

  /** The open leaves every other process's objects and handle alone, and takes no handle of theirs. */
  lemma OpenSpares(s: State, p: nat, i: nat)
    requires Structure(s) && CanOpen(s, p) && i < |s.procs|
    ensures i != p ==> Spares(s, DoOpen(s, p), s.procs[i])
  {
    assert ProcOk(s, s.procs[i]) && ProcOk(s, s.procs[p]);
  }

  lemma OpenApart(s: State, p: nat, i: nat)
    requires Structure(s) && CanOpen(s, p) && i < |s.procs|
    ensures s.procs[i].Appending? ==> s.procs[i].inode != s.disk.Open(SessionTemp(s.procs[p].req.sid)).1
  {
    assert ProcOk(s, s.procs[i]) && ProcOk(s, s.procs[p]);
  }

  lemma OpenHandle(s: State, p: nat)
    requires Structure(s) && Contents(s) && CanOpen(s, p) && DoOpen(s, p).procs[p].Appending?
    ensures ProcOk(DoOpen(s, p), DoOpen(s, p).procs[p])
  {
    var AppendLocked(req, row, data) := s.procs[p];
    assert ProcOk(s, s.procs[p]) && SessionOk(s, req.sid);
    if !row.exposed {
      OpenFinds(s, p);
    }
  }

  lemma OpenRows(s: State, p: nat)
    requires Structure(s) && CanOpen(s, p)
    ensures var t := DoOpen(s, p);
            && Extends(s, t) && t.disk.Valid() && SerialsMinted(t)
            && (forall f :: 0 <= f < |t.files| ==> FileOk(t, f))
            && (forall sid :: 0 <= sid < |t.sessions| ==> SessionOk(t, sid))
  {
    var t := DoOpen(s, p);
    assert ProcOk(s, s.procs[p]) && SessionOk(s, s.procs[p].req.sid);
    FilesKept(s, t);
    SessionsKept(s, t, Some(s.procs[p].req.sid));
  }

  lemma OpenStructure(s: State, p: nat)
    requires Structure(s) && Contents(s) && CanOpen(s, p)
    ensures Structure(DoOpen(s, p))
  {
    var t := DoOpen(s, p);
    OpenRows(s, p);
    forall i | 0 <= i < |s.procs|
      ensures i != p ==> Spares(s, t, s.procs[i])
      ensures s.procs[i].Appending? ==> s.procs[i].inode != s.disk.Open(SessionTemp(s.procs[p].req.sid)).1
    {
      OpenSpares(s, p, i);
      OpenApart(s, p, i);
    }
    if t.procs[p].Appending? {
      OpenHandle(s, p);
    }
    Advance(s, t, p, t.procs[p]);
  }

  lemma WriteSpares(s: State, p: nat, n: nat, i: nat)
    requires Structure(s) && CanWrite(s, p, n) && i < |s.procs| && i != p
    ensures Spares(s, DoWrite(s, p, n), s.procs[i])
  {
    assert ProcOk(s, s.procs[i]) && ProcOk(s, s.procs[p]);
  }

  lemma WriteStructure(s: State, p: nat, n: nat)
    requires Structure(s) && CanWrite(s, p, n)
    ensures Structure(DoWrite(s, p, n))
  {
    var t := DoWrite(s, p, n);
    assert ProcOk(s, s.procs[p]);
    forall i | 0 <= i < |s.procs| && i != p ensures Spares(s, t, s.procs[i]) {
      WriteSpares(s, p, n, i);
    }
    DiskStep(s, t, p, t.procs[p]);
  }

  lemma StorePartSpares(s: State, p: nat, i: nat)
    requires Structure(s) && CanStorePart(s, p) && i < |s.procs| && i != p
    ensures Spares(s, DoStorePart(s, p), s.procs[i])
  {
    assert ProcOk(s, s.procs[i]) && ProcOk(s, s.procs[p]);
  }

  lemma StorePartStructure(s: State, p: nat)
    requires Structure(s) && CanStorePart(s, p)
    ensures Structure(DoStorePart(s, p))
  {
    var t := DoStorePart(s, p);
    assert ProcOk(s, s.procs[p]);
    assert Final(s.minted) !in s.disk.names && PartTemp(s.minted) !in s.disk.names;
    forall i | 0 <= i < |s.procs| && i != p ensures Spares(s, t, s.procs[i]) {
      StorePartSpares(s, p, i);
    }
    DiskStep(s, t, p, t.procs[p]);
  }

  lemma MoveSpares(s: State, p: nat, i: nat)
    requires Structure(s) && CanMove(s, p) && i < |s.procs| && i != p
    ensures Spares(s, DoMove(s, p), s.procs[i])
  {
    assert ProcOk(s, s.procs[i]) && ProcOk(s, s.procs[p]);
  }

  lemma MoveStructure(s: State, p: nat)
    requires Structure(s) && CanMove(s, p)
    ensures Structure(DoMove(s, p))
  {
    var d := s.procs[p].draft;
    assert ProcOk(s, s.procs[p]);
    if SourceKey(d) in s.disk.names {
      var t := DoMove(s, p);
      forall i | 0 <= i < |s.procs| && i != p ensures Spares(s, t, s.procs[i]) {
        MoveSpares(s, p, i);
      }
      forall f | 0 <= f < |s.files| && s.files[f].state.Live? ensures Final(s.files[f].serial) in t.disk.names {
        assert FileOk(s, f);
      }
      DiskStep(s, t, p, Moved(d));
    } else {
      AbandonStructure(s, p, 500);
    }
  }

  lemma MoveBackSpares(s: State, p: nat, i: nat)
    requires Structure(s) && CanMoveBack(s, p) && i < |s.procs| && i != p
    ensures Spares(s, DoMoveBack(s, p), s.procs[i])
  {
    assert ProcOk(s, s.procs[i]) && ProcOk(s, s.procs[p]);
  }

  lemma MoveBackStructure(s: State, p: nat)
    requires Structure(s) && CanMoveBack(s, p)
    ensures Structure(DoMoveBack(s, p))
  {
    var d := s.procs[p].draft;
    var t := DoMoveBack(s, p);
    assert ProcOk(s, s.procs[p]);
    forall i | 0 <= i < |s.procs| && i != p ensures Spares(s, t, s.procs[i]) {
      MoveBackSpares(s, p, i);
    }
    forall f | 0 <= f < |s.files| && s.files[f].state.Live? ensures Final(s.files[f].serial) in t.disk.names {
      assert FileOk(s, f);
    }
    DiskStep(s, t, p, Ended(500));
  }

  lemma RemoveSpares(s: State, t: State, p: nat, k: Key, i: nat)
    requires Structure(s) && p < |s.procs| && i < |s.procs| && i != p && ProcOk(s, s.procs[i])
    requires t == With(s.(disk := s.disk.Remove(k)), p, Ended(200))
    requires k.SessionTemp? || (k.Final? && (DraftOf(s.procs[i]).Some? ==> DraftOf(s.procs[i]).value.serial != k.serial))
    ensures Spares(s, t, s.procs[i])
  {
  }

  lemma RetireObjectStructure(s: State, p: nat)
    requires Structure(s) && CanRetireObject(s, p)
    ensures Structure(DoRetireObject(s, p))
  {
    var t := DoRetireObject(s, p);
    forall f | 0 <= f < |s.files| && s.files[f].state.Live? ensures Final(s.files[f].serial) in t.disk.names {
      assert FileOk(s, f);
    }
    DiskStep(s, t, p, Ended(200));
  }

  lemma DeleteObjectStructure(s: State, p: nat)
    requires Structure(s) && CanDeleteObject(s, p)
    ensures Structure(DoDeleteObject(s, p))
  {
    var t := DoDeleteObject(s, p);
    assert ProcOk(s, s.procs[p]);
    forall f | 0 <= f < |s.files| && s.files[f].state.Live? ensures Final(s.files[f].serial) in t.disk.names {
      assert FileOk(s, f);
    }
    DiskStep(s, t, p, Ended(200));
  }

  // ---- steps on the files table -------------------------------------------------------------------

  lemma CommitStructure(s: State, p: nat)
    requires Structure(s) && CanCommit(s, p)
    ensures Structure(DoCommit(s, p))
  {
    var d := s.procs[p].draft;
    var sid := OriginSid(d.origin);
    var t := DoCommit(s, p);
    assert ProcOk(s, s.procs[p]);
    if sid.Some? {
      assert SessionOk(s, sid.value);
      forall i | 0 <= i < |s.procs| && i != p ensures Spares(s, t, s.procs[i]) {
        assert HeldSession(s.procs[i]) != sid;
      }
    }
    FilesKept(s, t);
    SessionsKept(s, t, sid);
    assert FileOk(t, |s.files|);
    Advance(s, t, p, t.procs[p]);
  }

  lemma DeleteRowStructure(s: State, p: nat)
    requires Structure(s) && CanDeleteRow(s, p)
    ensures Structure(DoDeleteRow(s, p))
  {
    var t := DoDeleteRow(s, p);
    assert FileOk(s, s.procs[p].fid);
    if s.files[s.procs[p].fid].state.Live? {
      FilesKept(s, t);
      SessionsKept(s, t, None);
      Advance(s, t, p, t.procs[p]);
    } else {
      Quiet(s, t, p, Ended(404));
    }
  }

  /** A statement over whole tables, run by no request in particular. */
  lemma TableStructure(s: State, t: State)
    requires Structure(s) && Extends(s, t)
    requires t.procs == s.procs && t.disk == s.disk && t.sessions == s.sessions && t.minted == s.minted
    requires |t.files| == |s.files|
    ensures Structure(t)
  {
    FilesKept(s, t);
    SessionsKept(s, t, None);
    forall i | 0 <= i < |t.procs| ensures ProcOk(t, t.procs[i]) {
      ProcKept(s, t, s.procs[i]);
    }
    forall f | 0 <= f < |s.files| ensures t.files[f].serial == s.files[f].serial {
      assert FileGrows(s.files[f], t.files[f]);
    }
  }

  lemma ArriveStructure(s: State, q: Proc)
    requires Structure(s) && CanArrive(s, q)
    ensures Structure(Step(s, Arrive(q)))
  {
    var t := Step(s, Arrive(q));
    FilesKept(s, t);
    SessionsKept(s, t, None);
    forall i | 0 <= i < |t.procs| ensures ProcOk(t, t.procs[i]) {
      if i < |s.procs| {
        ProcKept(s, t, s.procs[i]);
      }
    }
  }

  lemma InitRows(s: State, owner: nat, total: Option<nat>)
    requires Structure(s) && Enabled(s, Event.Init(owner, total))
    ensures var t := Step(s, Event.Init(owner, total));
            && Extends(s, t) && t.procs == s.procs && t.disk == s.disk && t.files == s.files && t.minted == s.minted
            && s.sessions <= t.sessions && |t.sessions| == |s.sessions| + 1
            && (forall f :: 0 <= f < |t.files| ==> FileOk(t, f))
            && (forall sid :: 0 <= sid < |t.sessions| ==> SessionOk(t, sid))
  {
    var t := Step(s, Event.Init(owner, total));
    FilesKept(s, t);
    SessionsKept(s, t, None);
  }

  lemma InitStructure(s: State, owner: nat, total: Option<nat>)
    requires Structure(s) && Enabled(s, Event.Init(owner, total))
    ensures Structure(Step(s, Event.Init(owner, total)))
  {
    var t := Step(s, Event.Init(owner, total));
    InitRows(s, owner, total);
    forall i | 0 <= i < |t.procs| ensures ProcOk(t, t.procs[i]) {
      ProcKept(s, t, s.procs[i]);
    }
  }
}
