/** Every step keeps the contents half of the invariant. */
module UploadContentsSteps {
  import opened Types
  import opened Disk
  import opened UploadModel
  import opened UploadInvariant
  import opened UploadStructure
  import opened UploadStructureSteps
  import opened UploadContents

  // ---- steps that leave the disk alone -------------------------------------------------------------

  /** Process p goes on without touching a row or the disk, and has no object before or after. */
  lemma StillContents(s: State, t: State, p: nat, q: Proc)
    requires Structure(s) && Contents(s) && p < |s.procs|
    requires s.minted <= t.minted && t == s.(procs := s.procs[p := q], minted := t.minted)
    requires AheadOf(s.procs[p]).None? && Displaced(q).None? && AheadOf(q).None?
    ensures Contents(t)
  {
    QuietContents(s, t, p, q);
  }

  lemma LockContents(s: State, p: nat)
    requires Structure(s) && Contents(s) && CanLock(s, p)
    ensures Contents(DoLock(s, p))
  {
    StillContents(s, DoLock(s, p), p, DoLock(s, p).procs[p]);
  }

  /** Ending a request that wrote marks its session aborted, which is all the object then needs. */
  lemma EndsBehind(s: State, p: nat, code: nat)
    requires Structure(s) && Contents(s) && p < |s.procs|
    ensures Behind(s, Abandon(s, p, code), p, Ended(code))
  {
    assert ProcOk(s, s.procs[p]) && AheadOk(s, s.procs[p]);
  }

  /** Marking a session aborted disturbs nobody else. */
  lemma MarkSpares(s: State, t: State, p: nat)
    requires Structure(s) && p < |s.procs| && p < |t.procs|
    requires t == MarkAborted(s, s.procs[p]).(procs := s.procs[p := t.procs[p]])
    ensures Extends(s, t)
    ensures forall i :: 0 <= i < |s.procs| && i != p ==> Spares(s, t, s.procs[i])
    ensures forall sid :: 0 <= sid < |s.sessions| ==> TempSame(s, t, sid)
  {
    assert ProcOk(s, s.procs[p]);
    var sid := Uncommitted(s.procs[p]);
    assert sid.Some? ==> HeldSession(s.procs[p]) == sid;
  }

  lemma AbandonContents(s: State, p: nat, code: nat)
    requires Structure(s) && Contents(s) && p < |s.procs|
    ensures Contents(Abandon(s, p, code))
  {
    var t := Abandon(s, p, code);
    EndsBehind(s, p, code);
    MarkSpares(s, t, p);
    QuietContents(s, t, p, Ended(code));
  }

  lemma FinishContents(s: State, p: nat)
    requires Structure(s) && Contents(s) && CanFinish(s, p)
    ensures Contents(DoFinish(s, p))
  {
    var Appending(req, row, _, sent, _) := s.procs[p];
    match Settle(req, row, row.uploaded + |sent|)
    case Reject(code) => AbandonContents(s, p, code);
    case Finalize => FinalizeContents(s, p);
    case Keep => KeepContents(s, p);
  }

  lemma FinalizeContents(s: State, p: nat)
    requires Structure(s) && Contents(s) && CanFinish(s, p)
    requires Settle(s.procs[p].req, s.procs[p].row, s.procs[p].row.uploaded + |s.procs[p].sent|).Finalize?
    ensures Contents(DoFinish(s, p))
  {
    var t := DoFinish(s, p);
    assert ProcOk(s, s.procs[p]) && AheadOk(s, s.procs[p]) && SessionOk(s, s.procs[p].req.sid);
    QuietContents(s, t, p, t.procs[p]);
  }

  /** The commit of a chunk: the row catches up with the object, and the others' objects are hollow. */
  lemma KeepContents(s: State, p: nat)
    requires Structure(s) && Contents(s) && CanFinish(s, p)
    requires Settle(s.procs[p].req, s.procs[p].row, s.procs[p].row.uploaded + |s.procs[p].sent|).Keep?
    ensures Contents(DoFinish(s, p))
  {
    var sid := s.procs[p].req.sid;
    var t := DoFinish(s, p);
    KeepRow(s, p);
    forall i | 0 <= i < |s.procs| && i != p ensures Spares(s, t, s.procs[i]) && Told(t, s.procs[i], Some(sid)) {
      KeepTells(s, p, i);
    }
    forall f | 0 <= f < |s.files| ensures StoredOk(t, f) {
      assert FileOk(s, f) && StoredOk(s, f);
      StoredKept(s, t, f);
    }
    Carry(s, t, p, t.procs[p], Some(sid));
  }

  lemma KeepRow(s: State, p: nat)
    requires Structure(s) && Contents(s) && CanFinish(s, p)
    requires Settle(s.procs[p].req, s.procs[p].row, s.procs[p].row.uploaded + |s.procs[p].sent|).Keep?
    ensures var t := DoFinish(s, p); var sid := s.procs[p].req.sid;
            && Extends(s, t) && t.disk == s.disk && t.files == s.files && |t.sessions| == |s.sessions|
            && p < |t.procs| && t.procs[p].Ended? && t.procs == s.procs[p := t.procs[p]]
            && (forall i :: 0 <= i < |s.sessions| && i != sid ==> t.sessions[i] == s.sessions[i])
            && TempOk(t, sid)
  {
    assert ProcOk(s, s.procs[p]) && AheadOk(s, s.procs[p]);
  }

  lemma KeepSpares(s: State, p: nat, i: nat)
    requires Structure(s) && CanFinish(s, p) && i < |s.procs| && i != p
    requires Settle(s.procs[p].req, s.procs[p].row, s.procs[p].row.uploaded + |s.procs[p].sent|).Keep?
    ensures Spares(s, DoFinish(s, p), s.procs[i])
  {
    assert ProcOk(s, s.procs[p]) && HeldSession(s.procs[i]) != Some(s.procs[p].req.sid);
  }

  /** An object another process is to put back is hollow, so it also fits what the row counts now. */
  lemma KeepTells(s: State, p: nat, i: nat)
    requires Structure(s) && Contents(s) && CanFinish(s, p) && i < |s.procs| && i != p
    requires Settle(s.procs[p].req, s.procs[p].row, s.procs[p].row.uploaded + |s.procs[p].sent|).Keep?
    ensures Spares(s, DoFinish(s, p), s.procs[i])
    ensures Told(DoFinish(s, p), s.procs[i], Some(s.procs[p].req.sid))
  {
    var r := s.procs[i];
    var sid := s.procs[p].req.sid;
    KeepSpares(s, p, i);
    assert ProcOk(s, s.procs[p]) && ProcOk(s, r) && HeldSession(r) != Some(sid);
    DisplacedSame(s, DoFinish(s, p), r);
    if DisplacedSid(DoFinish(s, p), r) == Some(sid) {
      KeepHollow(s, p, i);
    }
  }

  lemma KeepHollow(s: State, p: nat, i: nat)
    requires Structure(s) && Contents(s) && CanFinish(s, p) && i < |s.procs| && i != p
    requires Settle(s.procs[p].req, s.procs[p].row, s.procs[p].row.uploaded + |s.procs[p].sent|).Keep?
    requires DisplacedSid(s, s.procs[i]) == Some(s.procs[p].req.sid)
    requires DisplacedObject(DoFinish(s, p), s.procs[i]) == DisplacedObject(s, s.procs[i])
    ensures DisplacedOk(DoFinish(s, p), s.procs[i]) && SoloOk(DoFinish(s, p), s.procs[i])
  {
    var r := s.procs[i];
    assert ProcOk(s, s.procs[p]) && ProcOk(s, r) && SessionOk(s, s.procs[p].req.sid);
    assert LeadOk(s, s.procs[p], r) && DisplacedOk(s, r);
  }

  lemma ChargeContents(s: State, p: nat)
    requires Structure(s) && Contents(s) && CanCharge(s, p)
    ensures Contents(DoCharge(s, p))
  {
    QuietContents(s, DoCharge(s, p), p, Charged(s.procs[p].draft));
  }

  lemma FailStatementContents(s: State, p: nat)
    requires Structure(s) && Contents(s) && CanFailStatement(s, p)
    ensures Contents(DoFailStatement(s, p))
  {
    FailStatementSpares(s, p);
    QuietContents(s, DoFailStatement(s, p), p, Undoing(s.procs[p].draft, false));
  }

  lemma FailStatementSpares(s: State, p: nat)
    requires Structure(s) && CanFailStatement(s, p)
    ensures var t := DoFailStatement(s, p);
            && Extends(s, t) && t.disk == s.disk && t.files == s.files && |t.sessions| == |s.sessions|
            && (forall i :: 0 <= i < |s.procs| && i != p ==> Spares(s, t, s.procs[i]))
            && (forall sid :: 0 <= sid < |s.sessions| ==> TempSame(s, t, sid))
  {
    FailStatementRows(s, p);
    assert HeldSession(s.procs[p]) == OriginSid(s.procs[p].draft.origin);
  }

  lemma UndoContents(s: State, p: nat)
    requires Structure(s) && Contents(s) && CanUndo(s, p)
    ensures Contents(DoUndo(s, p))
  {
    assert ProcOk(s, s.procs[p]);
    MarkSpares(s, DoUndo(s, p), p);
    QuietContents(s, DoUndo(s, p), p, Undoing(s.procs[p].draft, true));
  }

  lemma RetireRowContents(s: State, p: nat)
    requires Structure(s) && Contents(s) && CanRetireRow(s, p)
    ensures Contents(DoRetireRow(s, p))
  {
    var Retiring(sid, _, _) := s.procs[p];
    assert ProcOk(s, s.procs[p]) && SessionOk(s, sid);
    QuietContents(s, DoRetireRow(s, p), p, Retired(sid));
  }

  lemma RetireRowFailsContents(s: State, p: nat)
    requires Structure(s) && Contents(s) && CanRetireRowFails(s, p)
    ensures Contents(DoRetireRowFails(s, p))
  {
    var t := DoRetireRowFails(s, p);
    QuietContents(s, t, p, t.procs[p]);
  }

  lemma CommitContents(s: State, p: nat)
    requires Structure(s) && Contents(s) && CanCommit(s, p)
    ensures Contents(DoCommit(s, p))
  {
    var t := DoCommit(s, p);
    CommitSpares(s, p);
    CommitStored(s, p);
    QuietContents(s, t, p, t.procs[p]);
  }

  /** What was displaced is what the new row finds at its final key. */
  lemma CommitStored(s: State, p: nat)
    requires Structure(s) && Contents(s) && CanCommit(s, p)
    ensures StoredOk(DoCommit(s, p), |s.files|)
  {
    var sid := OriginSid(s.procs[p].draft.origin);
    assert ProcOk(s, s.procs[p]) && DisplacedOk(s, s.procs[p]);
    if sid.Some? {
      assert SessionOk(s, sid.value);
    }
  }

  lemma CommitSpares(s: State, p: nat)
    requires Structure(s) && CanCommit(s, p)
    ensures var t := DoCommit(s, p);
            && Extends(s, t)
            && (forall i :: 0 <= i < |s.procs| && i != p ==> Spares(s, t, s.procs[i]))
            && (forall sid :: 0 <= sid < |s.sessions| ==> TempSame(s, t, sid))
  {
    var sid := OriginSid(s.procs[p].draft.origin);
    var t := DoCommit(s, p);
    assert ProcOk(s, s.procs[p]);
    if sid.Some? {
      assert SessionOk(s, sid.value);
      forall i | 0 <= i < |s.procs| && i != p ensures Spares(s, t, s.procs[i]) {
        assert HeldSession(s.procs[i]) != sid;
      }
    }
  }

  lemma DeleteRowContents(s: State, p: nat)
    requires Structure(s) && Contents(s) && CanDeleteRow(s, p)
    ensures Contents(DoDeleteRow(s, p))
  {
    var t := DoDeleteRow(s, p);
    QuietContents(s, t, p, t.procs[p]);
  }

  // ---- steps on the disk --------------------------------------------------------------------------

  /** A displaced object of a session whose row another process holds is hollow once the temporary
      object is the full one. */
  lemma OthersHollow(s: State, p: nat, i: nat)
    requires Structure(s) && Contents(s) && CanOpen(s, p)
    requires |s.disk.Peek(SessionTemp(s.procs[p].req.sid))| == s.procs[p].row.uploaded
    requires i < |s.procs| && i != p && DisplacedSid(s, s.procs[i]) == Some(s.procs[p].req.sid)
    ensures Hollow(s.procs[p].row, DisplacedObject(s, s.procs[i]))
  {
    var r := s.procs[i];
    assert ProcOk(s, r) && ProcOk(s, s.procs[p]) && SessionOk(s, s.procs[p].req.sid);
    assert HeldSession(r) != HeldSession(s.procs[p]);
    assert SoloOk(s, r) && DisplacedOk(s, r);
  }

  lemma OpenContents(s: State, p: nat)
    requires Structure(s) && Contents(s) && CanOpen(s, p)
    requires forall i :: 0 <= i < |s.procs| && i != p ==> Spares(s, DoOpen(s, p), s.procs[i])
    ensures Contents(DoOpen(s, p))
  {
    var sid := s.procs[p].req.sid;
    var t := DoOpen(s, p);
    var q := t.procs[p];
    OpenTempOk(s, p);
    OpenElsewhere(s, p);
    forall i | 0 <= i < |s.procs| && i != p ensures Told(t, s.procs[i], Some(sid)) && Beside(t, q, s.procs[i]) {
      OpenBeside(s, p, i);
    }
    forall f | 0 <= f < |s.files| ensures StoredOk(t, f) {
      OpenStored(s, p, f);
    }
    Carry(s, t, p, q, Some(sid));
  }

  lemma OpenStored(s: State, p: nat, f: nat)
    requires Structure(s) && Contents(s) && CanOpen(s, p) && f < |s.files|
    ensures StoredOk(DoOpen(s, p), f)
  {
    OpenElsewhere(s, p);
    assert ProcOk(s, s.procs[p]) && FileOk(s, f) && StoredOk(s, f);
    StoredKept(s, DoOpen(s, p), f);
  }

  /** An object made by the open is empty; if the row counts bytes, it is hollow from now on. */
  lemma OpenTempOk(s: State, p: nat)
    requires Structure(s) && Contents(s) && CanOpen(s, p)
    ensures AheadOk(DoOpen(s, p), DoOpen(s, p).procs[p]) && TempOk(DoOpen(s, p), s.procs[p].req.sid)
  {
    var sid := s.procs[p].req.sid;
    var t := DoOpen(s, p);
    assert ProcOk(s, s.procs[p]) && SessionOk(s, sid) && TempOk(s, sid);
    forall i | 0 <= i < |s.procs| ensures AheadOf(s.procs[i]) != Some(sid) {
      assert AheadOf(s.procs[i]).Some? ==> HeldSession(s.procs[i]) == AheadOf(s.procs[i]);
    }
    if t.procs[p].Appending? {
      assert AheadOf(t.procs[p]) == Some(sid);
    }
  }

  lemma OpenElsewhere(s: State, p: nat)
    requires Structure(s) && CanOpen(s, p)
    ensures Extends(s, DoOpen(s, p))
    ensures forall sid :: 0 <= sid < |s.sessions| && sid != s.procs[p].req.sid ==> TempSame(s, DoOpen(s, p), sid)
  {
    assert ProcOk(s, s.procs[p]);
  }

  lemma OpenBeside(s: State, p: nat, i: nat)
    requires Structure(s) && Contents(s) && CanOpen(s, p)
    requires i < |s.procs| && i != p && Spares(s, DoOpen(s, p), s.procs[i])
    ensures Told(DoOpen(s, p), s.procs[i], Some(s.procs[p].req.sid))
    ensures Beside(DoOpen(s, p), DoOpen(s, p).procs[p], s.procs[i])
    ensures AheadOf(s.procs[i]) != Some(s.procs[p].req.sid)
  {
    var req := s.procs[p].req;
    var t := DoOpen(s, p);
    var r := s.procs[i];
    assert ProcOk(s, r) && ProcOk(s, s.procs[p]);
    assert HeldSession(r) != HeldSession(s.procs[p]);
    OpenElsewhere(s, p);
    DisplacedSame(s, t, r);
    assert AheadOf(r) != Some(req.sid);
    if DisplacedSid(t, r) == Some(req.sid) {
      OpenTells(s, p, i);
      if t.procs[p].Appending? {
        OthersHollow(s, p, i);
      }
    }
  }

  lemma OpenTells(s: State, p: nat, i: nat)
    requires Structure(s) && Contents(s) && CanOpen(s, p)
    requires i < |s.procs| && i != p && Spares(s, DoOpen(s, p), s.procs[i])
    requires DisplacedSid(DoOpen(s, p), s.procs[i]) == Some(s.procs[p].req.sid)
    ensures DisplacedOk(DoOpen(s, p), s.procs[i]) && SoloOk(DoOpen(s, p), s.procs[i])
  {
    var r := s.procs[i];
    OpenElsewhere(s, p);
    assert ProcOk(s, r) && ProcOk(s, s.procs[p]) && DisplacedOk(s, r);
    DisplacedKept(s, DoOpen(s, p), r);
    OpenSolo(s, p, i);
  }

  lemma OpenSolo(s: State, p: nat, i: nat)
    requires Structure(s) && Contents(s) && CanOpen(s, p)
    requires i < |s.procs| && SparesDraft(s, DoOpen(s, p), s.procs[i])
    requires DisplacedSid(DoOpen(s, p), s.procs[i]) == Some(s.procs[p].req.sid)
    ensures SoloOk(DoOpen(s, p), s.procs[i])
  {
    OpenElsewhere(s, p);
    assert ProcOk(s, s.procs[i]) && SoloOk(s, s.procs[i]);
    DisplacedSame(s, DoOpen(s, p), s.procs[i]);
    OpenPeeks(s, p);
  }

  lemma OpenPeeks(s: State, p: nat)
    requires Structure(s) && CanOpen(s, p)
    ensures var k := SessionTemp(s.procs[p].req.sid); DoOpen(s, p).disk.Peek(k) == s.disk.Peek(k)
  {
  }

  lemma WriteContents(s: State, p: nat, n: nat)
    requires Structure(s) && Contents(s) && CanWrite(s, p, n)
    requires forall i :: 0 <= i < |s.procs| && i != p ==> Spares(s, DoWrite(s, p, n), s.procs[i])
    ensures Contents(DoWrite(s, p, n))
  {
    var req := s.procs[p].req;
    var t := DoWrite(s, p, n);
    var q := t.procs[p];
    assert ProcOk(s, s.procs[p]) && AheadOk(s, s.procs[p]);
    forall i | 0 <= i < |s.procs| && i != p
      ensures Told(t, s.procs[i], Some(req.sid)) && Beside(t, q, s.procs[i])
    {
      WriteBeside(s, p, n, i);
    }
    forall f | 0 <= f < |s.files| ensures StoredOk(t, f) {
      assert FileOk(s, f) && StoredOk(s, f);
      StoredKept(s, t, f);
    }
    Carry(s, t, p, q, Some(req.sid));
  }

  lemma WriteBeside(s: State, p: nat, n: nat, i: nat)
    requires Structure(s) && Contents(s) && CanWrite(s, p, n) && i < |s.procs| && i != p
    requires Spares(s, DoWrite(s, p, n), s.procs[i])
    ensures Told(DoWrite(s, p, n), s.procs[i], Some(s.procs[p].req.sid))
    ensures Beside(DoWrite(s, p, n), DoWrite(s, p, n).procs[p], s.procs[i])
  {
    var r := s.procs[i];
    assert ProcOk(s, s.procs[p]) && ProcOk(s, r) && DisplacedOk(s, r) && LeadOk(s, s.procs[p], r);
    assert HeldSession(r) != HeldSession(s.procs[p]);
    DisplacedSame(s, DoWrite(s, p, n), r);
  }

  lemma StorePartContents(s: State, p: nat)
    requires Structure(s) && Contents(s) && CanStorePart(s, p)
    requires forall i :: 0 <= i < |s.procs| && i != p ==> Spares(s, DoStorePart(s, p), s.procs[i])
    ensures Contents(DoStorePart(s, p))
  {
    var t := DoStorePart(s, p);
    forall f | 0 <= f < |s.files| ensures StoredOk(t, f) {
      assert FileOk(s, f) && StoredOk(s, f);
      StoredKept(s, t, f);
    }
    Carry(s, t, p, t.procs[p], None);
  }

  lemma MoveContents(s: State, p: nat)
    requires Structure(s) && Contents(s) && CanMove(s, p)
    requires forall i :: 0 <= i < |s.procs| && i != p ==> Spares(s, DoMove(s, p), s.procs[i])
    ensures Contents(DoMove(s, p))
  {
    var d := s.procs[p].draft;
    if SourceKey(d) in s.disk.names {
      var t := DoMove(s, p);
      MovedFits(s, p);
      forall i | 0 <= i < |s.procs| && i != p ensures Beside(t, Moved(d), s.procs[i]) {
        MovedBeside(s, p, i);
      }
      forall f | 0 <= f < |s.files| ensures StoredOk(t, f) {
        assert FileOk(s, f) && StoredOk(s, f);
        assert d.serial != s.files[f].serial;
        StoredKept(s, t, f);
      }
      Carry(s, t, p, Moved(d), None);
    } else {
      AbandonContents(s, p, 500);
    }
  }

  /** What Move finds under the temporary key is what it puts at the final one. */
  lemma MovedFits(s: State, p: nat)
    requires Structure(s) && Contents(s) && CanMove(s, p) && SourceKey(s.procs[p].draft) in s.disk.names
    ensures DisplacedOk(DoMove(s, p), Moved(s.procs[p].draft)) && SoloOk(DoMove(s, p), Moved(s.procs[p].draft))
  {
    var d := s.procs[p].draft;
    assert ProcOk(s, s.procs[p]) && AheadOk(s, s.procs[p]);
    if d.origin.FromChunks? {
      assert TempOk(s, d.origin.sid);
      forall i | 0 <= i < |s.procs| ensures AheadOf(s.procs[i]) != Some(d.origin.sid) {
        assert AheadOf(s.procs[i]).Some? ==> HeldSession(s.procs[i]) == AheadOf(s.procs[i]);
      }
    }
  }

  lemma MovedBeside(s: State, p: nat, i: nat)
    requires Structure(s) && Contents(s) && CanMove(s, p) && SourceKey(s.procs[p].draft) in s.disk.names
    requires i < |s.procs| && i != p && Spares(s, DoMove(s, p), s.procs[i])
    ensures Beside(DoMove(s, p), Moved(s.procs[p].draft), s.procs[i])
  {
    var d := s.procs[p].draft;
    var t := DoMove(s, p);
    var r := s.procs[i];
    assert ProcOk(s, s.procs[p]) && ProcOk(s, r);
    assert HeldSession(s.procs[p]).Some? ==> HeldSession(r) != HeldSession(s.procs[p]);
    assert LeadOk(s, s.procs[p], r) && SoloOk(s, r);
    DisplacedSame(s, t, r);
  }

  lemma MoveBackContents(s: State, p: nat)
    requires Structure(s) && Contents(s) && CanMoveBack(s, p)
    requires forall i :: 0 <= i < |s.procs| && i != p ==> Spares(s, DoMoveBack(s, p), s.procs[i])
    ensures Contents(DoMoveBack(s, p))
  {
    var d := s.procs[p].draft;
    var sid := OriginSid(d.origin);
    var t := DoMoveBack(s, p);
    MoveBackRows(s, p);
    forall i | 0 <= i < |s.procs| && i != p ensures Told(t, s.procs[i], sid) {
      MoveBackTells(s, p, i);
    }
    forall f | 0 <= f < |s.files| ensures StoredOk(t, f) {
      MoveBackStored(s, p, f);
    }
    Carry(s, t, p, Ended(500), sid);
  }

  lemma MoveBackRows(s: State, p: nat)
    requires Structure(s) && Contents(s) && CanMoveBack(s, p)
    ensures var t := DoMoveBack(s, p); var sid := OriginSid(s.procs[p].draft.origin);
            && Extends(s, t) && (sid.Some? ==> sid.value < |t.sessions| && TempOk(t, sid.value))
            && (forall i :: 0 <= i < |s.sessions| && Some(i) != sid ==> TempSame(s, t, i))
  {
    assert ProcOk(s, s.procs[p]) && DisplacedOk(s, s.procs[p]);
  }

  lemma MoveBackStored(s: State, p: nat, f: nat)
    requires Structure(s) && Contents(s) && CanMoveBack(s, p) && f < |s.files|
    ensures StoredOk(DoMoveBack(s, p), f)
  {
    assert ProcOk(s, s.procs[p]) && FileOk(s, f) && StoredOk(s, f);
    assert s.procs[p].draft.serial != s.files[f].serial;
    StoredKept(s, DoMoveBack(s, p), f);
  }

  lemma MoveBackTells(s: State, p: nat, i: nat)
    requires Structure(s) && Contents(s) && CanMoveBack(s, p)
    requires i < |s.procs| && i != p && Spares(s, DoMoveBack(s, p), s.procs[i])
    ensures Told(DoMoveBack(s, p), s.procs[i], OriginSid(s.procs[p].draft.origin))
  {
    var sid := OriginSid(s.procs[p].draft.origin);
    var r := s.procs[i];
    assert ProcOk(s, s.procs[p]) && ProcOk(s, r);
    if AheadOf(r).Some? && AheadOf(r) == sid {
      assert SessionOk(s, sid.value);
      assert AheadOk(s, r) && LeadOk(s, r, s.procs[p]);
      assert HeldSession(r) == sid ==> HeldSession(s.procs[p]) != sid;
    }
    if DisplacedSid(DoMoveBack(s, p), r).Some? && DisplacedSid(DoMoveBack(s, p), r) == sid {
      MoveBackBeside(s, p, i);
    }
  }

  lemma MoveBackBeside(s: State, p: nat, i: nat)
    requires Structure(s) && Contents(s) && CanMoveBack(s, p)
    requires i < |s.procs| && i != p && Spares(s, DoMoveBack(s, p), s.procs[i])
    requires DisplacedSid(DoMoveBack(s, p), s.procs[i]).Some?
    requires DisplacedSid(DoMoveBack(s, p), s.procs[i]) == OriginSid(s.procs[p].draft.origin)
    ensures DisplacedOk(DoMoveBack(s, p), s.procs[i]) && SoloOk(DoMoveBack(s, p), s.procs[i])
  {
    var r := s.procs[i];
    assert ProcOk(s, s.procs[p]) && ProcOk(s, r) && DisplacedOk(s, r);
    assert if i < p then PairOk(s, r, s.procs[p]) else PairOk(s, s.procs[p], r);
    DisplacedSame(s, DoMoveBack(s, p), r);
  }

  lemma RemoveContents(s: State, t: State, p: nat, k: Key)
    requires Structure(s) && Contents(s) && p < |s.procs| && Displaced(s.procs[p]).None? && AheadOf(s.procs[p]).None?
    requires t == With(s.(disk := s.disk.Remove(k)), p, Ended(200))
    requires forall i :: 0 <= i < |s.procs| && i != p ==> Spares(s, t, s.procs[i])
    requires forall f :: 0 <= f < |s.files| && s.files[f].state.Live? ==> Final(s.files[f].serial) != k
    ensures Contents(t)
  {
    forall f | 0 <= f < |s.files| ensures StoredOk(t, f) {
      assert FileOk(s, f) && StoredOk(s, f);
      StoredKept(s, t, f);
    }
    Carry(s, t, p, Ended(200), None);
  }

  // ---- steps without a process ---------------------------------------------------------------------

  lemma TableContents(s: State, t: State)
    requires Structure(s) && Contents(s) && Extends(s, t)
    requires t.procs == s.procs && t.disk == s.disk && t.sessions == s.sessions && |t.files| == |s.files|
    ensures Contents(t)
  {
    forall i | 0 <= i < |s.procs|
      ensures DisplacedOk(t, t.procs[i]) && AheadOk(t, t.procs[i]) && SoloOk(t, t.procs[i])
    {
      assert DisplacedOk(s, s.procs[i]) && AheadOk(s, s.procs[i]) && SoloOk(s, s.procs[i]);
    }
    forall i, j | 0 <= i < |s.procs| && 0 <= j < |s.procs|
      ensures i < j ==> PairOk(t, t.procs[i], t.procs[j])
      ensures LeadOk(t, t.procs[i], t.procs[j])
    {
      assert LeadOk(s, s.procs[i], s.procs[j]);
      assert i < j ==> PairOk(s, s.procs[i], s.procs[j]);
    }
    forall sid | 0 <= sid < |s.sessions| ensures TempOk(t, sid) {
      assert TempOk(s, sid);
    }
    forall f | 0 <= f < |s.files| ensures StoredOk(t, f) {
      assert FileOk(s, f) && StoredOk(s, f);
      StoredKept(s, t, f);
    }
  }

  /** A new process, or a new session, says nothing about the objects of the old ones. */
  lemma OldProcsKept(s: State, t: State)
    requires Structure(s) && Contents(s) && t.disk == s.disk && s.procs <= t.procs && s.sessions <= t.sessions
    ensures forall i :: 0 <= i < |s.procs| ==>
              DisplacedOk(t, s.procs[i]) && AheadOk(t, s.procs[i]) && SoloOk(t, s.procs[i])
    ensures forall i, j :: 0 <= i < |s.procs| && 0 <= j < |s.procs| ==> LeadOk(t, s.procs[i], s.procs[j])
    ensures forall i, j :: 0 <= i < j < |s.procs| ==> PairOk(t, s.procs[i], s.procs[j])
  {
    forall i | 0 <= i < |s.procs|
      ensures DisplacedOk(t, s.procs[i]) && AheadOk(t, s.procs[i]) && SoloOk(t, s.procs[i])
    {
      var q := s.procs[i];
      assert ProcOk(s, q) && DisplacedOk(s, q) && AheadOk(s, q) && SoloOk(s, q);
    }
    forall i, j | 0 <= i < |s.procs| && 0 <= j < |s.procs|
      ensures i < j ==> PairOk(t, s.procs[i], s.procs[j])
      ensures LeadOk(t, s.procs[i], s.procs[j])
    {
      assert ProcOk(s, s.procs[i]) && ProcOk(s, s.procs[j]) && LeadOk(s, s.procs[i], s.procs[j]);
      assert i < j ==> PairOk(s, s.procs[i], s.procs[j]);
    }
  }

  lemma OldRowsKept(s: State, t: State)
    requires Structure(s) && Contents(s) && t.disk == s.disk && s.procs <= t.procs && s.sessions <= t.sessions
    requires t.files == s.files
    ensures forall sid :: 0 <= sid < |s.sessions| ==> TempOk(t, sid)
    ensures forall f :: 0 <= f < |t.files| ==> StoredOk(t, f)
  {
    forall sid | 0 <= sid < |s.sessions| ensures TempOk(t, sid) {
      assert TempOk(s, sid);
      forall i | 0 <= i < |s.procs| ensures t.procs[i] == s.procs[i] {
      }
    }
    forall f | 0 <= f < |s.files| ensures StoredOk(t, f) {
      assert FileOk(s, f) && StoredOk(s, f);
    }
  }

  lemma ArriveContents(s: State, q: Proc)
    requires Structure(s) && Contents(s) && CanArrive(s, q)
    ensures Contents(Step(s, Arrive(q)))
  {
    var t := Step(s, Arrive(q));
    OldProcsKept(s, t);
    OldRowsKept(s, t);
    forall i, j | 0 <= i < |t.procs| && 0 <= j < |t.procs|
      ensures i < j ==> PairOk(t, t.procs[i], t.procs[j])
      ensures LeadOk(t, t.procs[i], t.procs[j])
    {
      if i < |s.procs| && j < |s.procs| {
        assert t.procs[i] == s.procs[i] && t.procs[j] == s.procs[j];
      } else {
        Blank(t, q, t.procs[i]);
        Blank(t, q, t.procs[j]);
      }
    }
    forall i | 0 <= i < |t.procs|
      ensures DisplacedOk(t, t.procs[i]) && AheadOk(t, t.procs[i]) && SoloOk(t, t.procs[i])
    {
      if i < |s.procs| {
        assert t.procs[i] == s.procs[i];
      } else {
        Blank(t, q, q);
      }
    }
  }

  lemma Blank(t: State, q: Proc, r: Proc)
    requires Displaced(q).None? && AheadOf(q).None?
    ensures DisplacedOk(t, q) && AheadOk(t, q) && SoloOk(t, q)
    ensures PairOk(t, q, r) && PairOk(t, r, q) && LeadOk(t, q, r) && LeadOk(t, r, q)
  {
  }

  lemma InitContents(s: State, owner: nat, total: Option<nat>)
    requires Structure(s) && Contents(s) && Enabled(s, Event.Init(owner, total))
    ensures Contents(Step(s, Event.Init(owner, total)))
  {
    var t := Step(s, Event.Init(owner, total));
    OldProcsKept(s, t);
    OldRowsKept(s, t);
    assert SessionTemp(|s.sessions|) !in s.disk.names;
  }
}
