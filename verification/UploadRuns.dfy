/** The invariant holds in every reachable state, and rows only move forward along every run. */
module UploadRuns {
  import opened Disk
  import opened UploadModel
  import opened UploadInvariant
  import opened UploadStructure
  import opened UploadStructureSteps
  import opened UploadContentsSteps
  import opened UploadLedger

  lemma DropExtends(s: State, u: nat, ids: set<nat>)
    ensures Extends(s, DoDrop(s, u, ids))
  {
  }

  lemma RecalcExtends(s: State, live: bool)
    ensures Extends(s, DoRecalc(s, live))
  {
  }

  /** The steps of processes, one at a time. */
  lemma StorageStepKeeps(s: State, e: Event)
    requires Inv(s) && Enabled(s, e)
    requires e.OpenTemp? || e.WriteSome? || e.StorePart? || e.Move? || e.MoveBack?
    ensures Structure(Step(s, e)) && Contents(Step(s, e))
  {
    match e
    case OpenTemp(p) =>
      OpenStructure(s, p);
      forall i | 0 <= i < |s.procs| && i != p ensures Spares(s, DoOpen(s, p), s.procs[i]) { OpenSpares(s, p, i); }
      OpenContents(s, p);
    case WriteSome(p, n) =>
      WriteStructure(s, p, n);
      forall i | 0 <= i < |s.procs| && i != p ensures Spares(s, DoWrite(s, p, n), s.procs[i]) { WriteSpares(s, p, n, i); }
      WriteContents(s, p, n);
    case StorePart(p) =>
      StorePartStructure(s, p);
      forall i | 0 <= i < |s.procs| && i != p ensures Spares(s, DoStorePart(s, p), s.procs[i]) { StorePartSpares(s, p, i); }
      StorePartContents(s, p);
    case Move(p) =>
      MoveStructure(s, p);
      forall i | 0 <= i < |s.procs| && i != p ensures Spares(s, DoMove(s, p), s.procs[i]) { MoveSpares(s, p, i); }
      MoveContents(s, p);
    case MoveBack(p) =>
      MoveBackStructure(s, p);
      forall i | 0 <= i < |s.procs| && i != p ensures Spares(s, DoMoveBack(s, p), s.procs[i]) { MoveBackSpares(s, p, i); }
      MoveBackContents(s, p);
  }

  lemma RowStepKeeps(s: State, e: Event)
    requires Inv(s) && Enabled(s, e)
    requires !e.AddUser? && !e.SetQuota? && !e.Init? && !e.Arrive? && !e.DropFiles? && !e.RecalcLive? && !e.RecalcRest?
    requires !e.OpenTemp? && !e.WriteSome? && !e.StorePart? && !e.Move? && !e.MoveBack?
    ensures Structure(Step(s, e)) && Contents(Step(s, e))
  {
    match e
    case Lock(p) => LockStructure(s, p); LockContents(s, p);
    case Finish(p) => FinishStructure(s, p); FinishContents(s, p);
    case ChargeUser(p) => ChargeStructure(s, p); ChargeContents(s, p);
    case CommitFile(p) => CommitStructure(s, p); CommitContents(s, p);
    case FailStatement(p) => FailStatementStructure(s, p); FailStatementContents(s, p);
    case Undo(p) => UndoStructure(s, p); UndoContents(s, p);
    case End(p) => AbandonStructure(s, p, 0); AbandonContents(s, p, 0);
    case RetireRow(p) => RetireRowStructure(s, p); RetireRowContents(s, p);
    case RetireRowFails(p) => RetireRowFailsStructure(s, p); RetireRowFailsContents(s, p);
    case RetireObject(p) => RetireObjectStructure(s, p); RetireObjectKeeps(s, p);
    case DeleteRow(p) => DeleteRowStructure(s, p); DeleteRowContents(s, p);
    case DeleteObject(p) => DeleteObjectStructure(s, p); DeleteObjectKeeps(s, p);
  }

  lemma RetireObjectKeeps(s: State, p: nat)
    requires Inv(s) && CanRetireObject(s, p)
    ensures Contents(DoRetireObject(s, p))
  {
    var k := SessionTemp(s.procs[p].sid);
    var t := DoRetireObject(s, p);
    forall i | 0 <= i < |s.procs| && i != p ensures Spares(s, t, s.procs[i]) {
      assert ProcOk(s, s.procs[i]);
      RemoveSpares(s, t, p, k, i);
    }
    RemoveContents(s, t, p, k);
  }

  lemma DeleteObjectKeeps(s: State, p: nat)
    requires Inv(s) && CanDeleteObject(s, p)
    ensures Contents(DoDeleteObject(s, p))
  {
    var fid := s.procs[p].fid;
    var k := Final(s.files[fid].serial);
    var t := DoDeleteObject(s, p);
    assert ProcOk(s, s.procs[p]);
    forall i | 0 <= i < |s.procs| && i != p ensures Spares(s, t, s.procs[i]) {
      assert ProcOk(s, s.procs[i]);
      RemoveSpares(s, t, p, k, i);
    }
    RemoveContents(s, t, p, k);
  }

  lemma TableStepKeeps(s: State, t: State)
    requires Inv(s) && Extends(s, t)
    requires t.procs == s.procs && t.disk == s.disk && t.sessions == s.sessions && t.minted == s.minted
    requires |t.files| == |s.files|
    ensures Structure(t) && Contents(t)
  {
    TableStructure(s, t);
    TableContents(s, t);
  }

  lemma UserEventKeeps(s: State, e: Event)
    requires Inv(s) && Enabled(s, e) && (e.AddUser? || e.SetQuota?)
    ensures Structure(Step(s, e)) && Contents(Step(s, e))
  {
    TableEventExtends(s, e);
    TableStepKeeps(s, Step(s, e));
  }

  lemma FilesEventKeeps(s: State, e: Event)
    requires Inv(s) && Enabled(s, e) && (e.DropFiles? || e.RecalcLive? || e.RecalcRest?)
    ensures Structure(Step(s, e)) && Contents(Step(s, e))
  {
    TableEventExtends(s, e);
    TableStepKeeps(s, Step(s, e));
  }

  lemma ContentsStep(s: State, e: Event)
    requires Inv(s) && Enabled(s, e)
    ensures Structure(Step(s, e)) && Contents(Step(s, e))
  {
    if e.AddUser? || e.SetQuota? {
      UserEventKeeps(s, e);
    } else if e.DropFiles? || e.RecalcLive? || e.RecalcRest? {
      FilesEventKeeps(s, e);
    } else if e.Init? {
      InitStructure(s, e.owner, e.total);
      InitContents(s, e.owner, e.total);
    } else if e.Arrive? {
      ArriveStructure(s, e.proc);
      ArriveContents(s, e.proc);
    } else if e.OpenTemp? || e.WriteSome? || e.StorePart? || e.Move? || e.MoveBack? {
      StorageStepKeeps(s, e);
    } else {
      RowStepKeeps(s, e);
    }
  }

  lemma InvStep(s: State, e: Event)
    requires Inv(s) && Enabled(s, e)
    ensures Inv(Step(s, e))
  {
    LedgerStep(s, e);
    ContentsStep(s, e);
  }

  lemma {:induction false} InvRun(s: State, es: seq<Event>, t: State)
    requires Inv(s) && IsRun(s, es, t)
    ensures Inv(t)
    decreases |es|
  {
    if |es| > 0 {
      InvStep(s, es[0]);
      InvRun(Step(s, es[0]), es[1..], t);
    }
  }

  lemma InvReachable(s: State)
    requires Reachable(s)
    ensures Inv(s)
  {
    var es :| IsRun(Initial, es, s);
    InvRun(Initial, es, s);
  }

  /** A step that changes at most one session row and no file row that exists. */
  lemma RowExtends(s: State, t: State, sid: nat)
    requires |s.users| <= |t.users| && s.files <= t.files && s.minted <= t.minted
    requires |s.disk.inodes| <= |t.disk.inodes|
    requires |t.sessions| == |s.sessions|
    requires sid < |s.sessions| ==> RowGrows(s.sessions[sid], t.sessions[sid])
    requires forall i :: 0 <= i < |s.sessions| && i != sid ==> t.sessions[i] == s.sessions[i]
    ensures Extends(s, t)
  {
  }

  lemma CommitExtends(s: State, p: nat)
    requires Inv(s) && CanCommit(s, p)
    ensures Extends(s, DoCommit(s, p))
  {
    var d := s.procs[p].draft;
    var sid := OriginSid(d.origin);
    assert ProcOk(s, s.procs[p]);
    if sid.Some? {
      assert SessionOk(s, sid.value);
      RowExtends(s, DoCommit(s, p), sid.value);
    } else {
      RowExtends(s, DoCommit(s, p), |s.sessions|);
    }
  }

  lemma AbandonExtends(s: State, p: nat, code: nat)
    requires Inv(s) && p < |s.procs|
    ensures Extends(s, Abandon(s, p, code))
  {
    var sid := Uncommitted(s.procs[p]);
    RowExtends(s, Abandon(s, p, code), if sid.Some? then sid.value else |s.sessions|);
  }

  lemma FinishExtends(s: State, p: nat)
    requires Inv(s) && CanFinish(s, p)
    ensures Extends(s, DoFinish(s, p))
  {
    var Appending(req, row, _, sent, _) := s.procs[p];
    assert ProcOk(s, s.procs[p]);
    match Settle(req, row, row.uploaded + |sent|)
    case Reject(code) => AbandonExtends(s, p, code);
    case Keep => RowExtends(s, DoFinish(s, p), req.sid);
    case Finalize => RowExtends(s, DoFinish(s, p), req.sid);
  }

  lemma RetireExtends(s: State, p: nat)
    requires Inv(s) && CanRetireRow(s, p)
    ensures Extends(s, DoRetireRow(s, p))
  {
    assert ProcOk(s, s.procs[p]) && SessionOk(s, s.procs[p].sid);
    RowExtends(s, DoRetireRow(s, p), s.procs[p].sid);
  }

  lemma OpenExtends(s: State, p: nat)
    requires Inv(s) && CanOpen(s, p)
    ensures Extends(s, DoOpen(s, p))
  {
    assert ProcOk(s, s.procs[p]);
    RowExtends(s, DoOpen(s, p), s.procs[p].req.sid);
  }

  lemma DeleteRowExtends(s: State, p: nat)
    requires Inv(s) && CanDeleteRow(s, p)
    ensures Extends(s, DoDeleteRow(s, p))
  {
  }

  lemma InitExtends(s: State, e: Event)
    requires Inv(s) && Enabled(s, e) && e.Init?
    ensures Extends(s, Step(s, e))
  {
  }

  lemma UploadEventExtends(s: State, e: Event)
    requires Inv(s) && Enabled(s, e)
    requires e.Lock? || e.OpenTemp? || e.WriteSome? || e.Finish? || e.StorePart? || e.Move? || e.ChargeUser? || e.CommitFile?
    ensures Extends(s, Step(s, e))
  {
    match e
    case Lock(p) => RowExtends(s, DoLock(s, p), |s.sessions|);
    case OpenTemp(p) => OpenExtends(s, p);
    case WriteSome(p, n) => RowExtends(s, DoWrite(s, p, n), |s.sessions|);
    case Finish(p) => FinishExtends(s, p);
    case StorePart(p) => RowExtends(s, DoStorePart(s, p), |s.sessions|);
    case Move(p) =>
      if SourceKey(s.procs[p].draft) in s.disk.names { RowExtends(s, DoMove(s, p), |s.sessions|); }
      else { AbandonExtends(s, p, 500); }
    case ChargeUser(p) => RowExtends(s, DoCharge(s, p), |s.sessions|);
    case CommitFile(p) => CommitExtends(s, p);
  }

  lemma FailStatementExtends(s: State, p: nat)
    requires Inv(s) && CanFailStatement(s, p)
    ensures Extends(s, DoFailStatement(s, p))
  {
    var sid := OriginSid(s.procs[p].draft.origin);
    FailStatementRows(s, p);
    RowExtends(s, DoFailStatement(s, p), if sid.Some? then sid.value else |s.sessions|);
  }

  lemma UndoExtends(s: State, p: nat)
    requires Inv(s) && CanUndo(s, p)
    ensures Extends(s, DoUndo(s, p))
  {
    var sid := Uncommitted(s.procs[p]);
    RowExtends(s, DoUndo(s, p), if sid.Some? then sid.value else |s.sessions|);
  }

  lemma UndoEventExtends(s: State, e: Event)
    requires Inv(s) && Enabled(s, e) && (e.FailStatement? || e.Undo? || e.MoveBack? || e.End?)
    ensures Extends(s, Step(s, e))
  {
    match e
    case FailStatement(p) => FailStatementExtends(s, p);
    case Undo(p) => UndoExtends(s, p);
    case MoveBack(p) => RowExtends(s, DoMoveBack(s, p), |s.sessions|);
    case End(p) => AbandonExtends(s, p, 0);
  }

  lemma RetireEventExtends(s: State, e: Event)
    requires Inv(s) && Enabled(s, e)
    requires e.RetireRow? || e.RetireRowFails? || e.RetireObject? || e.DeleteRow? || e.DeleteObject?
    ensures Extends(s, Step(s, e))
  {
    match e
    case RetireRow(p) => RetireExtends(s, p);
    case RetireRowFails(p) => RowExtends(s, DoRetireRowFails(s, p), |s.sessions|);
    case RetireObject(p) => RowExtends(s, DoRetireObject(s, p), |s.sessions|);
    case DeleteRow(p) => DeleteRowExtends(s, p);
    case DeleteObject(p) => RowExtends(s, DoDeleteObject(s, p), |s.sessions|);
  }

  lemma TableEventExtends(s: State, e: Event)
    requires Inv(s) && Enabled(s, e)
    requires e.AddUser? || e.SetQuota? || e.Init? || e.Arrive? || e.DropFiles? || e.RecalcLive? || e.RecalcRest?
    ensures Extends(s, Step(s, e))
  {
    match e
    case AddUser(_) => RowExtends(s, Step(s, e), |s.sessions|);
    case SetQuota(_, _) => RowExtends(s, Step(s, e), |s.sessions|);
    case Init(_, _) => InitExtends(s, e);
    case Arrive(_) => RowExtends(s, Step(s, e), |s.sessions|);
    case DropFiles(u, ids) => DropExtends(s, u, ids);
    case RecalcLive => RecalcExtends(s, true);
    case RecalcRest => RecalcExtends(s, false);
  }

  lemma StepExtends(s: State, e: Event)
    requires Inv(s) && Enabled(s, e)
    ensures Extends(s, Step(s, e))
  {
    if e.Lock? || e.OpenTemp? || e.WriteSome? || e.Finish? || e.StorePart? || e.Move? || e.ChargeUser? || e.CommitFile? {
      UploadEventExtends(s, e);
    } else if e.AddUser? || e.SetQuota? || e.Init? || e.Arrive? || e.DropFiles? || e.RecalcLive? || e.RecalcRest? {
      TableEventExtends(s, e);
    } else if e.FailStatement? || e.Undo? || e.MoveBack? || e.End? {
      UndoEventExtends(s, e);
    } else {
      RetireEventExtends(s, e);
    }
  }

  /** Runs are determined by their events. */
  lemma {:induction false} RunSuffix(s: State, pre: seq<Event>, m: State, es: seq<Event>, t: State)
    requires IsRun(s, pre, m) && pre <= es && IsRun(s, es, t)
    ensures IsRun(m, es[|pre|..], t)
    decreases |pre|
  {
    if |pre| > 0 {
      assert es[1..][|pre[1..]|..] == es[|pre|..];
      RunSuffix(Step(s, pre[0]), pre[1..], m, es[1..], t);
    }
  }

  lemma ExtendsTransitive(a: State, b: State, c: State)
    requires Extends(a, b) && Extends(b, c)
    ensures Extends(a, c)
  {
    forall sid | 0 <= sid < |a.sessions| ensures RowGrows(a.sessions[sid], c.sessions[sid]) {
      assert RowGrows(a.sessions[sid], b.sessions[sid]) && RowGrows(b.sessions[sid], c.sessions[sid]);
    }
    forall f | 0 <= f < |a.files| ensures FileGrows(a.files[f], c.files[f]) {
      assert FileGrows(a.files[f], b.files[f]) && FileGrows(b.files[f], c.files[f]);
    }
  }

  lemma {:induction false} RunExtends(s: State, es: seq<Event>, t: State)
    requires Inv(s) && IsRun(s, es, t)
    ensures Extends(s, t)
    decreases |es|
  {
    if |es| > 0 {
      var m := Step(s, es[0]);
      InvStep(s, es[0]);
      StepExtends(s, es[0]);
      RunExtends(m, es[1..], t);
      ExtendsTransitive(s, m, t);
    }
  }
}
