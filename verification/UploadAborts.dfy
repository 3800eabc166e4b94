/** Requests that end with bytes written and not committed: when that is the end of their session. */
module UploadAborts {
  import opened Types
  import opened Disk
  import opened UploadModel
  import opened UploadInvariant
  import opened UploadStructure
  import opened UploadStructureSteps
  import opened UploadRuns
  import opened UploadFrames

  /** No request is ahead of the session or can still commit what it has moved, and no object in play has the
      length the row counts. */
  ghost predicate Stuck(s: State, sid: nat) {
    && sid < |s.sessions| && s.sessions[sid].uploaded > 0
    && (SessionTemp(sid) in s.disk.names ==> |s.disk.Peek(SessionTemp(sid))| != s.sessions[sid].uploaded)
    && (forall i :: 0 <= i < |s.procs| ==> StuckProc(s, sid, s.procs[i]))
  }

  ghost predicate StuckProc(s: State, sid: nat, q: Proc)
    requires sid < |s.sessions|
  {
    && AheadOf(q) != Some(sid)
    && (Displaced(q).Some? && OriginSid(Displaced(q).value.origin) == Some(sid) ==>
          && (Displaced(q).value.origin.FromChunks? || q.Undoing?)
          && |DisplacedObject(s, q)| != s.sessions[sid].uploaded)
  }

  /** The session a process has written bytes for that its row does not count.  A PATCH that reached the
      declared length is in that position until its COMMIT. */
  function LooseSid(q: Proc): Option<nat> {
    match q
    case Undoing(d, _) => if d.origin.FromTus? && d.origin.sent > 0 then Some(d.origin.sid) else None
    case _ => Uncommitted(q)
  }

  /** A session that counts bytes and is vouched for. */
  ghost predicate Counting(s: State, sid: nat) {
    sid < |s.sessions| && s.sessions[sid].uploaded > 0 && Tracked(s.sessions[sid])
  }

  /** The one object that is not empty has the uncommitted bytes too: it is under the temporary key or
      displaced by the process itself. */
  lemma LooseObject(s: State, p: nat, sid: nat)
    requires Inv(s) && p < |s.procs| && LooseSid(s.procs[p]) == Some(sid) && Counting(s, sid)
    ensures SessionTemp(sid) in s.disk.names ==> |s.disk.Peek(SessionTemp(sid))| != s.sessions[sid].uploaded
    ensures Displaced(s.procs[p]).Some? ==> |DisplacedObject(s, s.procs[p])| > s.sessions[sid].uploaded
    ensures !s.procs[p].Appending? ==> s.sessions[sid].total.Some? && s.sessions[sid].total.value > s.sessions[sid].uploaded
  {
    assert ProcOk(s, s.procs[p]) && AheadOk(s, s.procs[p]) && SessionOk(s, sid);
    assert DisplacedOk(s, s.procs[p]) && SoloOk(s, s.procs[p]);
  }

  /** Every other object in play is empty. */
  lemma LooseBeside(s: State, p: nat, i: nat, sid: nat)
    requires Inv(s) && p < |s.procs| && i < |s.procs| && i != p && LooseSid(s.procs[p]) == Some(sid) && Counting(s, sid)
    ensures StuckProc(s, sid, s.procs[i])
  {
    var q, r := s.procs[p], s.procs[i];
    assert ProcOk(s, q) && ProcOk(s, r) && LeadOk(s, q, r) && LeadOk(s, r, q) && DisplacedOk(s, q) && DisplacedOk(s, r) && SessionOk(s, sid);
    assert if i < p then PairOk(s, r, q) else PairOk(s, q, r);
    LooseObject(s, p, sid);
    assert HeldSession(q) == Some(sid) ==> HeldSession(r) != Some(sid);
  }

  /** The ways to give up: a refusal, an early return or a crash at any point, a failing statement or an
      exceeded quota, which the compensation follows, and the compensating Move. */
  ghost predicate Backs(s: State, t: State, p: nat)
    requires p < |s.procs|
  {
    || (exists code :: t == Abandon(s, p, code))
    || (CanFailStatement(s, p) && t == DoFailStatement(s, p))
    || (CanUndo(s, p) && t == DoUndo(s, p))
    || (CanMoveBack(s, p) && t == DoMoveBack(s, p))
  }

  lemma AbandonBacked(s: State, p: nat, code: nat, sid: nat)
    requires Inv(s) && p < |s.procs| && LooseSid(s.procs[p]) == Some(sid) && Counting(s, sid)
    ensures StuckMove(s, Abandon(s, p, code), p, sid)
  {
    LooseObject(s, p, sid);
  }

  lemma UndoBacked(s: State, p: nat, sid: nat)
    requires Inv(s) && p < |s.procs| && LooseSid(s.procs[p]) == Some(sid) && Counting(s, sid)
    ensures CanFailStatement(s, p) ==> StuckMove(s, DoFailStatement(s, p), p, sid)
    ensures CanUndo(s, p) ==> StuckMove(s, DoUndo(s, p), p, sid)
  {
    LooseObject(s, p, sid);
  }

  lemma MoveBackBacked(s: State, p: nat, sid: nat)
    requires Inv(s) && CanMoveBack(s, p) && LooseSid(s.procs[p]) == Some(sid) && Counting(s, sid)
    ensures StuckMove(s, DoMoveBack(s, p), p, sid)
  {
    assert ProcOk(s, s.procs[p]);
    LooseObject(s, p, sid);
  }

  lemma BackedSelf(s: State, t: State, p: nat, sid: nat)
    requires Inv(s) && p < |s.procs| && LooseSid(s.procs[p]) == Some(sid) && Counting(s, sid) && Backs(s, t, p)
    ensures StuckMove(s, t, p, sid)
    ensures |t.procs| == |s.procs| && forall i :: 0 <= i < |s.procs| && i != p ==> t.procs[i] == s.procs[i]
  {
    if code :| t == Abandon(s, p, code) {
      AbandonBacked(s, p, code, sid);
    } else if CanMoveBack(s, p) {
      MoveBackBacked(s, p, sid);
    } else {
      UndoBacked(s, p, sid);
    }
  }

  lemma BackedSticks(s: State, t: State, p: nat, sid: nat)
    requires Inv(s) && p < |s.procs| && LooseSid(s.procs[p]) == Some(sid) && Counting(s, sid) && Backs(s, t, p)
    ensures Stuck(t, sid)
  {
    BackedSelf(s, t, p, sid);
    forall i | 0 <= i < |t.procs| ensures StuckProc(t, sid, t.procs[i]) {
      if i != p {
        LooseBeside(s, p, i, sid);
        if CanMoveBack(s, p) {
          MoveBackSpares(s, p, i);
        }
      }
    }
  }

  /** With this step process p, which had written bytes for a session, ends or turns back, and the session does
      not count them. */
  ghost predicate GivesUp(s: State, e: Event, sid: nat) {
    && Enabled(s, e) && !TableEvent(e) && e.p < |s.procs| && LooseSid(s.procs[e.p]) == Some(sid)
    && e.p < |Step(s, e).procs| && Past(Step(s, e).procs[e.p])
    && sid < |s.sessions| && sid < |Step(s, e).sessions|
    && Step(s, e).sessions[sid].accepted == s.sessions[sid].accepted
  }

  lemma GivingUp(s: State, e: Event, sid: nat)
    requires Inv(s) && GivesUp(s, e, sid)
    ensures Backs(s, Step(s, e), e.p)
  {
    var p := e.p;
    assert ProcOk(s, s.procs[p]);
    match e
    case Finish(_) => RefusedAtEnd(s, p, sid);
    case Move(_) => assert Step(s, e) == Abandon(s, p, 500);
    case End(_) => assert Step(s, e) == Abandon(s, p, 0);
    case FailStatement(_) => assert Step(s, e) == DoFailStatement(s, p);
    case Undo(_) => assert Step(s, e) == DoUndo(s, p);
    case MoveBack(_) => assert Step(s, e) == DoMoveBack(s, p);
    case _ =>
  }

  lemma RefusedAtEnd(s: State, p: nat, sid: nat)
    requires Inv(s) && GivesUp(s, Finish(p), sid)
    ensures Backs(s, DoFinish(s, p), p)
  {
    assert ProcOk(s, s.procs[p]);
    var Appending(req, row, _, sent, _) := s.procs[p];
    var settlement := Settle(req, row, row.uploaded + |sent|);
    if settlement.Reject? {
      assert DoFinish(s, p) == Abandon(s, p, settlement.code);
    }
  }

  /** However a request gives up that has written bytes it does not commit -- refused, cut short, over quota, a
      name taken, a failing statement or COMMIT, a crash, before, after or without its compensation -- if bytes
      were committed before, its session is stuck, unless somebody has ended it.  (Not vouched for: an
      exposed session.) */
  lemma AbortedWriteSticks(s: State, e: Event, sid: nat)
    requires Reachable(s) && GivesUp(s, e, sid)
    requires s.sessions[sid].uploaded > 0 && !s.sessions[sid].exposed
    ensures Stuck(Step(s, e), sid) || Terminal(s.sessions[sid].status)
  {
    if !Terminal(s.sessions[sid].status) {
      InvReachable(s);
      GivingUp(s, e, sid);
      BackedSticks(s, Step(s, e), e.p, sid);
    }
  }

  lemma StuckStep(s: State, e: Event, sid: nat)
    requires Inv(s) && Enabled(s, e) && Stuck(s, sid)
    ensures Stuck(Step(s, e), sid)
    ensures Step(s, e).sessions[sid].accepted == s.sessions[sid].accepted
  {
    if TableEvent(e) {
      StuckTableStep(s, e, sid);
    } else {
      StuckProcStep(s, e, sid);
    }
  }

  lemma StuckTableStep(s: State, e: Event, sid: nat)
    requires Enabled(s, e) && Stuck(s, sid) && TableEvent(e)
    ensures Stuck(Step(s, e), sid)
    ensures Step(s, e).sessions[sid].accepted == s.sessions[sid].accepted
  {
    var t := Step(s, e);
    forall i | 0 <= i < |t.procs| ensures StuckProc(t, sid, t.procs[i]) {
      if i < |s.procs| {
        assert t.procs[i] == s.procs[i];
      }
    }
  }

  lemma StuckProcStep(s: State, e: Event, sid: nat)
    requires Inv(s) && Enabled(s, e) && Stuck(s, sid)
    requires !TableEvent(e)
    ensures Stuck(Step(s, e), sid)
    ensures Step(s, e).sessions[sid].accepted == s.sessions[sid].accepted
  {
    var t := Step(s, e);
    StuckSelf(s, e, sid);
    forall i | 0 <= i < |t.procs| && i != e.p ensures StuckProc(t, sid, t.procs[i]) {
      assert StuckProc(s, sid, s.procs[i]);
      OtherProcsKept(s, e, i);
      DisplacedOfOthers(s, e, i);
    }
  }

  /** What a step of process p has to leave behind: the row, the temporary object, and p itself, which is not
      ahead and keeps the length of what it displaces. */
  ghost predicate StuckMove(s: State, t: State, p: nat, sid: nat) {
    && p < |t.procs| == |s.procs| && sid < |s.sessions| && sid < |t.sessions|
    && t.sessions[sid].accepted == s.sessions[sid].accepted
    && t.sessions[sid].uploaded == s.sessions[sid].uploaded
    && (SessionTemp(sid) in t.disk.names ==> |t.disk.Peek(SessionTemp(sid))| != t.sessions[sid].uploaded)
    && StuckProc(t, sid, t.procs[p])
  }

  lemma StuckOpen(s: State, p: nat, sid: nat)
    requires Inv(s) && Stuck(s, sid) && CanOpen(s, p)
    ensures StuckMove(s, DoOpen(s, p), p, sid)
  {
    assert ProcOk(s, s.procs[p]) && StuckProc(s, sid, s.procs[p]);
  }

  lemma StuckFinish(s: State, p: nat, sid: nat)
    requires Inv(s) && Stuck(s, sid) && CanFinish(s, p)
    ensures StuckMove(s, DoFinish(s, p), p, sid)
  {
    assert ProcOk(s, s.procs[p]) && StuckProc(s, sid, s.procs[p]);
  }

  lemma StuckWrite(s: State, p: nat, n: nat, sid: nat)
    requires Inv(s) && Stuck(s, sid) && CanWrite(s, p, n)
    ensures StuckMove(s, DoWrite(s, p, n), p, sid)
  {
    assert ProcOk(s, s.procs[p]) && StuckProc(s, sid, s.procs[p]);
  }

  lemma StuckRelocate(s: State, p: nat, sid: nat)
    requires Inv(s) && Stuck(s, sid) && p < |s.procs|
    ensures CanStorePart(s, p) ==> StuckMove(s, DoStorePart(s, p), p, sid)
    ensures CanMove(s, p) ==> StuckMove(s, DoMove(s, p), p, sid)
  {
    assert ProcOk(s, s.procs[p]) && StuckProc(s, sid, s.procs[p]);
  }

  lemma StuckMoveBack(s: State, p: nat, sid: nat)
    requires Inv(s) && Stuck(s, sid) && p < |s.procs|
    ensures CanMoveBack(s, p) ==> StuckMove(s, DoMoveBack(s, p), p, sid)
  {
    assert ProcOk(s, s.procs[p]) && StuckProc(s, sid, s.procs[p]);
  }

  lemma StuckCommit(s: State, p: nat, sid: nat)
    requires Inv(s) && Stuck(s, sid) && p < |s.procs|
    ensures CanCharge(s, p) ==> StuckMove(s, DoCharge(s, p), p, sid)
    ensures CanCommit(s, p) ==> StuckMove(s, DoCommit(s, p), p, sid)
  {
    assert ProcOk(s, s.procs[p]) && StuckProc(s, sid, s.procs[p]) && SessionOk(s, sid);
  }

  lemma StuckFailure(s: State, p: nat, sid: nat)
    requires Inv(s) && Stuck(s, sid) && CanFailStatement(s, p)
    ensures StuckMove(s, DoFailStatement(s, p), p, sid)
  {
    assert ProcOk(s, s.procs[p]) && StuckProc(s, sid, s.procs[p]) && SessionOk(s, sid);
  }

  lemma StuckUndo(s: State, p: nat, sid: nat)
    requires Inv(s) && Stuck(s, sid) && CanUndo(s, p)
    ensures StuckMove(s, DoUndo(s, p), p, sid)
  {
    assert ProcOk(s, s.procs[p]) && StuckProc(s, sid, s.procs[p]) && SessionOk(s, sid);
  }

  lemma StuckLock(s: State, p: nat, sid: nat)
    requires Inv(s) && Stuck(s, sid) && CanLock(s, p)
    ensures StuckMove(s, DoLock(s, p), p, sid)
  {
    assert ProcOk(s, s.procs[p]) && StuckProc(s, sid, s.procs[p]);
  }

  lemma StuckRelease(s: State, p: nat, sid: nat)
    requires Inv(s) && Stuck(s, sid) && p < |s.procs|
    ensures StuckMove(s, Abandon(s, p, 0), p, sid)
  {
    assert ProcOk(s, s.procs[p]) && StuckProc(s, sid, s.procs[p]);
  }

  lemma StuckRetire(s: State, p: nat, sid: nat)
    requires Inv(s) && Stuck(s, sid) && p < |s.procs|
    ensures CanRetireRow(s, p) ==> StuckMove(s, DoRetireRow(s, p), p, sid)
    ensures CanRetireRowFails(s, p) ==> StuckMove(s, DoRetireRowFails(s, p), p, sid)
  {
    assert ProcOk(s, s.procs[p]) && StuckProc(s, sid, s.procs[p]);
  }

  lemma StuckRemoval(s: State, p: nat, sid: nat)
    requires Inv(s) && Stuck(s, sid) && p < |s.procs|
    ensures CanRetireObject(s, p) ==> StuckMove(s, DoRetireObject(s, p), p, sid)
    ensures CanDeleteRow(s, p) ==> StuckMove(s, DoDeleteRow(s, p), p, sid)
    ensures CanDeleteObject(s, p) ==> StuckMove(s, DoDeleteObject(s, p), p, sid)
  {
    assert ProcOk(s, s.procs[p]) && StuckProc(s, sid, s.procs[p]);
  }

  /** The row, the temporary object and the stepping process itself. */
  lemma StuckSelf(s: State, e: Event, sid: nat)
    requires Inv(s) && Enabled(s, e) && Stuck(s, sid) && !TableEvent(e)
    ensures StuckMove(s, Step(s, e), e.p, sid)
  {
    match e
    case Lock(p) => StuckLock(s, p, sid);
    case OpenTemp(p) => StuckOpen(s, p, sid);
    case WriteSome(p, n) => StuckWrite(s, p, n, sid);
    case Finish(p) => StuckFinish(s, p, sid);
    case StorePart(p) => StuckRelocate(s, p, sid);
    case Move(p) => StuckRelocate(s, p, sid);
    case ChargeUser(p) => StuckCommit(s, p, sid);
    case CommitFile(p) => StuckCommit(s, p, sid);
    case FailStatement(p) => StuckFailure(s, p, sid);
    case Undo(p) => StuckUndo(s, p, sid);
    case MoveBack(p) => StuckMoveBack(s, p, sid);
    case End(p) => StuckRelease(s, p, sid);
    case RetireRow(p) => StuckRetire(s, p, sid);
    case RetireRowFails(p) => StuckRetire(s, p, sid);
    case RetireObject(p) => StuckRemoval(s, p, sid);
    case DeleteRow(p) => StuckRemoval(s, p, sid);
    case DeleteObject(p) => StuckRemoval(s, p, sid);
  }

  /** Once stuck, no append ever succeeds again: the session's committed bytes never grow. */
  lemma {:induction false} StuckForever(s: State, es: seq<Event>, t: State, sid: nat)
    requires Inv(s) && Stuck(s, sid) && IsRun(s, es, t)
    ensures Stuck(t, sid) && t.sessions[sid].accepted == s.sessions[sid].accepted
    decreases |es|
  {
    if |es| > 0 {
      StuckStep(s, es[0], sid);
      InvStep(s, es[0]);
      StuckForever(Step(s, es[0]), es[1..], t, sid);
    }
  }

  // ---- and when nothing was committed before -----------------------------------------------------------

  lemma RunCons(s: State, e: Event, es: seq<Event>, t: State)
    requires Enabled(s, e) && IsRun(Step(s, e), es, t)
    ensures IsRun(s, [e] + es, t)
  {
    assert ([e] + es)[1..] == es;
  }

  /** The temporary object can go while the session stays writable: tusDelete does not look whether its
      UPDATE succeeded. */
  lemma Cleared(s: State, sid: nat) returns (t: State, es: seq<Event>)
    requires sid < |s.sessions|
    ensures IsRun(s, es, t)
    ensures t == s.(procs := s.procs + [Ended(200)], disk := s.disk.Remove(SessionTemp(sid)))
  {
    var n := |s.procs|;
    var a := Step(s, Arrive(Retiring(sid, Canceled, false)));
    assert a == s.(procs := s.procs + [Retiring(sid, Canceled, false)]);
    var b := Step(a, RetireRowFails(n));
    assert b == s.(procs := s.procs + [Retired(sid)]);
    t := Step(b, RetireObject(n));
    assert t.procs == s.procs + [Ended(200)];
    assert IsRun(t, [], t);
    RunCons(b, RetireObject(n), [], t);
    RunCons(a, RetireRowFails(n), [RetireObject(n)] + [], t);
    es := [Arrive(Retiring(sid, Canceled, false))] + ([RetireRowFails(n)] + ([RetireObject(n)] + []));
    RunCons(s, Arrive(Retiring(sid, Canceled, false)), [RetireRowFails(n)] + ([RetireObject(n)] + []), t);
  }

  function OneByteChunk(user: nat, sid: nat): Request {
    Chunk(user, sid, None, None, [7])
  }

  /** A request that is let in and takes its whole body. */
  predicate LetIn(req: Request, sid: nat, row: Session) {
    && req.sid == sid && req.user == row.owner && Gate(req, row).Proceed?
    && Limited(req.body, Gate(req, row).limit) == req.body
  }

  /** A request that finds a session without object and nothing committed, row locked and object opened. */
  lemma FreshOpened(s: State, sid: nat, req: Request) returns (t: State, es: seq<Event>)
    requires sid < |s.sessions| && SessionFree(s, sid) && SessionTemp(sid) !in s.disk.names
    requires LetIn(req, sid, s.sessions[sid]) && s.sessions[sid].uploaded == 0
    ensures IsRun(s, es, t)
    ensures var i := |s.disk.inodes|;
            t == s.(disk := Disk(s.disk.names[SessionTemp(sid) := i], s.disk.inodes + [[]]),
                    procs := s.procs + [Appending(req, s.sessions[sid], i, [], req.body)])
  {
    var n := |s.procs|;
    var row := s.sessions[sid];
    var a := Step(s, Arrive(AppendWaiting(req)));
    assert a == s.(procs := s.procs + [AppendWaiting(req)]);
    forall i | 0 <= i < |a.procs| ensures HeldSession(a.procs[i]) != Some(sid) {
      assert i < |s.procs| ==> a.procs[i] == s.procs[i];
    }
    var b := Step(a, Lock(n));
    assert b == s.(procs := s.procs + [AppendLocked(req, row, req.body)]);
    t := Step(b, OpenTemp(n));
    assert row.(recreated := row.recreated || false) == row;
    assert t.sessions == s.sessions;
    assert t.procs == s.procs + [Appending(req, row, |s.disk.inodes|, [], req.body)];
    assert IsRun(t, [], t);
    RunCons(b, OpenTemp(n), [], t);
    RunCons(a, Lock(n), [OpenTemp(n)] + [], t);
    es := [Arrive(AppendWaiting(req))] + ([Lock(n)] + ([OpenTemp(n)] + []));
    RunCons(s, Arrive(AppendWaiting(req)), [Lock(n)] + ([OpenTemp(n)] + []), t);
  }

  lemma HolderGone(s: State, i: nat, sid: nat)
    requires Structure(s) && sid < |s.sessions| && i < |s.procs| && HeldSession(s.procs[i]) == Some(sid)
    ensures var t := Abandon(s, i, 0);
            && Structure(t) && SessionFree(t, sid) && |t.sessions| == |s.sessions| && t.disk == s.disk
            && t.sessions[sid].(aborted := true) == s.sessions[sid].(aborted := true)
            && t.procs == s.procs[i := Ended(0)]
  {
    AbandonStructure(s, i, 0);
    assert ProcOk(s, s.procs[i]);
  }

  /** Whoever holds a session row can go away at any moment. */
  lemma Freed(s: State, sid: nat) returns (t: State, es: seq<Event>)
    requires Structure(s) && sid < |s.sessions|
    ensures IsRun(s, es, t) && Structure(t) && SessionFree(t, sid) && |t.sessions| == |s.sessions|
    ensures t.sessions[sid].(aborted := true) == s.sessions[sid].(aborted := true)
    ensures t.disk == s.disk && |t.procs| == |s.procs|
    ensures forall i :: 0 <= i < |s.procs| && HeldSession(s.procs[i]) != Some(sid) ==> t.procs[i] == s.procs[i]
  {
    if SessionFree(s, sid) {
      t, es := s, [];
      assert IsRun(s, [], s);
    } else {
      var i :| 0 <= i < |s.procs| && HeldSession(s.procs[i]) == Some(sid);
      t := Step(s, End(i));
      assert t == Abandon(s, i, 0);
      HolderGone(s, i, sid);
      assert IsRun(t, [], t);
      es := [End(i)] + [];
      RunCons(s, End(i), [], t);
    }
  }

  /** Whatever was left behind, a writable session that counts no bytes can still take some. */
  lemma ZeroRecovers(s: State, sid: nat) returns (es: seq<Event>, t: State)
    requires Structure(s) && sid < |s.sessions|
    requires !Terminal(s.sessions[sid].status) && s.sessions[sid].uploaded == 0
    ensures IsRun(s, es, t) && sid < |t.sessions| && t.sessions[sid].accepted == [7]
  {
    var a, es0 := Freed(s, sid);
    var c, es1 := Cleared(a, sid);
    assert SessionOk(s, sid);
    forall i | 0 <= i < |c.procs| ensures HeldSession(c.procs[i]) != Some(sid) {
      assert i < |a.procs| ==> c.procs[i] == a.procs[i];
    }
    var f, es2 := FreshOpened(c, sid, OneByteChunk(c.sessions[sid].owner, sid));
    var es3;
    es3, t := ByteCommitted(f, |c.procs|, sid);
    RunAppend(s, es0, a, es1, c);
    RunAppend(s, es0 + es1, c, es2, f);
    RunAppend(s, es0 + es1 + es2, f, es3, t);
    es := es0 + es1 + es2 + es3;
  }

  lemma ByteCommitted(f: State, n: nat, sid: nat) returns (es: seq<Event>, t: State)
    requires n < |f.procs| && f.procs[n].Appending? && sid < |f.sessions| && f.procs[n].req == OneByteChunk(f.procs[n].row.owner, sid)
    requires f.procs[n].row == f.sessions[sid] && f.procs[n].sent == [] && f.procs[n].rest == [7] && f.procs[n].inode < |f.disk.inodes|
    requires f.sessions[sid].accepted == [] && f.sessions[sid].uploaded == 0
    requires f.sessions[sid].total.Some? ==> f.sessions[sid].total.value > 0
    ensures IsRun(f, es, t) && sid < |t.sessions| && t.sessions[sid].accepted == [7]
  {
    var Appending(req, row, i, _, rest) := f.procs[n];
    var g := Step(f, WriteSome(n, 1));
    assert rest[..1] == [7] && rest[1..] == [] && f.procs[n].sent + [7] == [7];
    assert g.procs[n] == Appending(req, row, i, [7], []) && g.sessions == f.sessions;
    t := Step(g, Finish(n));
    assert IsRun(t, [], t);
    RunCons(g, Finish(n), [], t);
    es := [WriteSome(n, 1)] + ([Finish(n)] + []);
    RunCons(f, WriteSome(n, 1), [Finish(n)] + [], t);
  }

  lemma {:induction false} RunAppend(s: State, es: seq<Event>, t: State, more: seq<Event>, u: State)
    requires IsRun(s, es, t) && IsRun(t, more, u)
    ensures IsRun(s, es + more, u)
    decreases |es|
  {
    if |es| == 0 {
      assert es + more == more;
    } else {
      assert (es + more)[1..] == es[1..] + more;
      RunAppend(Step(s, es[0]), es[1..], t, more, u);
    }
  }

  /** Nothing is committed for the session any more, whatever happens. */
  ghost predicate NeverGrows(s: State, sid: nat)
    requires sid < |s.sessions|
  {
    forall es, t :: IsRun(s, es, t) ==> sid < |t.sessions| && t.sessions[sid].accepted == s.sessions[sid].accepted
  }

  lemma TerminalNeverGrows(s: State, sid: nat)
    requires Inv(s) && sid < |s.sessions| && Terminal(s.sessions[sid].status)
    ensures NeverGrows(s, sid)
  {
    forall es, t | IsRun(s, es, t) ensures sid < |t.sessions| && t.sessions[sid].accepted == s.sessions[sid].accepted {
      RunExtends(s, es, t);
      assert RowGrows(s.sessions[sid], t.sessions[sid]);
    }
  }

  lemma StuckNeverGrows(s: State, sid: nat)
    requires Inv(s) && Stuck(s, sid)
    ensures NeverGrows(s, sid)
  {
    forall es, t | IsRun(s, es, t) ensures sid < |t.sessions| && t.sessions[sid].accepted == s.sessions[sid].accepted {
      StuckForever(s, es, t, sid);
    }
  }

  /** Exactly when an aborted write is the end of its session: if and only if bytes were committed before, or
      somebody has ended it. */
  lemma SticksExactly(s: State, e: Event, sid: nat)
    requires Reachable(s) && GivesUp(s, e, sid) && !s.sessions[sid].exposed
    ensures NeverGrows(Step(s, e), sid) <==> s.sessions[sid].uploaded > 0 || Terminal(s.sessions[sid].status)
  {
    var t := Step(s, e);
    InvReachable(s);
    InvStep(s, e);
    GivingUp(s, e, sid);
    BackedStatus(s, t, e.p, sid);
    if Terminal(t.sessions[sid].status) {
      TerminalNeverGrows(t, sid);
    } else if s.sessions[sid].uploaded > 0 {
      AbortedWriteSticks(s, e, sid);
      StuckNeverGrows(t, sid);
    } else {
      var es, u := ZeroRecovers(t, sid);
      assert SessionOk(s, sid);
    }
  }

  lemma BackedStatus(s: State, t: State, p: nat, sid: nat)
    requires Inv(s) && p < |s.procs| && LooseSid(s.procs[p]) == Some(sid) && sid < |s.sessions| && Backs(s, t, p)
    ensures |t.sessions| == |s.sessions|
    ensures t.sessions[sid].status == s.sessions[sid].status && t.sessions[sid].uploaded == s.sessions[sid].uploaded
  {
    assert ProcOk(s, s.procs[p]);
  }
}
