/** What the invariant means for the program: statements over every reachable state and every run. */
module UploadTheorems {
  import opened Types
  import opened Disk
  import opened UploadModel
  import opened UploadInvariant
  import opened UploadStructure
  import opened UploadLedger
  import opened UploadRuns
  import opened UploadFrames

  // ---- sessions ----------------------------------------------------------------------------------

  /** The terminal statuses form an absorbing set, although cancel and expiry take no status guard. */
  lemma TerminalAbsorbing(s: State, es: seq<Event>, t: State, sid: nat)
    requires Reachable(s) && IsRun(s, es, t) && sid < |s.sessions| && Terminal(s.sessions[sid].status)
    ensures sid < |t.sessions| && Terminal(t.sessions[sid].status)
    ensures t.sessions[sid].fileId == s.sessions[sid].fileId
    ensures t.sessions[sid].uploaded == s.sessions[sid].uploaded
  {
    InvReachable(s);
    RunExtends(s, es, t);
    assert RowGrows(s.sessions[sid], t.sessions[sid]);
  }

  /** The session an event commits a file for. */
  function CommitsFor(s: State, e: Event): Option<nat> {
    if e.CommitFile? && CanCommit(s, e.p) then OriginSid(s.procs[e.p].draft.origin) else None
  }

  /** How many files a run commits for one session. */
  function CommitCount(s: State, es: seq<Event>, sid: nat): nat
    decreases |es|
  {
    if |es| == 0 || !Enabled(s, es[0]) then 0
    else (if CommitsFor(s, es[0]) == Some(sid) then 1 else 0) + CommitCount(Step(s, es[0]), es[1..], sid)
  }

  function HasFile(s: State, sid: nat): nat {
    if sid < |s.sessions| && s.sessions[sid].fileId.Some? then 1 else 0
  }

  lemma CommitStepCounts(s: State, e: Event, sid: nat)
    requires Inv(s) && Enabled(s, e)
    ensures HasFile(Step(s, e), sid) == HasFile(s, sid) + (if CommitsFor(s, e) == Some(sid) then 1 else 0)
  {
    StepExtends(s, e);
    if sid < |s.sessions| {
      assert RowGrows(s.sessions[sid], Step(s, e).sessions[sid]);
    }
    if e.CommitFile? {
      assert ProcOk(s, s.procs[e.p]);
      var o := OriginSid(s.procs[e.p].draft.origin);
      if o.Some? {
        assert SessionOk(s, o.value);
      }
    } else {
      OnlyCommitsSetFile(s, e, sid);
    }
  }

  lemma OnlyCommitsSetFile(s: State, e: Event, sid: nat)
    requires Inv(s) && Enabled(s, e) && !e.CommitFile?
    ensures HasFile(Step(s, e), sid) == HasFile(s, sid)
  {
    if e.OpenTemp? || e.Finish? {
      AppendKeepsFile(s, e.p, sid);
    } else if e.Move? || e.FailStatement? || e.Undo? || e.End? || e.RetireRow? {
      EndKeepsFile(s, e.p, sid);
    } else if !e.Init? {
      SessionsUntouched(s, e);
    }
  }

  lemma AppendKeepsFile(s: State, p: nat, sid: nat)
    requires Inv(s) && p < |s.procs|
    ensures CanOpen(s, p) ==> HasFile(DoOpen(s, p), sid) == HasFile(s, sid)
    ensures CanFinish(s, p) ==> HasFile(DoFinish(s, p), sid) == HasFile(s, sid)
  {
    assert ProcOk(s, s.procs[p]);
  }

  lemma EndKeepsFile(s: State, p: nat, sid: nat)
    requires p < |s.procs|
    ensures CanMove(s, p) ==> HasFile(DoMove(s, p), sid) == HasFile(s, sid)
    ensures CanFailStatement(s, p) ==> HasFile(DoFailStatement(s, p), sid) == HasFile(s, sid)
    ensures CanUndo(s, p) ==> HasFile(DoUndo(s, p), sid) == HasFile(s, sid)
    ensures CanRetireRow(s, p) ==> HasFile(DoRetireRow(s, p), sid) == HasFile(s, sid)
    ensures HasFile(Abandon(s, p, 0), sid) == HasFile(s, sid)
  {
  }

  lemma SessionsUntouched(s: State, e: Event)
    requires Enabled(s, e)
    requires !e.OpenTemp? && !e.Finish? && !e.Move? && !e.FailStatement? && !e.Undo? && !e.End? && !e.RetireRow?
    requires !e.Init? && !e.CommitFile?
    ensures Step(s, e).sessions == s.sessions
  {
  }

  /** One session commits at most one file over any run, and exactly one if its file_id is set. */
  lemma {:induction false} OneCommitPerSession(s: State, es: seq<Event>, t: State, sid: nat)
    requires Inv(s) && IsRun(s, es, t)
    ensures HasFile(s, sid) + CommitCount(s, es, sid) == HasFile(t, sid)
    decreases |es|
  {
    if |es| > 0 {
      CommitStepCounts(s, es[0], sid);
      InvStep(s, es[0]);
      OneCommitPerSession(Step(s, es[0]), es[1..], t, sid);
    }
  }

  lemma OneFilePerSession(s: State, f: nat, g: nat)
    requires Reachable(s) && f < |s.files| && g < |s.files|
    requires OriginSid(s.files[f].origin).Some? && OriginSid(s.files[f].origin) == OriginSid(s.files[g].origin)
    ensures f == g
    ensures OriginSid(s.files[f].origin).value < |s.sessions|
    ensures s.sessions[OriginSid(s.files[f].origin).value].fileId == Some(f)
    ensures Terminal(s.sessions[OriginSid(s.files[f].origin).value].status)
  {
    InvReachable(s);
    assert FileOk(s, f) && FileOk(s, g);
    assert SessionOk(s, OriginSid(s.files[f].origin).value);
  }

  // ---- objects of live files ----------------------------------------------------------------------

  /** Crash safety: whatever was cut short, and wherever, every live file has its object. */
  lemma LiveFilesHaveObjects(s: State, f: nat)
    requires Reachable(s) && f < |s.files| && s.files[f].state.Live?
    ensures Final(s.files[f].serial) in s.disk.names
    ensures forall g :: 0 <= g < |s.files| && g != f ==> s.files[g].serial != s.files[f].serial
  {
    InvReachable(s);
    assert FileOk(s, f);
  }

  lemma LiveObjectStep(s: State, e: Event, f: nat)
    requires Inv(s) && Enabled(s, e) && f < |s.files| && f < |Step(s, e).files|
    requires s.files[f].state.Live? && Step(s, e).files[f].state.Live?
    ensures Step(s, e).disk.Peek(Final(s.files[f].serial)) == s.disk.Peek(Final(s.files[f].serial))
  {
    if DiskEvent(e) {
      LiveObjectKept(s, e, f);
    } else {
      OtherEventsKeepDisk(s, e);
    }
  }

  lemma LiveOpen(s: State, p: nat, f: nat)
    requires Inv(s) && CanOpen(s, p) && f < |s.files| && s.files[f].state.Live?
    ensures DoOpen(s, p).disk.Peek(Final(s.files[f].serial)) == s.disk.Peek(Final(s.files[f].serial))
  {
    assert FileOk(s, f) && ProcOk(s, s.procs[p]);
  }

  lemma LiveWrite(s: State, p: nat, n: nat, f: nat)
    requires Inv(s) && CanWrite(s, p, n) && f < |s.files| && s.files[f].state.Live?
    ensures DoWrite(s, p, n).disk.Peek(Final(s.files[f].serial)) == s.disk.Peek(Final(s.files[f].serial))
  {
    assert FileOk(s, f) && ProcOk(s, s.procs[p]);
  }

  lemma LiveStorePart(s: State, p: nat, f: nat)
    requires Inv(s) && CanStorePart(s, p) && f < |s.files| && s.files[f].state.Live?
    ensures DoStorePart(s, p).disk.Peek(Final(s.files[f].serial)) == s.disk.Peek(Final(s.files[f].serial))
  {
    assert FileOk(s, f) && ProcOk(s, s.procs[p]);
  }

  lemma LiveMove(s: State, p: nat, f: nat)
    requires Inv(s) && CanMove(s, p) && f < |s.files| && s.files[f].state.Live?
    ensures DoMove(s, p).disk.Peek(Final(s.files[f].serial)) == s.disk.Peek(Final(s.files[f].serial))
  {
    assert FileOk(s, f) && ProcOk(s, s.procs[p]);
    assert s.procs[p].draft.serial != s.files[f].serial;
    if SourceKey(s.procs[p].draft) !in s.disk.names {
      assert DoMove(s, p).disk == s.disk;
    }
  }

  lemma LiveMoveBack(s: State, p: nat, f: nat)
    requires Inv(s) && CanMoveBack(s, p) && f < |s.files| && s.files[f].state.Live?
    ensures DoMoveBack(s, p).disk.Peek(Final(s.files[f].serial)) == s.disk.Peek(Final(s.files[f].serial))
  {
    assert FileOk(s, f) && ProcOk(s, s.procs[p]);
    assert s.procs[p].draft.serial != s.files[f].serial;
  }

  lemma LiveRetireObject(s: State, p: nat, f: nat)
    requires Inv(s) && CanRetireObject(s, p) && f < |s.files| && s.files[f].state.Live?
    ensures DoRetireObject(s, p).disk.Peek(Final(s.files[f].serial)) == s.disk.Peek(Final(s.files[f].serial))
  {
    assert FileOk(s, f) && ProcOk(s, s.procs[p]);
  }

  lemma LiveDeleteObject(s: State, p: nat, f: nat)
    requires Inv(s) && CanDeleteObject(s, p) && f < |s.files| && s.files[f].state.Live?
    ensures DoDeleteObject(s, p).disk.Peek(Final(s.files[f].serial)) == s.disk.Peek(Final(s.files[f].serial))
  {
    assert FileOk(s, f) && ProcOk(s, s.procs[p]);
    assert s.files[s.procs[p].fid].serial != s.files[f].serial;
  }

  lemma LiveObjectKept(s: State, e: Event, f: nat)
    requires Inv(s) && Enabled(s, e) && DiskEvent(e) && f < |s.files| && s.files[f].state.Live?
    ensures Step(s, e).disk.Peek(Final(s.files[f].serial)) == s.disk.Peek(Final(s.files[f].serial))
  {
    match e
    case OpenTemp(p) => LiveOpen(s, p, f);
    case WriteSome(p, n) => LiveWrite(s, p, n, f);
    case StorePart(p) => LiveStorePart(s, p, f);
    case Move(p) => LiveMove(s, p, f);
    case MoveBack(p) => LiveMoveBack(s, p, f);
    case RetireObject(p) => LiveRetireObject(s, p, f);
    case DeleteObject(p) => LiveDeleteObject(s, p, f);
  }

  /** A live file's bytes never change again, whatever other requests do. */
  lemma {:induction false} LiveFilesImmutable(s: State, es: seq<Event>, t: State, f: nat)
    requires Inv(s) && IsRun(s, es, t) && f < |s.files| && f < |t.files|
    requires s.files[f].state.Live? && t.files[f].state.Live?
    ensures t.disk.Peek(Final(s.files[f].serial)) == s.disk.Peek(Final(s.files[f].serial))
    decreases |es|
  {
    if |es| > 0 {
      var m := Step(s, es[0]);
      InvStep(s, es[0]);
      StepExtends(s, es[0]);
      RunExtends(m, es[1..], t);
      assert FileGrows(s.files[f], m.files[f]) && FileGrows(m.files[f], t.files[f]);
      LiveObjectStep(s, es[0], f);
      LiveFilesImmutable(m, es[1..], t, f);
    }
  }

  /** The row of a live file against its object.  The object of a part is the part; a tus upload's
      object is all it accepted unless the finalizing PATCH carried nothing and found a hollow object;
      an object finalized by uploadComplete starts with what was accepted, and is just that if no
      request was aborted after writing, unless it is hollow.  Not vouched for are exposed sessions, in
      which a statement failed of a finalization that began with nothing committed. */
  lemma FinalizedContent(s: State, f: nat)
    requires Reachable(s) && f < |s.files| && s.files[f].state.Live?
    ensures var row := s.files[f];
            var o := s.disk.Peek(Final(row.serial));
            && row.size == |row.content|
            && match row.origin
               case FromPart => o == row.content
               case FromTus(sid, sent) =>
                 && sid < |s.sessions| && s.sessions[sid].total == Some(row.size)
                 && s.sessions[sid].accepted == row.content
                 && (!s.sessions[sid].exposed ==>
                       o == row.content || (o == [] && sent == 0 && s.sessions[sid].recreated))
               case FromChunks(sid) =>
                 && sid < |s.sessions| && s.sessions[sid].accepted == row.content
                 && (!s.sessions[sid].exposed ==>
                       || (o == [] && s.sessions[sid].recreated)
                       || (row.content <= o && (!s.sessions[sid].aborted ==> o == row.content)))
  {
    InvReachable(s);
    assert FileOk(s, f) && StoredOk(s, f);
    var sid := OriginSid(s.files[f].origin);
    if sid.Some? {
      assert SessionOk(s, sid.value);
      var es :| IsRun(Initial, es, s);
      ContentIsAccepted(Initial, es, s, f);
    }
  }

  /** The content recorded with a file is what its session has accepted. */
  ghost predicate ContentsAgree(s: State) {
    forall f :: 0 <= f < |s.files| ==> ContentAgrees(s, f)
  }

  ghost predicate ContentAgrees(s: State, f: nat)
    requires f < |s.files|
  {
    var sid := OriginSid(s.files[f].origin);
    sid.Some? && sid.value < |s.sessions| ==> s.sessions[sid.value].accepted == s.files[f].content
  }

  lemma ContentsAgreeStep(s: State, e: Event)
    requires Inv(s) && Enabled(s, e) && ContentsAgree(s)
    ensures ContentsAgree(Step(s, e))
  {
    var t := Step(s, e);
    StepExtends(s, e);
    forall f | 0 <= f < |t.files| ensures ContentAgrees(t, f) {
      if f < |s.files| {
        assert ContentAgrees(s, f) && FileOk(s, f) && FileGrows(s.files[f], t.files[f]);
        var sid := OriginSid(s.files[f].origin);
        if sid.Some? {
          assert SessionOk(s, sid.value) && RowGrows(s.sessions[sid.value], t.sessions[sid.value]);
        }
      } else {
        OnlyCommitsAddFiles(s, e);
      }
    }
  }

  lemma OnlyCommitsAddFiles(s: State, e: Event)
    requires Enabled(s, e)
    ensures |Step(s, e).files| == |s.files| || (e.CommitFile? && |Step(s, e).files| == |s.files| + 1)
  {
  }

  lemma {:induction false} ContentIsAccepted(s: State, es: seq<Event>, t: State, f: nat)
    requires Inv(s) && ContentsAgree(s) && IsRun(s, es, t) && f < |t.files|
    ensures ContentAgrees(t, f)
    decreases |es|
  {
    if |es| > 0 {
      InvStep(s, es[0]);
      ContentsAgreeStep(s, es[0]);
      ContentIsAccepted(Step(s, es[0]), es[1..], t, f);
    }
  }

  /** A caller can tell: a live file is exact if and only if its object has the length of its row. */
  lemma ExactIffLength(s: State, f: nat)
    requires Reachable(s) && f < |s.files| && s.files[f].state.Live?
    requires var sid := OriginSid(s.files[f].origin);
             sid.Some? && sid.value < |s.sessions| ==> !s.sessions[sid.value].exposed
    ensures var o := s.disk.Peek(Final(s.files[f].serial));
            o == s.files[f].content <==> |o| == s.files[f].size
  {
    FinalizedContent(s, f);
  }

  // ---- temporary objects --------------------------------------------------------------------------

  /** A session one can still write to and that is not exposed: its temporary object
      starts with the committed chunks, or is the empty stand-in of a lost one. */
  lemma TempObjectFits(s: State, sid: nat)
    requires Reachable(s) && sid < |s.sessions| && SessionTemp(sid) in s.disk.names
    requires !Terminal(s.sessions[sid].status) && !s.sessions[sid].exposed
    ensures |s.sessions[sid].accepted| == s.sessions[sid].uploaded
    ensures var o := s.disk.Peek(SessionTemp(sid));
            s.sessions[sid].accepted <= o || (o == [] && s.sessions[sid].recreated)
  {
    InvReachable(s);
    assert SessionOk(s, sid) && TempOk(s, sid);
    if i :| 0 <= i < |s.procs| && AheadOf(s.procs[i]) == Some(sid) {
      assert ProcOk(s, s.procs[i]) && AheadOk(s, s.procs[i]);
    }
  }

  /** The length comparison AppendAt makes is the right one: such an object starts with the committed chunks
      exactly when it is long enough, and is them exactly when it is as long as the row counts. */
  lemma LengthCheckSuffices(s: State, sid: nat)
    requires Reachable(s) && sid < |s.sessions| && SessionTemp(sid) in s.disk.names
    requires !Terminal(s.sessions[sid].status) && !s.sessions[sid].exposed
    ensures var o := s.disk.Peek(SessionTemp(sid)); var ses := s.sessions[sid];
            && (ses.accepted <= o <==> |o| >= ses.uploaded)
            && (o == ses.accepted <==> |o| == ses.uploaded)
  {
    TempObjectFits(s, sid);
    var o := s.disk.Peek(SessionTemp(sid));
    if s.sessions[sid].accepted <= o && |o| == s.sessions[sid].uploaded {
      assert o == o[..|s.sessions[sid].accepted|];
    }
  }

  /** The temporary key still denotes the object a chunk request has open. */
  predicate StillNamed(s: State, q: Proc)
    requires q.Appending?
  {
    SessionTemp(q.req.sid) in s.disk.names && s.disk.names[SessionTemp(q.req.sid)] == q.inode
  }

  /** When a chunk commits, the committed bytes grow by exactly its body; the temporary object is there and
      equal to them if and only if the temporary key still denotes the object the request has open (or
      nothing is committed at all).  Otherwise it has been taken away or replaced by an empty one. */
  lemma CommittedChunkExact(s: State, p: nat)
    requires Reachable(s) && CanFinish(s, p) && !s.procs[p].row.exposed
    requires Settle(s.procs[p].req, s.procs[p].row, s.procs[p].row.uploaded + |s.procs[p].sent|).Keep?
    ensures var t := DoFinish(s, p);
            var sid := s.procs[p].req.sid;
            var k := SessionTemp(sid);
            && sid < |t.sessions|
            && t.sessions[sid].accepted == s.sessions[sid].accepted + s.procs[p].sent
            && t.sessions[sid].uploaded == |t.sessions[sid].accepted|
            && ((k in t.disk.names && t.disk.Peek(k) == t.sessions[sid].accepted) <==>
                  StillNamed(s, s.procs[p]) || (k in s.disk.names && t.sessions[sid].accepted == []))
            && (!StillNamed(s, s.procs[p]) ==>
                  k !in t.disk.names || (t.disk.Peek(k) == [] && t.sessions[sid].recreated))
  {
    InvReachable(s);
    assert ProcOk(s, s.procs[p]) && AheadOk(s, s.procs[p]) && SessionOk(s, s.procs[p].req.sid);
  }

  /** Which sessions become exposed, exactly: those of which a finalization that began with nothing committed
      has moved an object that is not empty, when a statement of it fails. */
  lemma ExposedExactly(s: State, e: Event, sid: nat)
    requires Inv(s) && Enabled(s, e) && sid < |s.sessions| && !s.sessions[sid].exposed
    ensures sid < |Step(s, e).sessions|
    ensures Step(s, e).sessions[sid].exposed <==> Exposes(s, e, sid)
  {
    StepExtends(s, e);
    if e.FailStatement? {
      FailureExposes(s, e.p, sid);
    } else if e.OpenTemp? || e.Finish? || e.Move? || e.CommitFile? || e.Undo? || e.End? || e.RetireRow? {
      OthersExposeNone(s, e.p, sid);
    } else if !e.Init? {
      SessionsUntouched(s, e);
    }
  }

  predicate Exposes(s: State, e: Event, sid: nat)
    requires sid < |s.sessions|
  {
    && e.FailStatement? && CanFailStatement(s, e.p) && OriginSid(s.procs[e.p].draft.origin) == Some(sid)
    && s.sessions[sid].uploaded == 0 && s.disk.Peek(Final(s.procs[e.p].draft.serial)) != []
  }

  lemma FailureExposes(s: State, p: nat, sid: nat)
    requires Inv(s) && CanFailStatement(s, p) && sid < |s.sessions| && !s.sessions[sid].exposed
    ensures DoFailStatement(s, p).sessions[sid].exposed <==> Exposes(s, FailStatement(p), sid)
    ensures DoFailStatement(s, p).sessions[sid].exposed ==> DoFailStatement(s, p).sessions[sid].aborted
  {
    assert ProcOk(s, s.procs[p]) && DisplacedOk(s, s.procs[p]) && SessionOk(s, sid);
  }

  /** An exposed session had a request that wrote bytes it did not commit. */
  lemma {:induction false} ExposedNeedsAbort(s: State, es: seq<Event>, t: State)
    requires Inv(s) && IsRun(s, es, t) && forall sid :: 0 <= sid < |s.sessions| ==> ExposedOk(s.sessions[sid])
    ensures forall sid :: 0 <= sid < |t.sessions| ==> ExposedOk(t.sessions[sid])
    decreases |es|
  {
    if |es| > 0 {
      InvStep(s, es[0]);
      ExposedStep(s, es[0]);
      ExposedNeedsAbort(Step(s, es[0]), es[1..], t);
    }
  }

  predicate ExposedOk(row: Session) {
    row.exposed ==> row.aborted
  }

  lemma ExposedStep(s: State, e: Event)
    requires Inv(s) && Enabled(s, e) && forall sid :: 0 <= sid < |s.sessions| ==> ExposedOk(s.sessions[sid])
    ensures forall sid :: 0 <= sid < |Step(s, e).sessions| ==> ExposedOk(Step(s, e).sessions[sid])
  {
    var t := Step(s, e);
    forall sid | 0 <= sid < |t.sessions| ensures ExposedOk(t.sessions[sid]) {
      if sid < |s.sessions| {
        ExposedRow(s, e, sid);
      } else {
        RowsMadeUnexposed(s, e, sid);
      }
    }
  }

  lemma ExposedRow(s: State, e: Event, sid: nat)
    requires Inv(s) && Enabled(s, e) && sid < |s.sessions| && ExposedOk(s.sessions[sid])
    ensures sid < |Step(s, e).sessions| && ExposedOk(Step(s, e).sessions[sid])
  {
    StepExtends(s, e);
    assert RowGrows(s.sessions[sid], Step(s, e).sessions[sid]);
    if !s.sessions[sid].exposed {
      ExposedExactly(s, e, sid);
      if e.FailStatement? {
        FailureExposes(s, e.p, sid);
        assert Step(s, e) == DoFailStatement(s, e.p);
      }
    }
  }

  lemma RowsMadeUnexposed(s: State, e: Event, sid: nat)
    requires Inv(s) && Enabled(s, e) && |s.sessions| <= sid < |Step(s, e).sessions|
    ensures !Step(s, e).sessions[sid].exposed
  {
  }

  lemma OthersExposeNone(s: State, p: nat, sid: nat)
    requires Inv(s) && p < |s.procs| && sid < |s.sessions| && !s.sessions[sid].exposed
    ensures CanOpen(s, p) ==> !DoOpen(s, p).sessions[sid].exposed
    ensures CanFinish(s, p) ==> !DoFinish(s, p).sessions[sid].exposed
    ensures CanMove(s, p) ==> !DoMove(s, p).sessions[sid].exposed
    ensures CanCommit(s, p) ==> !DoCommit(s, p).sessions[sid].exposed
    ensures CanUndo(s, p) ==> !DoUndo(s, p).sessions[sid].exposed
    ensures CanRetireRow(s, p) ==> !DoRetireRow(s, p).sessions[sid].exposed
    ensures !Abandon(s, p, 0).sessions[sid].exposed
  {
    assert ProcOk(s, s.procs[p]);
  }

  // ---- quota and ledger ---------------------------------------------------------------------------

  /** The sum of the files a folder delete dropped since the last recalculation. */
  function DroppedSum(files: seq<FileRow>, u: nat): nat {
    if |files| == 0 then 0
    else
      var f := files[|files| - 1];
      DroppedSum(files[..|files| - 1], u)
      + (if f.owner == u && f.state.Dropped? && f.state.charged then f.size else 0)
  }

  lemma {:induction false} ChargedIsLivePlusDropped(files: seq<FileRow>, u: nat)
    ensures ChargedSum(files, u) == LiveSum(files, u) + DroppedSum(files, u)
    decreases |files|
  {
    if |files| > 0 {
      ChargedIsLivePlusDropped(files[..|files| - 1], u);
    }
  }

  /** used_storage_bytes is the live sizes plus the sizes dropped since the last recalculation, so the
      clamp at zero in deleteFile never fires. */
  lemma LedgerExact(s: State, u: nat, f: nat)
    requires Reachable(s) && u < |s.users|
    ensures s.users[u].used == LiveSum(s.files, u) + DroppedSum(s.files, u)
    ensures f < |s.files| && s.files[f].owner == u && s.files[f].state.Live? ==> s.files[f].size <= s.users[u].used
  {
    InvReachable(s);
    ChargedIsLivePlusDropped(s.files, u);
    if f < |s.files| {
      SumCovers(s.files, f, u);
    }
  }

  lemma {:induction false} SettledKeepsLive(s: State, live: bool, n: nat, u: nat)
    requires n <= |s.files|
    ensures LiveSum(DoRecalc(s, live).files[..n], u) == LiveSum(s.files[..n], u)
    decreases n
  {
    if n > 0 {
      SettledKeepsLive(s, live, n - 1, u);
      assert DoRecalc(s, live).files[..n][..n - 1] == DoRecalc(s, live).files[..n - 1];
      assert s.files[..n][..n - 1] == s.files[..n - 1];
    }
  }

  lemma SettledKeepsHasLive(s: State, live: bool, u: nat)
    ensures HasLive(DoRecalc(s, live).files, u) == HasLive(s.files, u)
  {
    var t := DoRecalc(s, live);
    if HasLive(s.files, u) {
      var i :| 0 <= i < |s.files| && s.files[i].owner == u && s.files[i].state.Live?;
      assert t.files[i] == s.files[i];
    }
    if HasLive(t.files, u) {
      var i :| 0 <= i < |t.files| && t.files[i].owner == u && t.files[i].state.Live?;
      assert t.files[i] == s.files[i];
    }
  }

  lemma RecalcKeepsLiveSum(s: State, live: bool, u: nat)
    ensures LiveSum(DoRecalc(s, live).files, u) == LiveSum(s.files, u)
  {
    SettledKeepsLive(s, live, |s.files|, u);
    assert s.files[..|s.files|] == s.files;
    assert DoRecalc(s, live).files[..|s.files|] == DoRecalc(s, live).files;
  }

  /** The steps on the tables alone: new users have used nothing, a new quota changes nothing but that, and deleting
      folders drops the live files of their owner and leaves the usage as it is. */
  lemma TableSteps(s: State, quota: Option<nat>, u: nat, ids: set<nat>)
    ensures Step(s, AddUser(quota)) == s.(users := s.users + [User(quota, 0)])
    ensures Enabled(s, SetQuota(u, quota)) <==> u < |s.users| && UserFree(s, u)
    ensures Enabled(s, SetQuota(u, quota)) ==>
              Step(s, SetQuota(u, quota)) == s.(users := s.users[u := User(quota, s.users[u].used)])
    ensures var t := Step(s, DropFiles(u, ids));
            && t == s.(files := t.files) && |t.files| == |s.files|
            && forall f :: 0 <= f < |s.files| ==>
                 t.files[f] == if f in ids && s.files[f].owner == u && s.files[f].state == Live
                               then s.files[f].(state := Dropped(true)) else s.files[f]
  {
  }

  /** The recalculation changes the usage, and that dropped rows are charged to nobody any more. */
  lemma RecalculationTables(s: State)
    requires Enabled(s, RecalcLive)
    ensures Enabled(Step(s, RecalcLive), RecalcRest)
    ensures var t := Step(Step(s, RecalcLive), RecalcRest);
            && t == s.(users := t.users, files := t.files) && |t.users| == |s.users| && |t.files| == |s.files|
            && forall f :: 0 <= f < |s.files| ==>
                 t.files[f] == if s.files[f].state.Dropped? then s.files[f].(state := Dropped(false)) else s.files[f]
  {
    RecalcEnables(s);
    var m, t := DoRecalc(s, true), DoRecalc(DoRecalc(s, true), false);
    assert Step(Step(s, RecalcLive), RecalcRest) == t;
    forall f | 0 <= f < |s.files|
      ensures t.files[f] == if s.files[f].state.Dropped? then s.files[f].(state := Dropped(false)) else s.files[f]
    {
      SettledKeepsHasLive(s, true, s.files[f].owner);
      assert m.files[f] == SettledRow(s.files[f], s.files, true);
      assert t.files[f] == SettledRow(m.files[f], m.files, false);
    }
  }

  /** Both recalculation statements together make every user exact and raise nobody. */
  lemma RecalculationExact(s: State, u: nat)
    requires Reachable(s) && Enabled(s, RecalcLive) && u < |s.users|
    ensures Enabled(Step(s, RecalcLive), RecalcRest)
    ensures var t := Step(Step(s, RecalcLive), RecalcRest);
            && u < |t.users| && t.users[u].used == LiveSum(t.files, u) == LiveSum(s.files, u)
            && t.users[u].used <= s.users[u].used
            && t.users[u].quota == s.users[u].quota
  {
    InvReachable(s);
    RecalcTwice(s, u);
    LiveWithinCharged(s.files, u);
    RecalcEnables(s);
  }

  lemma RecalcEnables(s: State)
    requires Enabled(s, RecalcLive)
    ensures Enabled(Step(s, RecalcLive), RecalcRest)
  {
    forall v | 0 <= v < |s.users| ensures UserFree(Step(s, RecalcLive), v) {
      assert UserFree(s, v);
    }
  }

  lemma RecalcTwice(s: State, u: nat)
    requires Ledger(s) && u < |s.users|
    ensures var t := DoRecalc(DoRecalc(s, true), false);
            && u < |t.users| && t.users[u].used == LiveSum(t.files, u) == LiveSum(s.files, u)
            && t.users[u].quota == s.users[u].quota
  {
    var m := DoRecalc(s, true);
    RecalcLedger(s, true);
    RecalcExact(s, true, u);
    RecalcExact(m, false, u);
    SettledKeepsHasLive(s, true, u);
    RecalcKeepsLiveSum(s, true, u);
    RecalcKeepsLiveSum(m, false, u);
  }

  /** The only step that raises a user's usage commits one file of just that size, and leaves the
      usage within the quota then in force. */
  lemma UsageRises(s: State, e: Event, u: nat)
    requires Reachable(s) && Enabled(s, e) && u < |s.users| && u < |Step(s, e).users|
    requires Step(s, e).users[u].used > s.users[u].used
    ensures var t := Step(s, e);
            && e.CommitFile? && |t.files| == |s.files| + 1
            && t.files[|s.files|].owner == u && t.files[|s.files|].state.Live?
            && t.users[u].used == s.users[u].used + t.files[|s.files|].size
            && (t.users[u].quota.Some? ==> t.users[u].used <= t.users[u].quota.value)
  {
    InvReachable(s);
    if e.CommitFile? {
      CommitRaises(s, e.p, u);
    } else if e.DeleteRow? {
      DeletionLowers(s, e.p, u);
    } else if e.RecalcLive? || e.RecalcRest? {
      RecalcExact(s, e.RecalcLive?, u);
      LiveWithinCharged(s.files, u);
    } else {
      OthersKeepUsage(s, e, u);
    }
  }

  lemma CommitRaises(s: State, p: nat, u: nat)
    requires Structure(s) && CanCommit(s, p) && u < |s.users| && DoCommit(s, p).users[u].used > s.users[u].used
    ensures var t := DoCommit(s, p);
            && t.files[|s.files|].owner == u && t.files[|s.files|].state.Live?
            && t.users[u].used == s.users[u].used + t.files[|s.files|].size
            && (t.users[u].quota.Some? ==> t.users[u].used <= t.users[u].quota.value)
  {
  }

  lemma DeletionLowers(s: State, p: nat, u: nat)
    requires Inv(s) && CanDeleteRow(s, p) && u < |s.users|
    ensures DoDeleteRow(s, p).users[u].used <= s.users[u].used
  {
    var f := s.procs[p].fid;
    if s.files[f].state.Live? {
      SumCovers(s.files, f, s.files[f].owner);
    }
  }

  lemma OthersKeepUsage(s: State, e: Event, u: nat)
    requires Enabled(s, e) && u < |s.users| && u < |Step(s, e).users|
    requires !e.CommitFile? && !e.DeleteRow? && !e.RecalcLive? && !e.RecalcRest?
    ensures Step(s, e).users[u].used == s.users[u].used
  {
  }

  predicate WithinQuotas(s: State) {
    forall u | 0 <= u < |s.users| :: WithinQuota(s.users[u], 0)
  }

  /** No administrator lowers a quota anywhere in the run (no quota is the highest one). */
  predicate NeverLowered(s: State, es: seq<Event>)
    decreases |es|
  {
    |es| == 0 || !Enabled(s, es[0]) ||
    ((es[0].SetQuota? ==>
        es[0].quota.None?
        || (s.users[es[0].u].quota.Some? && s.users[es[0].u].quota.value <= es[0].quota.value))
     && NeverLowered(Step(s, es[0]), es[1..]))
  }

  lemma QuotaStep(s: State, e: Event)
    requires Reachable(s) && Enabled(s, e) && WithinQuotas(s)
    requires e.SetQuota? ==> e.quota.None? || (s.users[e.u].quota.Some? && s.users[e.u].quota.value <= e.quota.value)
    ensures WithinQuotas(Step(s, e))
  {
    var t := Step(s, e);
    StepUsers(s, e);
    forall u | 0 <= u < |t.users| ensures WithinQuota(t.users[u], 0) {
      if u < |s.users| {
        assert WithinQuota(s.users[u], 0);
        if t.users[u].used > s.users[u].used {
          UsageRises(s, e, u);
        }
      }
    }
  }

  /** Only SetQuota changes a quota, and a new user starts at zero. */
  lemma StepUsers(s: State, e: Event)
    requires Enabled(s, e)
    ensures |s.users| <= |Step(s, e).users|
    ensures forall u :: 0 <= u < |s.users| && !(e.SetQuota? && e.u == u) ==> Step(s, e).users[u].quota == s.users[u].quota
    ensures forall u :: |s.users| <= u < |Step(s, e).users| ==> Step(s, e).users[u].used == 0
  {
  }

  /** Hence usage never exceeds a quota that is never lowered, whatever uploads run side by side. */
  lemma {:induction false} QuotaRespected(s: State, es: seq<Event>, t: State)
    requires Reachable(s) && WithinQuotas(s) && IsRun(s, es, t) && NeverLowered(s, es)
    ensures WithinQuotas(t)
    decreases |es|
  {
    if |es| > 0 {
      QuotaStep(s, es[0]);
      ReachStep(s, es[0]);
      QuotaRespected(Step(s, es[0]), es[1..], t);
    }
  }
}
