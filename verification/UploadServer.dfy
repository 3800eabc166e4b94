/** The request handlers themselves, statement by statement, on one shared server.

    Between any two statements other requests may take any steps (Others).  The statements of an append, of
    a finalization and of a delete that write may fail, and so may a Move (the nondeterministic branches);
    the lock of a row that is free is got.  Every change goes through Fire, so an execution of a handler is
    always a run of the upload machine and every theorem about reachable states applies to it. */
module UploadServer {
  import opened Types
  import opened Disk
  import opened UploadModel
  import opened UploadInvariant
  import opened UploadStructure
  import opened UploadRuns
  import opened UploadFrames
  import opened UploadTheorems

  /** What a request came to see: no row of its user, the row it locked, the row and the length of the
      temporary object it opened. */
  datatype Seen = NoRow | Row(ses: Session) | Object(ses: Session, length: nat)

  /** How a finalizing transaction ends. */
  datatype Ending = Done | Clash | OverQuota | Broken

  /** A moment of a trace: the number of steps taken, and the state they led to. */
  datatype Moment = Moment(k: nat, st: State)

  /** The next step at that moment was e. */
  ghost predicate Before(trace: seq<Event>, m: Moment, e: Event) {
    m.k < |trace| && trace[m.k] == e && IsRun(Initial, trace[..m.k], m.st)
  }

  lemma BeforeLater(trace: seq<Event>, later: seq<Event>, m: Moment, e: Event)
    requires trace <= later && Before(trace, m, e)
    ensures Before(later, m, e)
  {
    assert later[..m.k] == trace[..m.k];
  }

  lemma JustBefore(trace: seq<Event>, s: State, e: Event, later: seq<Event>)
    requires IsRun(Initial, trace, s) && trace + [e] <= later
    ensures Before(later, Moment(|trace|, s), e)
  {
    assert later[..|trace|] == trace;
    assert later[|trace|] == (trace + [e])[|trace|];
  }

  /** What a request sees when it gets its row lock, and when it opens its object. */
  function SeenAtLock(s: State, req: Request): Seen {
    if req.sid < |s.sessions| && s.sessions[req.sid].owner == req.user then Row(s.sessions[req.sid]) else NoRow
  }

  function SeenAtOpen(s: State, req: Request): Seen {
    if req.sid < |s.sessions| then Object(s.sessions[req.sid], |s.disk.Peek(SessionTemp(req.sid))|) else NoRow
  }

  /** A new process p of this very request is about to take step e, at a moment after the call. */
  ghost predicate Own(base: State, from: seq<Event>, trace: seq<Event>, req: Request, p: nat, m: Moment, e: Event) {
    && |base.procs| <= p < |m.st.procs| && |from| <= m.k && Before(trace, m, e)
    && (m.st.procs[p] == AppendWaiting(req) || (m.st.procs[p].AppendLocked? && m.st.procs[p].req == req)
        || (m.st.procs[p].Appending? && m.st.procs[p].req == req))
  }

  /** Why a request was answered before it opened its object: it gave up waiting for a row that was locked, or
      it was refused on the row as it was under its lock. */
  ghost predicate AnsweredAtLock(base: State, from: seq<Event>, trace: seq<Event>, req: Request, p: nat, m: Moment, code: nat) {
    || (Own(base, from, trace, req, p, m, End(p)) && m.st.procs[p].AppendWaiting?
        && !SessionFree(m.st, req.sid) && code == 500)
    || (Own(base, from, trace, req, p, m, Lock(p)) && m.st.procs[p].AppendWaiting?
        && RefusedAtLock(SeenAtLock(m.st, req), req) && code == AppendAnswer(req, SeenAtLock(m.st, req)))
  }

  /** Or afterwards: it opened the object while the row was still that one, and got the answer the two call for,
      or was cut short while writing. */
  ghost predicate AnsweredAtOpen(base: State, from: seq<Event>, trace: seq<Event>, req: Request, p: nat, m: Moment, code: nat) {
    && Own(base, from, trace, req, p, m, OpenTemp(p)) && Opens(m.st, req, p)
    && (code == AppendAnswer(req, SeenAtOpen(m.st, req))
        || (code == 500 && SeenAtOpen(m.st, req).length == m.st.sessions[req.sid].uploaded && CutShort(trace, p, m)))
  }

  ghost predicate Answered(base: State, from: seq<Event>, trace: seq<Event>, req: Request, p: nat, m: Moment, code: nat) {
    AnsweredAtLock(base, from, trace, req, p, m, code) || AnsweredAtOpen(base, from, trace, req, p, m, code)
  }

  /** The last step of this very request, just taken, kept its body: what was committed when it opened the
      object grew by exactly that. */
  ghost predicate Kept(base: State, from: seq<Event>, trace: seq<Event>, req: Request, p: nat, seen: Moment, done: Moment,
                       now: State)
  {
    && seen.k < done.k && req.sid < |seen.st.sessions|
    && Own(base, from, trace, req, p, done, Finish(p)) && CanFinish(done.st, p) && now == DoFinish(done.st, p)
    && Grows(done.st, now, req.sid, seen.st.sessions[req.sid].accepted, req.body)
  }

  /** The COMMIT of this very request, just taken, did. */
  ghost predicate KeptLast(trace: seq<Event>, req: Request, p: nat, seen: Moment, done: Moment, now: State) {
    && seen.k < done.k && req.sid < |seen.st.sessions|
    && Before(trace, done, CommitFile(p)) && CanCommit(done.st, p) && now == DoCommit(done.st, p)
    && Grows(done.st, now, req.sid, seen.st.sessions[req.sid].accepted, req.body)
    && now.sessions[req.sid].status.Completed?
  }

  predicate RefusedAtLock(seen: Seen, req: Request) {
    seen.NoRow? || (seen.Row? && Gate(req, seen.ses).Refuse?)
  }

  /** Process p holds the lock of the row it read, which is a row of its user that lets it proceed. */
  predicate Opens(s: State, req: Request, p: nat)
    requires p < |s.procs|
  {
    && s.procs[p].AppendLocked? && req.sid < |s.sessions|
    && s.procs[p].row == s.sessions[req.sid] && s.sessions[req.sid].owner == req.user
    && Gate(req, s.sessions[req.sid]).Proceed?
  }

  ghost predicate CutShort(trace: seq<Event>, p: nat, m: Moment) {
    exists j :: m.k < j < |trace| && trace[j] == End(p)
  }

  /** The step of process p at that moment takes the committed bytes from what they were to that and the body. */
  predicate Grows(s: State, t: State, sid: nat, before: Bytes, body: Bytes) {
    && sid < |s.sessions| && sid < |t.sessions|
    && s.sessions[sid].accepted == before && t.sessions[sid].accepted == before + body
    && t.sessions[sid].uploaded == |before| + |body|
  }

  /** How finalizing a draft ended, and where: a COMMIT that was possible; the quota exceeded, with the users row
      locked or, for a part, before, or a failing quota check; a failing INSERT; or a Move without an object, an
      early end, which the COMMIT of a PATCH counts among, or another failing statement. */
  ghost predicate Finalized(trace: seq<Event>, m: Moment, p: nat, d: Draft, ending: Ending) {
    && p < |m.st.procs| && DraftOf(m.st.procs[p]) == Some(d)
    && match ending
       case Done =>
         && Before(trace, m, CommitFile(p)) && m.st.procs[p].Charged? && CanCommit(m.st, p)
         && d.owner < |m.st.users|
         && (m.st.users[d.owner].quota.Some? ==> m.st.users[d.owner].used + d.size <= m.st.users[d.owner].quota.value)
       case OverQuota =>
         || (Before(trace, m, Undo(p)) && (m.st.procs[p].Charged? || (m.st.procs[p].Moved? && d.origin.FromPart?))
             && d.owner < |m.st.users| && m.st.users[d.owner].quota.Some?
             && m.st.users[d.owner].used + d.size > m.st.users[d.owner].quota.value)
         || (Before(trace, m, FailStatement(p)) && m.st.procs[p].Charged?)
       case Clash => Before(trace, m, FailStatement(p)) && m.st.procs[p].Moved?
       case Broken =>
         || (Before(trace, m, Move(p)) && m.st.procs[p].Moving? && SourceKey(d) !in m.st.disk.names)
         || (Before(trace, m, End(p)) && (m.st.procs[p].Charged? ==> d.origin.FromTus?))
         || (Before(trace, m, FailStatement(p)) && (m.st.procs[p].Moved? || m.st.procs[p].Charged?))
  }

  /** How the transaction of a PATCH that reached the declared length ended: it was about what was accepted when
      the request opened its object, and the body. */
  ghost predicate LastAnswered(trace: seq<Event>, req: Request, p: nat, seen: Moment, done: Moment, ending: Ending) {
    && seen.k < done.k && req.sid < |seen.st.sessions| && p < |done.st.procs| && DraftOf(done.st.procs[p]).Some?
    && LastDraft(DraftOf(done.st.procs[p]).value, req, seen.st.sessions[req.sid].accepted)
    && Finalized(trace, done, p, DraftOf(done.st.procs[p]).value, ending)
  }

  predicate LastDraft(d: Draft, req: Request, accepted: Bytes) {
    && d.owner == req.user && d.origin == FromTus(req.sid, |req.body|)
    && d.content == accepted + req.body && d.size == |d.content|
  }

  /** The file committed last is the draft's, charged within the quota, and its session is completed with it. */
  ghost predicate Committed(s: State, d: Draft) {
    var n := |s.files|;
    && n > 0
    && s.files[n - 1] == FileRow(d.owner, d.serial, d.size, Live, d.origin, d.content)
    && Final(d.serial) in s.disk.names
    && (OriginSid(d.origin).Some? ==>
          && OriginSid(d.origin).value < |s.sessions|
          && var ses := s.sessions[OriginSid(d.origin).value];
             ses.status.Completed? && ses.fileId == Some(n - 1)
             && ses.uploaded == d.size && ses.accepted == d.content)
    && d.owner < |s.users| && (s.users[d.owner].quota.Some? ==> s.users[d.owner].used <= s.users[d.owner].quota.value)
  }

  lemma CommitCommits(s: State, p: nat)
    requires Structure(s) && CanCommit(s, p)
    ensures Committed(DoCommit(s, p), s.procs[p].draft) && DoCommit(s, p).disk == s.disk
    ensures DoCommit(s, p).procs[p] == Ended(match s.procs[p].draft.origin
                                             case FromChunks(_) => 200
                                             case FromTus(_, _) => 204
                                             case FromPart => 201)
  {
    assert ProcOk(s, s.procs[p]);
  }

  /** The COMMIT of a last PATCH adds exactly its body to what was committed when it held the row. */
  lemma CommitGrows(s: State, trace: seq<Event>, p: nat, accepted: Bytes, body: Bytes)
    requires IsRun(Initial, trace, s) && CanCommit(s, p)
    requires s.procs[p].draft.origin.FromTus? && s.procs[p].draft.origin.sent == |body|
    requires s.procs[p].draft.content == accepted + body
    ensures Grows(s, DoCommit(s, p), s.procs[p].draft.origin.sid, accepted, body)
    ensures DoCommit(s, p).sessions[s.procs[p].draft.origin.sid].status.Completed?
  {
    InvReachable(s);
    var d := s.procs[p].draft;
    var ses := s.sessions[d.origin.sid];
    assert ProcOk(s, s.procs[p]);
    assert ses.accepted == d.content[..|ses.accepted|] && accepted == d.content[..|accepted|];
  }

  /** The draft of a completion: all its session has accepted. */
  function CompletionDraft(s: State, sid: nat): Draft
    requires sid < |s.sessions|
  {
    var row := s.sessions[sid];
    Draft(row.owner, s.minted, row.uploaded, FromChunks(sid), row.accepted)
  }

  /** Why a completion was answered as it was: it gave up waiting for a row that was locked; or it was refused on
      the row as it was under its lock; or it was let in, with what the row had accepted, and its transaction
      ended like that. */
  ghost predicate CompletionAnswered(base: State, from: seq<Event>, trace: seq<Event>, user: nat, sid: nat,
                                     p: nat, m: Moment, done: Moment, code: nat)
  {
    && |base.procs| <= p < |m.st.procs| && |from| <= m.k && m.st.procs[p] == CompleteWaiting(user, sid)
    && if Before(trace, m, End(p)) then !SessionFree(m.st, sid) && code == 500
       else
         && Before(trace, m, Lock(p))
         && if sid >= |m.st.sessions| || m.st.sessions[sid].owner != user then code == 404
            else
              var row := m.st.sessions[sid];
              match row.status
              case Completed => code == 200
              case Canceled => code == 409
              case Failed => code == 409
              case Expired => code == 409
              case _ =>
                if row.total.Some? && row.total.value != row.uploaded then code == 409
                else
                  && m.k < done.k
                  && Finalized(trace, done, p, CompletionDraft(m.st, sid),
                               if code == 200 then Done else if code == 409 then Clash else if code == 413 then OverQuota else Broken)
                  && code in {200, 409, 413, 500}
  }

  /** The rows a completion is let in for: writable, and with all that was declared. */
  predicate Completable(row: Session) {
    Writable(row) && (row.total.Some? ==> row.uploaded == row.total.value)
  }

  /** The completion locked a row of its user that may be completed. */
  ghost predicate LetComplete(trace: seq<Event>, user: nat, sid: nat, p: nat, m: Moment) {
    Before(trace, m, Lock(p)) && sid < |m.st.sessions| && m.st.sessions[sid].owner == user && Completable(m.st.sessions[sid])
  }

  /** Nothing is left of the request but its answer. */
  predicate OnlyAnswered(s: State, t: State, p: nat) {
    t.users == s.users && t.sessions == s.sessions && t.files == s.files && t.disk == s.disk
    && p < |s.procs| == |t.procs| && t.procs == s.procs[p := t.procs[p]] && t.procs[p].Ended?
  }

  /** The answer to an append when no statement fails; 0 stands for "go on to finalize". */
  function AppendAnswer(req: Request, seen: Seen): nat {
    match seen
    case NoRow => 404
    case Row(ses) => (match Gate(req, ses) case Refuse(code) => code case Proceed(_) => 500)
    case Object(ses, length) =>
      match Gate(req, ses)
      case Refuse(code) => code
      case Proceed(limit) =>
        if length != ses.uploaded then (if req.Chunk? then 409 else 500)
        else match Settle(req, ses, ses.uploaded + |Limited(req.body, limit)|)
          case Reject(code) => code
          case Keep => if req.Chunk? then 200 else 204
          case Finalize => 0
  }

  /** What a chunk is answered, exactly, on the row it locked: nothing of its user; a terminal row or another offset;
      a row above the configured maximum already; and otherwise it is let in, and of a body that is too big one byte more
      is read than fits. */
  lemma ChunkLockMeaning(req: Request, ses: Session)
    requires req.Chunk?
    ensures AppendAnswer(req, NoRow) == 404
    ensures RefusedAtLock(Row(ses), req) <==>
              || ses.status in {Completed, Canceled, Failed, Expired}
              || (req.offset.Some? && req.offset.value != ses.uploaded)
              || (req.cap.Some? && req.cap.value < ses.uploaded)
    ensures RefusedAtLock(Row(ses), req) ==>
              AppendAnswer(req, Row(ses)) ==
                if ses.status in {Completed, Canceled, Failed, Expired} || (req.offset.Some? && req.offset.value != ses.uploaded)
                then 409 else 413
    ensures !RefusedAtLock(Row(ses), req) ==>
              Limited(req.body, Gate(req, ses).limit) ==
                if req.cap.Some? && |req.body| > req.cap.value - ses.uploaded then req.body[..req.cap.value - ses.uploaded + 1]
                else req.body
  {
  }

  /** And once it is let in, with the object it opened: another length than the row counts; a body above the
      configured maximum; above the declared length; and otherwise it is taken. */
  lemma ChunkAnswerMeaning(req: Request, ses: Session, length: nat)
    requires req.Chunk? && !RefusedAtLock(Row(ses), req)
    ensures AppendAnswer(req, Object(ses, length)) == 200 <==>
            length == ses.uploaded && Fitting(req, ses, ses.uploaded + |req.body|)
    ensures AppendAnswer(req, Object(ses, length)) == 413 <==>
            length == ses.uploaded && req.cap.Some? && req.cap.value < ses.uploaded + |req.body|
    ensures AppendAnswer(req, Object(ses, length)) == 409 <==>
            || length != ses.uploaded
            || (ses.total.Some? && ses.total.value < ses.uploaded + |req.body|
                && (req.cap.Some? ==> ses.uploaded + |req.body| <= req.cap.value))
    ensures AppendAnswer(req, Object(ses, length)) in {200, 409, 413}
  {
  }

  predicate Fitting(req: Request, ses: Session, end: nat)
    requires req.Chunk?
  {
    && ses.status in {Initialized, Uploading, Paused} && (req.offset.Some? ==> req.offset.value == ses.uploaded)
    && (req.cap.Some? ==> end <= req.cap.value) && (ses.total.Some? ==> end <= ses.total.value)
  }

  /** What a PATCH is answered, exactly, on the row it locked: nothing of its user; no declared length; completed
      already; ended otherwise or another offset; and otherwise it is let in. */
  lemma PatchLockMeaning(req: Request, ses: Session)
    requires req.Patch?
    ensures AppendAnswer(req, NoRow) == 404
    ensures RefusedAtLock(Row(ses), req) <==>
              ses.total.None? || ses.status in {Completed, Canceled, Failed, Expired} || req.at != ses.uploaded
    ensures RefusedAtLock(Row(ses), req) ==>
              AppendAnswer(req, Row(ses)) ==
                if ses.total.None? then 400 else if ses.status == Completed then 204 else 409
    ensures !RefusedAtLock(Row(ses), req) && ses.uploaded <= ses.total.value ==>
              Limited(req.body, Gate(req, ses).limit) ==
                if |req.body| > ses.total.value - ses.uploaded then req.body[..ses.total.value - ses.uploaded + 1]
                else req.body
  {
  }

  /** And once it is let in: another length than the row counts; a body above the declared length; short of it;
      and the last one. */
  lemma PatchAnswerMeaning(req: Request, ses: Session, length: nat)
    requires req.Patch? && !RefusedAtLock(Row(ses), req) && ses.uploaded <= ses.total.value
    ensures AppendAnswer(req, Object(ses, length)) ==
              if length != ses.uploaded then 500
              else if ses.total.value < ses.uploaded + |req.body| then 409
              else if ses.uploaded + |req.body| < ses.total.value then 204
              else 0
  {
  }

  /** Above the configured maximum or the free quota. */
  predicate TooBig(u: User, cap: Option<nat>, n: nat) {
    (cap.Some? && n > cap.value) || !WithinQuota(u, n)
  }

  /** The quota in plain numbers: with the users row locked, a file may be committed exactly when there is no quota
      or the usage and its size stay within it, and is refused exactly otherwise. */
  lemma QuotaExactly(s: State, p: nat)
    requires Reachable(s) && p < |s.procs| && s.procs[p].Charged?
    ensures s.procs[p].draft.owner < |s.users|
    ensures var u, n := s.users[s.procs[p].draft.owner], s.procs[p].draft.size;
            && (Enabled(s, CommitFile(p)) <==> u.quota.None? || u.used + n <= u.quota.value)
            && (Enabled(s, Undo(p)) <==> u.quota.Some? && u.used + n > u.quota.value)
  {
    InvReachable(s);
    assert ProcOk(s, s.procs[p]);
  }

  lemma ProcsOnlyArrive(s: State, e: Event)
    requires Enabled(s, e)
    ensures |s.procs| <= |Step(s, e).procs|
  {
  }

  lemma OthersKeepProc(s: State, e: Event, p: nat)
    requires Enabled(s, e) && p < |s.procs| && Actor(e) != Some(p)
    ensures p < |Step(s, e).procs| && Step(s, e).procs[p] == s.procs[p]
  {
    if !TableEvent(e) {
      OtherProcsKept(s, e, p);
    }
  }

  lemma OthersKeepObject(s: State, e: Event, p: nat)
    requires Inv(s) && Enabled(s, e) && p < |s.procs| && Actor(e) != Some(p)
    ensures DisplacedObject(Step(s, e), s.procs[p]) == DisplacedObject(s, s.procs[p])
  {
    if TableEvent(e) {
      OtherEventsKeepDisk(s, e);
    } else {
      DisplacedOfOthers(s, e, p);
    }
  }

  /** An answer of 200 to a chunk means that the committed bytes grew by the whole body, at the offset it named,
      within the configured and the declared size; otherwise it is refused as its row calls for. */
  lemma ChunkFinished(s: State, p: nat)
    requires p < |s.procs| && ProcOk(s, s.procs[p]) && CanFinish(s, p) && s.procs[p].req.Chunk?
    requires SessionOk(s, s.procs[p].req.sid)
    requires Gate(s.procs[p].req, s.procs[p].row).Proceed?
    requires s.procs[p].sent == Limited(s.procs[p].req.body, Gate(s.procs[p].req, s.procs[p].row).limit)
    ensures var t := DoFinish(s, p); var req := s.procs[p].req; var row := s.procs[p].row;
            var code := AppendAnswer(req, Object(row, row.uploaded));
            && t.procs[p] == Ended(code) && code in {200, 409, 413}
            && (code == 200 ==>
                  && Grows(s, t, req.sid, row.accepted, req.body) && t.sessions[req.sid].owner == row.owner
                  && Fitting(req, row, |row.accepted| + |req.body|))
  {
  }

  /** A PATCH that does not reach the declared length and answers 204 has added its whole body; one that reaches
      it goes on to finalize exactly the accepted bytes and the body. */
  lemma PatchFinished(s: State, p: nat)
    requires p < |s.procs| && ProcOk(s, s.procs[p]) && CanFinish(s, p) && s.procs[p].req.Patch?
    requires SessionOk(s, s.procs[p].req.sid)
    requires Gate(s.procs[p].req, s.procs[p].row).Proceed?
    requires s.procs[p].sent == Limited(s.procs[p].req.body, Gate(s.procs[p].req, s.procs[p].row).limit)
    ensures var t := DoFinish(s, p); var req := s.procs[p].req; var row := s.procs[p].row;
            match AppendAnswer(req, Object(row, row.uploaded))
            case 0 =>
              && t.procs[p].Moving? && t.procs[p].draft.owner == row.owner
              && t.procs[p].draft.origin == FromTus(req.sid, |req.body|)
              && t.procs[p].draft.content == row.accepted + req.body && t.procs[p].draft.size == req.at + |req.body|
              && row.total == Some(req.at + |req.body|)
            case 204 =>
              && t.procs[p] == Ended(204) && Grows(s, t, req.sid, row.accepted, req.body)
              && t.sessions[req.sid].owner == row.owner && Partial(t.sessions[req.sid], req.at + |req.body|)
            case code => t.procs[p] == Ended(code) && code == 409
  {
  }

  /** Process p is about to finalize a PATCH: what was accepted, and the whole body. */
  predicate LastBody(s: State, p: nat, req: Request, accepted: Bytes)
    requires req.Patch?
  {
    && p < |s.procs| && s.procs[p].Moving?
    && LastDraft(s.procs[p].draft, req, accepted) && s.procs[p].draft.size == req.at + |req.body|
  }

  /** A session that counts so many bytes and waits for more. */
  predicate Partial(ses: Session, uploaded: nat) {
    !Terminal(ses.status) && ses.total.Some? && ses.uploaded == uploaded < ses.total.value
  }

  /** What the last step of an append leaves behind, against the row the request saw when it opened the object. */
  predicate Finished(s: State, t: State, req: Request, p: nat, ses: Session) {
    && p < |t.procs|
    && var code := AppendAnswer(req, Object(ses, ses.uploaded));
       && (if req.Chunk? then code in {200, 409, 413} else code in {0, 204, 409})
       && (if code == 0 then LastBody(t, p, req, ses.accepted) else t.procs[p] == Ended(code))
       && (code in {200, 204} ==> Grows(s, t, req.sid, ses.accepted, req.body) && t.sessions[req.sid].owner == ses.owner)
       && (code == 200 ==> Fitting(req, ses, t.sessions[req.sid].uploaded))
       && (code == 204 ==> Partial(t.sessions[req.sid], req.at + |req.body|))
  }

  lemma FinishAnswers(s: State, p: nat, ses: Session)
    requires p < |s.procs| && ProcOk(s, s.procs[p]) && CanFinish(s, p) && SessionOk(s, s.procs[p].req.sid)
    requires s.procs[p].row.(recreated := ses.recreated) == ses && Gate(s.procs[p].req, ses).Proceed?
    requires s.procs[p].sent == Limited(s.procs[p].req.body, Gate(s.procs[p].req, ses).limit)
    requires ses.owner == s.procs[p].req.user
    ensures Finished(s, DoFinish(s, p), s.procs[p].req, p, ses)
  {
    if s.procs[p].req.Chunk? {
      ChunkFinished(s, p);
    } else {
      PatchFinished(s, p);
    }
  }

  /** A new process p is about to delete the row of a file, at a moment after the call. */
  ghost predicate OwnDelete(base: State, from: seq<Event>, trace: seq<Event>, fid: nat, p: nat, m: Moment) {
    && |base.procs| <= p < |m.st.procs| && |from| <= m.k && Before(trace, m, DeleteRow(p))
    && m.st.procs[p] == Deleting(fid) && fid < |m.st.files|
  }

  /** The step at that moment removed the row, gave its bytes back to its owner, and did nothing else to the tables. */
  ghost predicate DeletedAt(trace: seq<Event>, m: Moment, fid: nat) {
    && m.k < |trace| && fid < |m.st.files|
    && exists after: State :: IsRun(Initial, trace[..m.k + 1], after) && Deletes(m.st, after, fid)
  }

  predicate Deletes(s: State, t: State, fid: nat)
    requires fid < |s.files|
  {
    var row := s.files[fid];
    && row.owner < |s.users|
    && t.files == s.files[fid := row.(state := Removed)]
    && t.users == s.users[row.owner := s.users[row.owner].(used := s.users[row.owner].used - row.size)]
    && t.sessions == s.sessions && t.disk == s.disk
  }

  lemma DeletionEffect(s: State, before: seq<Event>, p: nat, trace: seq<Event>)
    requires IsRun(Initial, before, s) && CanDeleteRow(s, p) && s.files[s.procs[p].fid].state.Live?
    requires trace == before + [DeleteRow(p)]
    ensures DeletedAt(trace, Moment(|before|, s), s.procs[p].fid)
  {
    var fid := s.procs[p].fid;
    LedgerExact(s, s.files[fid].owner, fid);
    RunSnoc(Initial, before, s, DeleteRow(p));
    assert trace[..|before| + 1] == before + [DeleteRow(p)];
    DeletionDeletes(s, p);
  }

  lemma DeletionDeletes(s: State, p: nat)
    requires CanDeleteRow(s, p) && s.files[s.procs[p].fid].state.Live?
    requires s.files[s.procs[p].fid].size <= s.users[s.files[s.procs[p].fid].owner].used
    ensures Deletes(s, Step(s, DeleteRow(p)), s.procs[p].fid)
  {
    var fid := s.procs[p].fid;
    var owner, size := s.files[fid].owner, s.files[fid].size;
    assert Max(0, s.users[owner].used - size) == s.users[owner].used - size;
  }

  lemma DeletedLater(trace: seq<Event>, later: seq<Event>, m: Moment, fid: nat)
    requires trace <= later && DeletedAt(trace, m, fid)
    ensures DeletedAt(later, m, fid)
  {
    var after: State :| IsRun(Initial, trace[..m.k + 1], after) && Deletes(m.st, after, fid);
    assert later[..m.k + 1] == trace[..m.k + 1];
  }

  /** What can be seen of a session at a moment. */
  datatype Sight = HasStatus(sid: nat, to: Status) | Gone(sid: nat) | OverAndGone(sid: nat)

  predicate Shows(s: State, what: Sight) {
    match what
    case HasStatus(sid, to) => sid < |s.sessions| && s.sessions[sid].status == to
    case Gone(sid) => SessionTemp(sid) !in s.disk.names
    case OverAndGone(sid) => sid < |s.sessions| && Terminal(s.sessions[sid].status) && SessionTemp(sid) !in s.disk.names
  }

  /** It was to be seen at some moment of the trace since a given one. */
  ghost predicate Sometime(trace: seq<Event>, since: nat, what: Sight) {
    exists m: Moment :: since <= m.k <= |trace| && IsRun(Initial, trace[..m.k], m.st) && Shows(m.st, what)
  }

  lemma SometimeLater(trace: seq<Event>, since: nat, later: seq<Event>, earlier: nat, what: Sight)
    requires Sometime(trace, since, what) && trace <= later && earlier <= since
    ensures Sometime(later, earlier, what)
  {
    var m: Moment :| since <= m.k <= |trace| && IsRun(Initial, trace[..m.k], m.st) && Shows(m.st, what);
    assert later[..m.k] == trace[..m.k];
  }

  lemma SometimeNow(s: State, trace: seq<Event>, since: nat, what: Sight)
    requires IsRun(Initial, trace, s) && since <= |trace| && Shows(s, what)
    ensures Sometime(trace, since, what)
  {
    var m := Moment(|trace|, s);
    assert trace[..m.k] == trace;
  }

  /** Process p was about to retire its session, and its UPDATE did or, with any answer but 200, failed. */
  ghost predicate RetireTried(trace: seq<Event>, m: Moment, p: nat, q: Proc, code: nat) {
    && p < |m.st.procs| && m.st.procs[p] == q
    && if code == 200 then Before(trace, m, RetireRow(p)) else Before(trace, m, RetireRowFails(p))
  }

  /** Its UPDATE failed; on a calm server that is for a row that stayed locked. */
  ghost predicate UpdateFailed(trace: seq<Event>, since: nat, sid: nat, calm: bool) {
    exists p: nat, m: Moment :: FailedThere(trace, since, sid, calm, p, m)
  }

  ghost predicate FailedThere(trace: seq<Event>, since: nat, sid: nat, calm: bool, p: nat, m: Moment) {
    since <= m.k && RetireTried(trace, m, p, Retiring(sid, Expired, false), 202) && (calm ==> !SessionFree(m.st, sid))
  }

  lemma FailedLater(trace: seq<Event>, later: seq<Event>, since: nat, sid: nat, calm: bool)
    requires UpdateFailed(trace, since, sid, calm) && trace <= later
    ensures UpdateFailed(later, since, sid, calm)
  {
    var p: nat, m: Moment :| FailedThere(trace, since, sid, calm, p, m);
    BeforeLater(trace, later, m, RetireRowFails(p));
    assert FailedThere(later, since, sid, calm, p, m);
  }

  /** A swept session lost its object, and is expired unless its UPDATE failed. */
  ghost predicate Swept(trace: seq<Event>, since: nat, sid: nat, retired: set<nat>, calm: bool) {
    Sometime(trace, since, Gone(sid)) && (sid in retired || UpdateFailed(trace, since, sid, calm))
  }

  lemma SweptLater(trace: seq<Event>, later: seq<Event>, since: nat, sid: nat, retired: set<nat>, more: set<nat>, calm: bool)
    requires Swept(trace, since, sid, retired, calm) && trace <= later && retired <= more
    ensures Swept(later, since, sid, more, calm)
  {
    SometimeLater(trace, since, later, since, Gone(sid));
    if UpdateFailed(trace, since, sid, calm) {
      FailedLater(trace, later, since, sid, calm);
    }
  }

  predicate Writable(row: Session) {
    row.status in {Initialized, Uploading, Paused}
  }

  ghost predicate Reported(trace: seq<Event>, since: nat, sid: nat) {
    Sometime(trace, since, HasStatus(sid, Expired)) && Sometime(trace, since, OverAndGone(sid))
  }

  lemma AllSweptLater(trace: seq<Event>, later: seq<Event>, since: nat, selected: seq<nat>, n: nat, retired: set<nat>,
                      more: set<nat>, calm: bool)
    requires trace <= later && retired <= more && n <= |selected|
    requires forall k :: 0 <= k < n ==> Swept(trace, since, selected[k], retired, calm)
    ensures forall k :: 0 <= k < n ==> Swept(later, since, selected[k], more, calm)
  {
    forall k | 0 <= k < n ensures Swept(later, since, selected[k], more, calm) {
      SweptLater(trace, later, since, selected[k], retired, more, calm);
    }
  }

  /** The session is over and reported. */
  ghost predicate OverNow(trace: seq<Event>, s: State, since: nat, sid: nat) {
    sid < |s.sessions| && Terminal(s.sessions[sid].status) && Reported(trace, since, sid)
  }

  /** The first n selected sessions are swept, and the reported ones over. */
  ghost predicate SweptSoFar(trace: seq<Event>, s: State, since: nat, selected: seq<nat>, n: nat, retired: set<nat>, calm: bool)
    requires n <= |selected|
  {
    && (forall sid :: sid in retired ==> sid in selected && OverNow(trace, s, since, sid))
    && (forall k :: 0 <= k < n ==> Swept(trace, since, selected[k], retired, calm))
  }

  lemma SweptNext(trace: seq<Event>, s: State, since: nat, selected: seq<nat>, n: nat, retired: set<nat>, more: set<nat>,
                  calm: bool)
    requires n < |selected| && more <= retired + {selected[n]}
    requires forall sid :: sid in retired ==> sid in selected && OverNow(trace, s, since, sid)
    requires selected[n] in more ==> OverNow(trace, s, since, selected[n])
    requires forall k :: 0 <= k < n ==> Swept(trace, since, selected[k], more, calm)
    requires Swept(trace, since, selected[n], more, calm)
    ensures SweptSoFar(trace, s, since, selected, n + 1, more, calm)
  {
  }

  function Range(lo: nat, hi: nat): (r: set<nat>)
    ensures forall q: nat :: q in r <==> lo <= q < hi
    decreases hi - lo
  {
    if lo >= hi then {} else {lo} + Range(lo + 1, hi)
  }

  /** The processes from number p on are still about to retire the sessions selected for them. */
  ghost predicate Queued(procs: seq<Proc>, base: nat, p: nat, selected: seq<nat>)
    requires base <= p
  {
    && base + |selected| <= |procs|
    && forall q :: p <= q < base + |selected| ==> procs[q] == Retiring(selected[q - base], Expired, false)
  }

  /** What stops a finalization that no fault stops: no object to move, a users row that stays locked, or the quota. */
  predicate Hindered(s: State, p: nat) {
    && p < |s.procs|
    && match s.procs[p]
       case Moving(d) => SourceKey(d) !in s.disk.names
       case Moved(d) => !UserFree(s, d.owner) || (d.origin.FromPart? && Exceeds(s, d))
       case Charged(d) => Exceeds(s, d)
       case _ => false
  }

  predicate Exceeds(s: State, d: Draft) {
    d.owner < |s.users| && s.users[d.owner].quota.Some? && s.users[d.owner].used + d.size > s.users[d.owner].quota.value
  }

  /** An append waits for a row that is locked. */
  predicate Waits(s: State, p: nat, sid: nat) {
    p < |s.procs| && s.procs[p].AppendWaiting? && !SessionFree(s, sid)
  }

  /** What stops an append that no fault stops: a row that stays locked, or an object of another length. */
  predicate Blocked(s: State, req: Request, p: nat) {
    && p < |s.procs|
    && (Waits(s, p, req.sid)
        || (s.procs[p].AppendLocked? && SeenAtOpen(s, req).Object?
            && SeenAtOpen(s, req).length != SeenAtOpen(s, req).ses.uploaded))
  }

  /** A calm server has no faults: no statement and no Move fails, no request ends early and no client goes away;
      whatever runs in between, it answers just what the states it sees call for. */
  class Server {
    const calm: bool
    var state: State
    ghost var trace: seq<Event>

    ghost predicate Valid()
      reads this
    {
      IsRun(Initial, trace, state)
    }

    constructor (calm: bool)
      ensures Valid() && state == Initial && this.calm == calm
    {
      this.calm := calm;
      state := Initial;
      trace := [];
    }

    /** One atomic step. */
    method Fire(e: Event)
      requires Valid() && Enabled(state, e)
      modifies this
      ensures Valid() && state == Step(old(state), e) && trace == old(trace) + [e]
    {
      RunSnoc(Initial, trace, state, e);
      state := Step(state, e);
      trace := trace + [e];
    }

    /** Rows only move forward from an earlier moment of the same trace. */
    lemma Grown(past: State, before: seq<Event>)
      requires Valid() && IsRun(Initial, before, past) && before <= trace
      ensures Extends(past, state)
    {
      InvReachable(past);
      RunSuffix(Initial, before, past, trace, state);
      RunExtends(past, trace[|before|..], state);
    }

    /** What is known about a running process and the session row it holds. */
    lemma Facts(p: nat)
      requires Valid() && p < |state.procs|
      ensures state.disk.Valid() && ProcOk(state, state.procs[p])
      ensures HeldSession(state.procs[p]).Some? ==>
                HeldSession(state.procs[p]).value < |state.sessions|
                && SessionOk(state, HeldSession(state.procs[p]).value)
    {
      InvReachable(state);
    }

    lemma FileFacts(f: nat)
      requires Valid() && f < |state.files|
      ensures FileOk(state, f) && StoredOk(state, f)
    {
      InvReachable(state);
    }

    /** Any number of steps of requests other than those that are mine.  They leave mine where they are, and
        the objects mine have moved to their final keys. */
    method OthersThan(mine: set<nat>)
      requires Valid() && forall p :: p in mine ==> p < |state.procs|
      modifies this
      ensures Valid() && old(trace) <= trace && |old(state).procs| <= |state.procs|
      ensures forall p :: p in mine ==> state.procs[p] == old(state.procs[p])
      ensures forall p :: p in mine ==> DisplacedObject(state, state.procs[p]) == old(DisplacedObject(state, state.procs[p]))
    {
      var script: seq<Event> := *;
      for k := 0 to |script|
        invariant Valid() && old(trace) <= trace && |old(state).procs| <= |state.procs|
        invariant forall p :: p in mine ==> state.procs[p] == old(state.procs[p])
        invariant forall p :: p in mine ==> DisplacedObject(state, state.procs[p]) == old(DisplacedObject(state, state.procs[p]))
      {
        var e := script[k];
        if Enabled(state, e) && (Actor(e).None? || Actor(e).value !in mine) {
          Sound();
          forall p | p in mine
            ensures p < |Step(state, e).procs| && Step(state, e).procs[p] == state.procs[p]
            ensures DisplacedObject(Step(state, e), state.procs[p]) == DisplacedObject(state, state.procs[p])
          {
            OthersKeepProc(state, e, p);
            OthersKeepObject(state, e, p);
          }
          ProcsOnlyArrive(state, e);
          Fire(e);
        }
      }
    }

    lemma Sound()
      requires Valid()
      ensures Inv(state)
    {
      InvReachable(state);
    }

    method Others(p: nat)
      requires Valid() && p < |state.procs|
      modifies this
      ensures Valid() && old(trace) <= trace && |old(state).procs| <= |state.procs|
      ensures p < |state.procs| && state.procs[p] == old(state.procs[p])
      ensures DisplacedObject(state, state.procs[p]) == old(DisplacedObject(state, state.procs[p]))
    {
      OthersThan({p});
    }

    /** A new request, with its process number. */
    method Begin(q: Proc) returns (p: nat)
      requires Valid() && CanArrive(state, q)
      modifies this
      ensures Valid() && old(trace) <= trace
      ensures |old(state).procs| == p < |state.procs| && state.procs[p] == q
    {
      p := |state.procs|;
      Fire(Arrive(q));
      Others(p);
    }

    /** Gives up: an early return or a crash. */
    method Abort(p: nat) returns (code: nat)
      requires Valid() && p < |state.procs|
      modifies this
      ensures Valid() && trace == old(trace) + [End(p)] && code == 500
      ensures |state.procs| == |old(state).procs| && state.procs[p] == Ended(0)
    {
      Fire(End(p));
      code := 500;
    }

    /** This very moment. */
    ghost function Now(): Moment
      reads this
    {
      Moment(|trace|, state)
    }

    /** uploadInit, and tusCreate, for which the length is not optional: a declared length is positive and
        within the configured maximum and the free quota, which is read without a lock. */
    method OpenSession(user: nat, declared: Option<int>, tus: bool, cap: Option<nat>) returns (code: nat, sid: nat)
      requires Valid() && user < |state.users|
      modifies this
      ensures Valid() && old(trace) <= trace
      ensures code in {201, 400, 413} && (code != 201 ==> state == old(state))
      ensures code == 400 <==> (tus && declared.None?) || (declared.Some? && declared.value <= 0)
      ensures code == 413 <==>
                && declared.Some? && declared.value > 0
                && ((cap.Some? && declared.value > cap.value)
                    || (old(state).users[user].quota.Some?
                        && old(state).users[user].used + declared.value > old(state).users[user].quota.value))
      ensures code == 201 ==>
                && sid == |old(state).sessions| && |state.sessions| == sid + 1
                && (declared.Some? ==> declared.value > 0)
                && state.sessions[sid] == Session(user, if declared.Some? then Some(declared.value) else None,
                                                  0, Initialized, None, [], false, false, false)
    {
      sid := |state.sessions|;
      if (tus && declared.None?) || (declared.Some? && declared.value <= 0) {
        return 400, sid;
      }
      if declared.Some? {
        if TooBig(state.users[user], cap, declared.value) {
          return 413, sid;
        }
      }
      Fire(Event.Init(user, if declared.Some? then Some(declared.value) else None));
      code := 201;
    }

    /** One write of io.Copy, of any size, after others have run. */
    method WritePiece(p: nat)
      requires Valid() && p < |state.procs| && state.procs[p].Appending? && state.procs[p].rest != []
      modifies this
      ensures Valid() && old(trace) <= trace && |old(state).procs| <= |state.procs|
      ensures p < |state.procs| && state.procs[p].Appending?
      ensures state.procs[p].req == old(state.procs[p]).req && state.procs[p].row == old(state.procs[p]).row
      ensures state.procs[p].sent + state.procs[p].rest == old(state.procs[p]).sent + old(state.procs[p]).rest
      ensures |state.procs[p].rest| < |old(state.procs[p]).rest|
    {
      Others(p);
      var n: int := *;
      if n <= 0 || n > |state.procs[p].rest| {
        n := 1;
      }
      Facts(p);
      assert HandleOk(state, state.procs[p].req, state.procs[p].row, state.procs[p].inode, state.procs[p].sent);
      Fire(WriteSome(p, n));
    }

    /** Storage.AppendAt on the locked session: the pieces go out one by one, others run in between.  The
        answer is 0 when all is written, and otherwise the refusal for the length of the object it opened, or
        500 when the client was gone. */
    method AppendAt(p: nat) returns (code: nat, ghost m: Moment)
      requires Valid() && p < |state.procs| && state.procs[p].AppendLocked?
      modifies this
      ensures Valid() && old(trace) <= trace && |old(state).procs| <= |state.procs|
      ensures m == old(Now()) && Before(trace, m, OpenTemp(p))
      ensures var AppendLocked(req, row, _) := old(state.procs[p]);
              if |m.st.disk.Peek(SessionTemp(req.sid))| != row.uploaded then code == (if req.Chunk? then 409 else 500)
              else code == 0 || (code == 500 && CutShort(trace, p, m))
      ensures calm && |m.st.disk.Peek(SessionTemp(old(state.procs[p]).req.sid))| == old(state.procs[p]).row.uploaded ==> code == 0
      ensures code == 0 ==>
                p < |state.procs| &&
                var AppendLocked(req, row, data) := old(state.procs[p]);
                && state.procs[p].Appending? && state.procs[p].req == req
                && state.procs[p].row.(recreated := row.recreated) == row
                && state.procs[p].sent == data && state.procs[p].rest == []
    {
      Facts(p);
      m := Now();
      ghost var before := trace;
      Fire(OpenTemp(p));
      ghost var early := trace;
      JustBefore(before, m.st, OpenTemp(p), trace);
      if !state.procs[p].Appending? {
        return state.procs[p].code, m;
      }
      ghost var begun := state.procs[p];
      while |state.procs[p].rest| > 0
        invariant Valid() && early <= trace && |old(state).procs| <= |state.procs|
        invariant p < |state.procs| && state.procs[p].Appending?
        invariant state.procs[p].req == begun.req && state.procs[p].row == begun.row
        invariant state.procs[p].sent + state.procs[p].rest == begun.rest
        decreases |state.procs[p].rest|
      {
        var gone: bool := *;
        if gone && !calm {
          // the client is gone
          code := Abort(p);
          assert trace[|trace| - 1] == End(p);
          BeforeLater(early, trace, m, OpenTemp(p));
          return;
        }
        WritePiece(p);
      }
      BeforeLater(early, trace, m, OpenTemp(p));
      code := 0;
    }

    /** The row lock for an append: it is waited for, and the handler decides on the row it finds.  The answer
        is 0 when the request may proceed. */
    method LockForAppend(req: Request) returns (code: nat, p: nat, ghost m: Moment)
      requires Valid()
      modifies this
      ensures Valid() && old(trace) <= trace && |old(state).procs| <= |state.procs|
      ensures code != 0 ==> AnsweredAtLock(old(state), old(trace), trace, req, p, m, code)
      ensures code != 200 && (code == 500 ==> Waits(m.st, p, req.sid))
      ensures code == 0 ==>
                && |old(state).procs| <= p < |state.procs| && req.sid < |state.sessions|
                && Own(old(state), old(trace), trace, req, p, m, Lock(p)) && m.st.procs[p].AppendWaiting?
                && SeenAtLock(m.st, req) == Row(state.sessions[req.sid]) && state.sessions[req.sid].owner == req.user
                && Gate(req, state.sessions[req.sid]).Proceed?
                && state.procs[p] == AppendLocked(req, state.sessions[req.sid], Limited(req.body, Gate(req, state.sessions[req.sid]).limit))
      ensures code == 404 ==> req.sid < |old(state).sessions| ==> old(state).sessions[req.sid].owner != req.user
      ensures code == 204 ==>
                && req.sid < |state.sessions| && SeenAtLock(m.st, req) == Row(state.sessions[req.sid])
                && state.sessions[req.sid].status.Completed? && state.sessions[req.sid].total.Some?
    {
      p := Begin(AppendWaiting(req));
      m := Now();
      ghost var before := trace;
      if !SessionFree(state, req.sid) {
        code := Abort(p);
        JustBefore(before, m.st, End(p), trace);
        return;
      }
      Fire(Lock(p));
      JustBefore(before, m.st, Lock(p), trace);
      Grown(old(state), old(trace));
      assert req.sid < |old(state).sessions| ==> RowGrows(old(state).sessions[req.sid], state.sessions[req.sid]);
      code := if state.procs[p].Ended? then state.procs[p].code else 0;
    }

    /** The part the two protocols share: write the body to the locked session and settle.  The answer is 0 when
        a PATCH reached the declared length. */
    method AppendBody(p: nat, req: Request, ghost base: State, ghost from: seq<Event>)
      returns (code: nat, ghost seen: Moment, ghost done: Moment)
      requires Valid() && |base.procs| <= p < |state.procs| && |from| <= |trace| && Opens(state, req, p)
      requires state.procs[p].req == req && state.procs[p].data == Limited(req.body, Gate(req, state.sessions[req.sid]).limit)
      modifies this
      ensures Valid() && old(trace) <= trace
      ensures AnsweredAtOpen(base, from, trace, req, p, seen, code)
      ensures calm ==> code == AppendAnswer(req, SeenAtOpen(seen.st, req))
      ensures calm && req.Chunk? ==> code != 500
      ensures code in {200, 204} ==>
                && Kept(base, from, trace, req, p, seen, done, state)
                && req.sid < |state.sessions| && state.sessions[req.sid].owner == req.user
      ensures code == 200 ==>
                && req.Chunk? && req.sid < |seen.st.sessions| && req.sid < |state.sessions|
                && Fitting(req, seen.st.sessions[req.sid], state.sessions[req.sid].uploaded)
      ensures code == 204 ==>
                req.Patch? && req.sid < |state.sessions| && Partial(state.sessions[req.sid], req.at + |req.body|)
      ensures code == 0 ==>
                req.Patch? && req.sid < |seen.st.sessions| && LastBody(state, p, req, seen.st.sessions[req.sid].accepted)
      ensures req.Chunk? ==> code in {200, 409, 413, 500}
      ensures req.Patch? ==> code in {0, 204, 409, 500}
    {
      Facts(p);
      code, seen := AppendAt(p);
      done := seen;
      if code == 0 {
        code, done := SettleBody(p, req, base, from, seen);
      }
    }

    /** The decision once the stream has ended: refuse, keep, or go on to finalize. */
    method SettleBody(p: nat, req: Request, ghost base: State, ghost from: seq<Event>, ghost seen: Moment)
      returns (code: nat, ghost done: Moment)
      requires Valid() && |base.procs| <= p < |state.procs| && seen.k < |trace| && |from| <= seen.k
      requires Own(base, from, trace, req, p, seen, OpenTemp(p)) && Opens(seen.st, req, p)
      requires SeenAtOpen(seen.st, req).length == seen.st.sessions[req.sid].uploaded
      requires state.procs[p].Appending? && state.procs[p].req == req && state.procs[p].rest == []
      requires state.procs[p].row.(recreated := seen.st.sessions[req.sid].recreated) == seen.st.sessions[req.sid]
      requires state.procs[p].sent == Limited(req.body, Gate(req, seen.st.sessions[req.sid]).limit)
      modifies this
      ensures Valid() && old(trace) <= trace
      ensures AnsweredAtOpen(base, from, trace, req, p, seen, code)
      ensures calm ==> code != 500
      ensures code in {200, 204} ==>
                && Kept(base, from, trace, req, p, seen, done, state)
                && req.sid < |state.sessions| && state.sessions[req.sid].owner == req.user
      ensures code == 200 ==>
                && req.Chunk? && req.sid < |seen.st.sessions| && req.sid < |state.sessions|
                && Fitting(req, seen.st.sessions[req.sid], state.sessions[req.sid].uploaded)
      ensures code == 204 ==>
                req.Patch? && req.sid < |state.sessions| && Partial(state.sessions[req.sid], req.at + |req.body|)
      ensures code == 0 ==> req.Patch? && req.sid < |seen.st.sessions| && LastBody(state, p, req, seen.st.sessions[req.sid].accepted)
      ensures req.Chunk? ==> code in {200, 409, 413, 500}
      ensures req.Patch? ==> code in {0, 204, 409, 500}
    {
      Facts(p);
      done := Now();
      var written: bool := *;
      if !written && !calm && !Settle(req, state.procs[p].row, state.procs[p].row.uploaded + |state.procs[p].sent|).Reject? {
        // the UPDATE or the COMMIT fails
        BeforeLater(trace, trace + [End(p)], seen, OpenTemp(p));
        code := Abort(p);
        assert trace[|trace| - 1] == End(p);
        return;
      }
      ghost var before := trace;
      FinishAnswers(state, p, seen.st.sessions[req.sid]);
      Fire(Finish(p));
      JustBefore(before, done.st, Finish(p), trace);
      BeforeLater(before, trace, seen, OpenTemp(p));
      code := if state.procs[p].Moving? then 0 else state.procs[p].code;
    }

    /** uploadChunk.  The answer is the one the row called for when this request held its lock, and the object
        when it opened it; and 200 is given only when its own last step made the committed bytes grow from what
        they were then by exactly the body. */
    method UploadChunk(user: nat, sid: nat, offset: Option<nat>, cap: Option<nat>, body: Bytes)
      returns (code: nat, ghost p: nat, ghost seen: Moment, ghost done: Moment)
      requires Valid()
      modifies this
      ensures Valid() && old(trace) <= trace
      ensures Answered(old(state), old(trace), trace, Chunk(user, sid, offset, cap, body), p, seen, code)
      ensures code == 404 ==> sid < |old(state).sessions| ==> old(state).sessions[sid].owner != user
      ensures calm && code == 500 ==> Waits(seen.st, p, sid)
      ensures code == 200 ==> Kept(old(state), old(trace), trace, Chunk(user, sid, offset, cap, body), p, seen, done, state)
    {
      var req := Chunk(user, sid, offset, cap, body);
      var q;
      code, q, seen := LockForAppend(req);
      p, done := q, seen;
      if code == 0 {
        Others(q);
        Facts(q);
        code, seen, done := AppendBody(q, req, old(state), old(trace));
      }
    }

    /** From the Move to the COMMIT, with the compensations: the common tail of uploadComplete,
        finalizeTusSessionTx and one part of uploadFiles.  On success the new file's object is what was under
        the temporary key at the Move. */
    method FinalizeDraft(p: nat) returns (ending: Ending, ghost m: Moment)
      requires Valid() && p < |state.procs| && state.procs[p].Moving?
      modifies this
      ensures Valid() && old(trace) <= trace && |old(state).procs| <= |state.procs|
      ensures |old(trace)| <= m.k && Finalized(trace, m, p, old(state.procs[p]).draft, ending)
      ensures calm ==> (ending.Done? <==> !Hindered(m.st, p)) && !ending.Clash?
      ensures ending.Done? ==>
                && state == DoCommit(m.st, p) && Committed(state, old(state.procs[p]).draft)
                && state.disk.Peek(Final(old(state.procs[p]).draft.serial))
                   == old(state).disk.Peek(SourceKey(old(state.procs[p]).draft))
    {
      var moved;
      moved, m := MoveDraft(p);
      if !moved {
        return Broken, m;
      }
      Others(p);
      ending, m := StoreRow(p);
    }

    /** Storage.Move, which finds no object or fails. */
    method MoveDraft(p: nat) returns (moved: bool, ghost m: Moment)
      requires Valid() && p < |state.procs| && state.procs[p].Moving?
      modifies this
      ensures Valid() && old(trace) <= trace && |old(state).procs| <= |state.procs| && p < |state.procs|
      ensures !moved ==> |old(trace)| <= m.k && Finalized(trace, m, p, old(state.procs[p]).draft, Broken)
      ensures calm && !moved ==> Hindered(m.st, p)
      ensures moved ==>
                && state.procs[p] == Moved(old(state.procs[p]).draft)
                && DisplacedObject(state, state.procs[p]) == old(state).disk.Peek(SourceKey(old(state.procs[p]).draft))
    {
      m := Now();
      ghost var before := trace;
      var fails: bool := *;
      if fails && !calm {
        var _ := Abort(p);
        JustBefore(before, m.st, End(p), trace);
        return false, m;
      }
      Fire(Move(p));
      JustBefore(before, m.st, Move(p), trace);
      moved := state.procs[p].Moved?;
    }

    /** Once the object is in place: for a part the unlocked quota check, and then the statements. */
    method StoreRow(p: nat) returns (ending: Ending, ghost m: Moment)
      requires Valid() && p < |state.procs| && state.procs[p].Moved?
      modifies this
      ensures Valid() && old(trace) <= trace && |old(state).procs| <= |state.procs|
      ensures |old(trace)| <= m.k && Finalized(trace, m, p, old(state.procs[p]).draft, ending)
      ensures calm ==> (ending.Done? <==> !Hindered(m.st, p)) && !ending.Clash?
      ensures ending.Done? ==>
                && state == DoCommit(m.st, p) && Committed(state, old(state.procs[p]).draft)
                && DisplacedObject(state, old(state.procs[p])) == old(DisplacedObject(state, state.procs[p]))
    {
      Facts(p);
      var draft := state.procs[p].draft;
      if draft.origin.FromPart? && !WithinQuota(state.users[draft.owner], draft.size) {
        m := Now();
        ghost var before := trace;
        var _ := Compensate(p);
        JustBefore(before, m.st, Undo(p), trace);
        return OverQuota, m;
      }
      ending, m := InsertRow(p);
    }

    /** The INSERT, which may fail, perhaps for the name. */
    method InsertRow(p: nat) returns (ending: Ending, ghost m: Moment)
      requires Valid() && p < |state.procs| && state.procs[p].Moved?
      modifies this
      ensures Valid() && old(trace) <= trace && |old(state).procs| <= |state.procs|
      ensures |old(trace)| <= m.k && Finalized(trace, m, p, old(state.procs[p]).draft, ending)
      ensures calm ==> (ending.Done? <==> !Hindered(m.st, p)) && !ending.Clash?
      ensures ending.Done? ==>
                && state == DoCommit(m.st, p) && Committed(state, old(state.procs[p]).draft)
                && DisplacedObject(state, old(state.procs[p])) == old(DisplacedObject(state, state.procs[p]))
    {
      m := Now();
      ghost var before := trace;
      var fails: bool := *;
      if fails && !calm {
        Facts(p);
        var _ := StatementFails(p);
        JustBefore(before, m.st, FailStatement(p), trace);
        ending := *;
        ending := if ending.Clash? then Clash else Broken;
        return;
      }
      ending, m := ChargeRow(p);
    }

    /** The UPDATE of the user, which waits for the row. */
    method ChargeRow(p: nat) returns (ending: Ending, ghost m: Moment)
      requires Valid() && p < |state.procs| && state.procs[p].Moved?
      modifies this
      ensures Valid() && old(trace) <= trace && |old(state).procs| <= |state.procs|
      ensures |old(trace)| <= m.k && Finalized(trace, m, p, old(state.procs[p]).draft, ending)
      ensures calm ==> (ending.Done? <==> !Hindered(m.st, p)) && !ending.Clash?
      ensures ending.Done? ==>
                && state == DoCommit(m.st, p) && Committed(state, old(state.procs[p]).draft)
                && DisplacedObject(state, old(state.procs[p])) == old(DisplacedObject(state, state.procs[p]))
    {
      m := Now();
      ghost var before := trace;
      if !UserFree(state, state.procs[p].draft.owner) {
        var _ := Abort(p);
        JustBefore(before, m.st, End(p), trace);
        return Broken, m;
      }
      Fire(ChargeUser(p));
      Others(p);
      ending, m := CommitOrNot(p);
    }

    /** The quota check under the lock of the users row, and the COMMIT. */
    method CommitOrNot(p: nat) returns (ending: Ending, ghost m: Moment)
      requires Valid() && p < |state.procs| && state.procs[p].Charged?
      modifies this
      ensures Valid() && old(trace) <= trace && |old(state).procs| <= |state.procs|
      ensures m == old(Now()) && Finalized(trace, m, p, old(state.procs[p]).draft, ending)
      ensures calm ==> (ending.Done? <==> !Hindered(m.st, p)) && !ending.Clash?
      ensures ending.Done? ==>
                && state == DoCommit(m.st, p) && Committed(state, old(state.procs[p]).draft) && state.disk == old(state).disk
    {
      Facts(p);
      m := Now();
      ghost var before := trace;
      var fails: bool := *;
      if fails && !calm {
        // the check fails, which the program does not tell from an exceeded quota
        var _ := StatementFails(p);
        JustBefore(before, m.st, FailStatement(p), trace);
        return OverQuota, m;
      }
      if !WithinQuota(state.users[state.procs[p].draft.owner], state.procs[p].draft.size) {
        var _ := Compensate(p);
        JustBefore(before, m.st, Undo(p), trace);
        return OverQuota, m;
      }
      ending := Commit(p);
    }

    /** The UPDATE of the session and the COMMIT of a file within the quota; a PATCH has no compensation for its
        COMMIT. */
    method Commit(p: nat) returns (ending: Ending)
      requires Valid() && CanCommit(state, p)
      modifies this
      ensures Valid() && old(trace) <= trace && |old(state).procs| <= |state.procs|
      ensures calm ==> ending.Done?
      ensures Finalized(trace, old(Now()), p, old(state.procs[p]).draft, ending)
      ensures ending.Done? ==>
                && state == DoCommit(old(state), p) && Committed(state, old(state.procs[p]).draft) && state.disk == old(state).disk
    {
      ghost var m := Now();
      ghost var before := trace;
      var written: bool := *;
      var committed: bool := *;
      if !calm && (!written || (!committed && !state.procs[p].draft.origin.FromTus?)) {
        var _ := StatementFails(p);
        JustBefore(before, m.st, FailStatement(p), trace);
        return Broken;
      }
      if !calm && !committed {
        var _ := Abort(p);
        JustBefore(before, m.st, End(p), trace);
        return Broken;
      }
      CommitHappens(p);
      JustBefore(before, m.st, CommitFile(p), trace);
      return Done;
    }

    method CommitHappens(p: nat)
      requires Valid() && CanCommit(state, p)
      modifies this
      ensures Valid() && trace == old(trace) + [CommitFile(p)] && state == DoCommit(old(state), p)
      ensures Committed(state, old(state.procs[p]).draft) && state.disk == old(state).disk
      ensures |old(state).procs| <= |state.procs|
    {
      Sound();
      CommitCommits(state, p);
      Fire(CommitFile(p));
    }

    /** Under the temporary key a session's bytes are again what was at the final one; a part's are gone. */
    ghost predicate Restored(d: Draft, moved: Bytes)
      reads this
    {
      && Final(d.serial) !in state.disk.names
      && (!d.origin.FromPart? ==> SourceKey(d) in state.disk.names && state.disk.Peek(SourceKey(d)) == moved)
    }

    /** An INSERT, an UPDATE or a COMMIT fails: the locks are gone, other requests run, and then the compensation
        follows. */
    method StatementFails(p: nat) returns (restored: bool)
      requires Valid() && CanFailStatement(state, p)
      modifies this
      ensures Valid() && old(trace) + [FailStatement(p)] <= trace && |old(state).procs| <= |state.procs|
      ensures p < |state.procs| && state.procs[p].Ended?
      ensures restored ==> Restored(old(state.procs[p]).draft, old(DisplacedObject(state, state.procs[p])))
      ensures calm ==> restored
      ensures !restored ==> trace[|trace| - 1] == End(p)
    {
      Fire(FailStatement(p));
      restored := PutBack(p);
    }

    /** The quota is exceeded: the compensation follows while the session row is locked. */
    method Compensate(p: nat) returns (restored: bool)
      requires Valid() && CanUndo(state, p)
      modifies this
      ensures Valid() && old(trace) + [Undo(p)] <= trace && |old(state).procs| <= |state.procs|
      ensures p < |state.procs| && state.procs[p].Ended?
      ensures restored ==> Restored(old(state.procs[p]).draft, old(DisplacedObject(state, state.procs[p])))
      ensures calm ==> restored
      ensures !restored ==> trace[|trace| - 1] == End(p)
    {
      Fire(Undo(p));
      restored := PutBack(p);
    }

    /** Storage.Move back, or Storage.Delete of a part; it fails as well when the request's context is gone. */
    method PutBack(p: nat) returns (restored: bool)
      requires Valid() && p < |state.procs| && state.procs[p].Undoing?
      modifies this
      ensures Valid() && old(trace) <= trace && |old(state).procs| <= |state.procs|
      ensures p < |state.procs| && state.procs[p].Ended?
      ensures restored ==> Restored(old(state.procs[p]).draft, old(DisplacedObject(state, state.procs[p])))
      ensures calm ==> restored
      ensures !restored ==> trace[|trace| - 1] == End(p)
    {
      Others(p);
      var works: bool := *;
      if works || calm {
        Facts(p);
        Fire(MoveBack(p));
        restored := true;
      } else {
        var _ := Abort(p);
        restored := false;
      }
    }

    /** The row lock for a completion; the answer is 0 when it may proceed, with a draft of what is accepted. */
    method LockForComplete(user: nat, sid: nat) returns (code: nat, p: nat, ghost m: Moment)
      requires Valid()
      modifies this
      ensures Valid() && old(trace) <= trace && |old(state).procs| <= |state.procs|
      ensures code != 0 ==> forall done :: CompletionAnswered(old(state), old(trace), trace, user, sid, p, m, done, code)
      ensures code == 0 ==>
                && |old(state).procs| <= p < |m.st.procs| && |old(trace)| <= m.k < |trace| && Before(trace, m, Lock(p))
                && m.st.procs[p] == CompleteWaiting(user, sid) && sid < |m.st.sessions| && m.st.sessions[sid].owner == user
                && Completable(m.st.sessions[sid]) && p < |state.procs|
                && state.procs[p] == Moving(CompletionDraft(m.st, sid))
      ensures code != 0 ==> OnlyAnswered(m.st, state, p)
      ensures code == 404 ==> sid < |old(state).sessions| ==> old(state).sessions[sid].owner != user
      ensures code == 200 ==>
                && sid < |m.st.sessions| && state.sessions == m.st.sessions
                && m.st.sessions[sid].owner == user && m.st.sessions[sid].status.Completed?
    {
      p := Begin(CompleteWaiting(user, sid));
      m := Now();
      ghost var before := trace;
      if !SessionFree(state, sid) {
        Fire(End(p));
        JustBefore(before, m.st, End(p), trace);
        code := 500;
        return;
      }
      Fire(Lock(p));
      JustBefore(before, m.st, Lock(p), trace);
      Grown(old(state), old(trace));
      assert sid < |old(state).sessions| ==> RowGrows(old(state).sessions[sid], state.sessions[sid]);
      code := if state.procs[p].Ended? then state.procs[p].code else 0;
    }

    /** uploadComplete.  The answer is the one the row called for when this request held its lock; a session
        that may be completed is, with what was accepted by then, unless a statement fails, the name is taken
        or the quota is exceeded. */
    method UploadComplete(user: nat, sid: nat) returns (code: nat, ghost p: nat, ghost seen: Moment, ghost done: Moment)
      requires Valid()
      modifies this
      ensures Valid() && old(trace) <= trace
      ensures CompletionAnswered(old(state), old(trace), trace, user, sid, p, seen, done, code)
      ensures !LetComplete(trace, user, sid, p, seen) ==> OnlyAnswered(seen.st, state, p)
      ensures calm && LetComplete(trace, user, sid, p, seen) ==> code in {200, 413, 500} && (code == 200 <==> !Hindered(done.st, p))
      ensures code == 404 ==> sid < |old(state).sessions| ==> old(state).sessions[sid].owner != user
      ensures code == 200 ==>
                && sid < |seen.st.sessions| && sid < |state.sessions| && state.sessions[sid].owner == user
                && state.sessions[sid].status.Completed? && state.sessions[sid].fileId.Some?
                && state.sessions[sid].fileId.value < |state.files|
                && OriginSid(state.files[state.sessions[sid].fileId.value].origin) == Some(sid)
                && state.files[state.sessions[sid].fileId.value].size == state.sessions[sid].uploaded
                && (state.sessions[sid].total.Some? ==> state.sessions[sid].total == Some(state.sessions[sid].uploaded))
                && state.sessions[sid].accepted == seen.st.sessions[sid].accepted
    {
      var q;
      code, q, seen := LockForComplete(user, sid);
      p, done := q, seen;
      if code == 0 {
        ghost var locked := trace;
        code, done := CompleteLocked(q, sid, seen);
        BeforeLater(locked, trace, seen, Lock(q));
      }
      if code == 200 {
        CompletedSession(state, trace, sid);
      }
    }

    /** The transaction of a completion that was let in. */
    method CompleteLocked(p: nat, sid: nat, ghost seen: Moment) returns (code: nat, ghost done: Moment)
      requires Valid() && p < |state.procs| && sid < |seen.st.sessions| && seen.k < |trace|
      requires state.procs[p] == Moving(CompletionDraft(seen.st, sid)) && IsRun(Initial, trace[..seen.k], seen.st)
      modifies this
      ensures Valid() && old(trace) <= trace && seen.k < done.k && code in {200, 409, 413, 500}
      ensures Finalized(trace, done, p, CompletionDraft(seen.st, sid),
                        if code == 200 then Done else if code == 409 then Clash else if code == 413 then OverQuota else Broken)
      ensures calm ==> (code == 200 <==> !Hindered(done.st, p)) && code != 409
      ensures code == 200 ==>
                && sid < |state.sessions| && state.sessions[sid].owner == seen.st.sessions[sid].owner
                && state.sessions[sid].status.Completed? && state.sessions[sid].accepted == seen.st.sessions[sid].accepted
    {
      Others(p);
      var ending;
      ending, done := FinalizeDraft(p);
      code := match ending case Done => 200 case Clash => 409 case OverQuota => 413 case Broken => 500;
      Grown(seen.st, old(trace)[..seen.k]);
      assert RowGrows(seen.st.sessions[sid], state.sessions[sid]);
    }

    /** tusPatch.  As for a chunk; a body that reaches the declared length is answered 204 only when this
        request's own COMMIT made a file of the accepted bytes and the body. */
    method TusPatch(user: nat, sid: nat, at: nat, body: Bytes)
      returns (code: nat, ghost p: nat, ghost seen: Moment, ghost done: Moment)
      requires Valid()
      modifies this
      ensures Valid() && old(trace) <= trace
      ensures Answered(old(state), old(trace), trace, Patch(user, sid, at, body), p, seen, code)
              || (code in {204, 500} && AnsweredAtOpen(old(state), old(trace), trace, Patch(user, sid, at, body), p, seen, 0)
                  && (exists ending ::
                        LastAnswered(trace, Patch(user, sid, at, body), p, seen, done, ending) && (code == 204 <==> ending.Done?))
                  && (code == 204 ==> KeptLast(trace, Patch(user, sid, at, body), p, seen, done, state)))
      ensures code == 404 ==> sid < |old(state).sessions| ==> old(state).sessions[sid].owner != user
      ensures calm && code == 500 ==>
                || Blocked(seen.st, Patch(user, sid, at, body), p)
                || (AppendAnswer(Patch(user, sid, at, body), SeenAtOpen(seen.st, Patch(user, sid, at, body))) == 0 && Hindered(done.st, p))
      ensures code == 204 ==>
                && sid < |state.sessions| && state.sessions[sid].total.Some?
                && (if state.sessions[sid].status.Completed?
                    then state.sessions[sid].fileId.Some? && state.sessions[sid].total == Some(state.sessions[sid].uploaded)
                    else
                      && Kept(old(state), old(trace), trace, Patch(user, sid, at, body), p, seen, done, state)
                      && at + |body| == |state.sessions[sid].accepted| < state.sessions[sid].total.value)
    {
      var req := Patch(user, sid, at, body);
      var q;
      code, q, seen := LockForAppend(req);
      p, done := q, seen;
      if code != 0 {
        if code == 204 {
          CompletedSession(state, trace, sid);
        }
        return;
      }
      code, seen, done := PatchBody(q, user, sid, at, body, old(state), old(trace));
    }

    /** A PATCH that holds its row: the append, and the finalization when it was the last one. */
    method PatchBody(p: nat, user: nat, sid: nat, at: nat, body: Bytes, ghost base: State, ghost from: seq<Event>)
      returns (code: nat, ghost seen: Moment, ghost done: Moment)
      requires Valid() && |base.procs| <= p < |state.procs| && |from| <= |trace|
      requires Opens(state, Patch(user, sid, at, body), p) && state.procs[p].req == Patch(user, sid, at, body)
      requires state.procs[p].data == Limited(body, Gate(Patch(user, sid, at, body), state.sessions[sid]).limit)
      modifies this
      ensures Valid() && old(trace) <= trace && code in {204, 409, 500}
      ensures AnsweredAtOpen(base, from, trace, Patch(user, sid, at, body), p, seen, code)
              || (code in {204, 500} && AnsweredAtOpen(base, from, trace, Patch(user, sid, at, body), p, seen, 0)
                  && (exists ending ::
                        LastAnswered(trace, Patch(user, sid, at, body), p, seen, done, ending) && (code == 204 <==> ending.Done?))
                  && (code == 204 ==> KeptLast(trace, Patch(user, sid, at, body), p, seen, done, state)))
      ensures calm && code == 500 ==>
                || Blocked(seen.st, Patch(user, sid, at, body), p)
                || (AppendAnswer(Patch(user, sid, at, body), SeenAtOpen(seen.st, Patch(user, sid, at, body))) == 0 && Hindered(done.st, p))
      ensures code == 204 ==>
                && sid < |state.sessions| && state.sessions[sid].total.Some?
                && (if state.sessions[sid].status.Completed?
                    then state.sessions[sid].fileId.Some? && state.sessions[sid].total == Some(state.sessions[sid].uploaded)
                    else
                      && Kept(base, from, trace, Patch(user, sid, at, body), p, seen, done, state)
                      && at + |body| == |state.sessions[sid].accepted| < state.sessions[sid].total.value)
    {
      Others(p);
      Facts(p);
      code, seen, done := AppendBody(p, Patch(user, sid, at, body), base, from);
      if code == 0 {
        code, done := LastPatch(p, user, sid, at, body, seen, base, from);
      }
      if code == 204 && state.sessions[sid].status.Completed? {
        CompletedSession(state, trace, sid);
      }
    }

    /** The end of a PATCH that reached the declared length. */
    method LastPatch(p: nat, user: nat, sid: nat, at: nat, body: Bytes, ghost seen: Moment, ghost base: State, ghost from: seq<Event>)
      returns (code: nat, ghost done: Moment)
      requires Valid()
      requires AnsweredAtOpen(base, from, trace, Patch(user, sid, at, body), p, seen, 0)
      requires LastBody(state, p, Patch(user, sid, at, body), seen.st.sessions[sid].accepted)
      modifies this
      ensures Valid() && old(trace) <= trace && code in {204, 500}
      ensures AnsweredAtOpen(base, from, trace, Patch(user, sid, at, body), p, seen, 0)
      ensures exists ending ::
                LastAnswered(trace, Patch(user, sid, at, body), p, seen, done, ending) && (code == 204 <==> ending.Done?)
      ensures calm ==> (code == 204 <==> !Hindered(done.st, p))
      ensures code == 204 ==> KeptLast(trace, Patch(user, sid, at, body), p, seen, done, state)
      ensures code == 204 ==> sid < |state.sessions| && state.sessions[sid].total.Some?
    {
      Others(p);
      Facts(p);
      var ending;
      ending, done := FinalizeDraft(p);
      BeforeLater(old(trace), trace, seen, OpenTemp(p));
      code := if ending.Done? then 204 else 500;
      if code == 204 {
        CommitGrows(done.st, trace[..done.k], p, seen.st.sessions[sid].accepted, body);
        Sound();
        assert SessionOk(state, sid);
        assert FileOk(state, state.sessions[sid].fileId.value);
      }
    }

    /** One part of uploadFiles, read into storage. */
    method UploadPart(user: nat, body: Bytes) returns (ending: Ending, ghost p: nat, ghost m: Moment)
      requires Valid() && user < |state.users|
      modifies this
      ensures Valid() && old(trace) <= trace
      ensures |old(state).procs| <= p < |m.st.procs| && |old(trace)| <= m.k && DraftOf(m.st.procs[p]).Some?
      ensures var d := DraftOf(m.st.procs[p]).value;
              && d.owner == user && d.size == |body| && d.content == body && d.origin.FromPart?
              && Finalized(trace, m, p, d, ending)
      ensures calm ==> (ending.Done? <==> !Hindered(m.st, p)) && !ending.Clash?
      ensures ending.Done? ==>
                && |state.files| > 0 && CanCommit(m.st, p) && state == DoCommit(m.st, p)
                && state.files[|state.files| - 1].owner == user && state.files[|state.files| - 1].state.Live?
                && state.files[|state.files| - 1].size == |body|
                && state.disk.Peek(Final(state.files[|state.files| - 1].serial)) == body
    {
      var q := Begin(PartWaiting(user, body));
      p := q;
      Fire(StorePart(q));
      Others(q);
      ghost var d := state.procs[q].draft;
      ending, m := FinalizeDraft(q);
      assert Finalized(trace, m, q, d, ending);
      if ending.Done? {
        FileFacts(|state.files| - 1);
      }
    }

    /** A terminal session stays terminal from an earlier moment of the same trace. */
    lemma StaysTerminal(past: State, before: seq<Event>, sid: nat)
      requires Valid() && IsRun(Initial, before, past) && before <= trace
      requires sid < |past.sessions| && Terminal(past.sessions[sid].status)
      ensures sid < |state.sessions| && Terminal(state.sessions[sid].status)
    {
      Grown(past, before);
      assert RowGrows(past.sessions[sid], state.sessions[sid]);
    }

    /** The UPDATE and the Storage.Delete of a cancel or an expiry. */
    method Retire(p: nat, mine: set<nat>) returns (code: nat, ghost m: Moment)
      requires Valid() && p in mine && (forall q :: q in mine ==> q < |state.procs|) && state.procs[p].Retiring?
      modifies this
      ensures Valid() && old(trace) <= trace && code in {200, 202, 500}
      ensures |old(state).procs| <= |state.procs|
      ensures forall q :: q in mine && q != p ==> state.procs[q] == old(state.procs[q])
      ensures RetireTried(trace, m, p, old(state.procs[p]), code) && |old(trace)| <= m.k
      ensures code == 500 ==> old(state.procs[p]).strict
      ensures code != 500 ==> SessionTemp(old(state.procs[p]).sid) !in state.disk.names
      ensures code == 200 ==>
                && old(state.procs[p]).sid < |state.sessions| && Terminal(state.sessions[old(state.procs[p]).sid].status)
                && Sometime(trace, |old(trace)|, HasStatus(old(state.procs[p]).sid, old(state.procs[p]).to))
      ensures code == 202 ==> !old(state.procs[p]).strict
      ensures calm ==> (code == 200 <==> SessionFree(m.st, old(state.procs[p]).sid))
    {
      var sid := state.procs[p].sid;
      code, m := RetireStatement(p);
      if code == 500 {
        return;
      }
      ghost var tried := trace;
      RetireStored(p, mine);
      BeforeLater(tried, trace, m, if code == 200 then RetireRow(p) else RetireRowFails(p));
      if code == 200 {
        SometimeLater(tried, |old(trace)|, trace, |old(trace)|, HasStatus(sid, old(state.procs[p]).to));
      }
    }

    /** Storage.Delete of the temporary object, whatever became of the row. */
    method RetireStored(p: nat, mine: set<nat>)
      requires Valid() && p in mine && (forall q :: q in mine ==> q < |state.procs|) && state.procs[p].Retired?
      modifies this
      ensures Valid() && old(trace) <= trace && |old(state).procs| <= |state.procs|
      ensures forall q :: q in mine && q != p ==> state.procs[q] == old(state.procs[q])
      ensures SessionTemp(old(state.procs[p]).sid) !in state.disk.names
      ensures var sid := old(state.procs[p]).sid;
              sid < |old(state).sessions| && Terminal(old(state).sessions[sid].status) ==>
                sid < |state.sessions| && Terminal(state.sessions[sid].status)
    {
      ghost var past, before := state, trace;
      var sid := state.procs[p].sid;
      OthersThan(mine);
      if sid < |past.sessions| && Terminal(past.sessions[sid].status) {
        StaysTerminal(past, before, sid);
      }
      Fire(RetireObject(p));
    }

    /** The UPDATE, which waits for the row and may fail. */
    method RetireStatement(p: nat) returns (code: nat, ghost m: Moment)
      requires Valid() && p < |state.procs| && state.procs[p].Retiring?
      modifies this
      ensures Valid() && old(trace) <= trace && code in {200, 202, 500}
      ensures |state.procs| == |old(state).procs|
      ensures forall q :: 0 <= q < |state.procs| && q != p ==> state.procs[q] == old(state.procs[q])
      ensures RetireTried(trace, m, p, old(state.procs[p]), code) && m == old(Now())
      ensures code == 500 ==> old(state.procs[p]).strict && state.procs[p] == Ended(500)
      ensures code != 500 ==> state.procs[p] == Retired(old(state.procs[p]).sid)
      ensures code == 200 ==>
                && old(state.procs[p]).sid < |state.sessions| && Terminal(state.sessions[old(state.procs[p]).sid].status)
                && Sometime(trace, |old(trace)|, HasStatus(old(state.procs[p]).sid, old(state.procs[p]).to))
      ensures code == 202 ==> !old(state.procs[p]).strict
      ensures calm ==> (code == 200 <==> SessionFree(m.st, old(state.procs[p]).sid))
    {
      var Retiring(sid, to, strict) := state.procs[p];
      m := Now();
      ghost var before := trace;
      Facts(p);
      var written: bool := *;
      if (written || calm) && SessionFree(state, sid) {
        Fire(RetireRow(p));
        JustBefore(before, m.st, RetireRow(p), trace);
        SometimeNow(state, trace, |before|, HasStatus(sid, to));
        code := 200;
      } else {
        Fire(RetireRowFails(p));
        JustBefore(before, m.st, RetireRowFails(p), trace);
        code := if strict then 500 else 202;
      }
    }

    /** uploadCancel (strict) and tusDelete (not strict); 202 stands for the answer of a tusDelete whose
        UPDATE failed, which the program does not tell from success. */
    method CancelSession(user: nat, sid: nat, strict: bool) returns (code: nat, ghost p: nat, ghost m: Moment)
      requires Valid()
      modifies this
      ensures Valid() && old(trace) <= trace && code in {200, 202, 404, 500}
      ensures code == 404 <==> sid >= |old(state).sessions| || old(state).sessions[sid].owner != user
      ensures code == 404 ==> state == old(state)
      ensures code != 404 ==> |old(trace)| <= m.k && RetireTried(trace, m, p, Retiring(sid, Canceled, strict), code)
      ensures code == 200 || code == 202 ==> SessionTemp(sid) !in state.disk.names
      ensures code == 200 ==>
                && sid < |state.sessions| && Terminal(state.sessions[sid].status)
                && Sometime(trace, |old(trace)|, HasStatus(sid, Canceled))
      ensures calm && code != 404 ==> (code == 200 <==> SessionFree(m.st, sid))
      ensures strict ==> code != 202
      ensures !strict ==> code != 500
    {
      p, m := 0, Now();
      if sid >= |state.sessions| || state.sessions[sid].owner != user {
        return 404, p, m;
      }
      var q := Begin(Retiring(sid, Canceled, strict));
      p := q;
      ghost var began := |trace|;
      code, m := Retire(q, {q});
      if code == 200 {
        SometimeLater(trace, began, trace, |old(trace)|, HasStatus(sid, Canceled));
      }
    }

    /** The expiry sweeps (runOnce and adminCleanupExpiredUploads): one SELECT picks the sessions that
        are expired and writable, then each is retired in turn, whatever became of it meanwhile, and loses its
        object; it is reported unless its UPDATE failed. */
    method SweepExpired(expired: seq<nat>) returns (retired: set<nat>)
      requires Valid() && forall k :: 0 <= k < |expired| ==> expired[k] < |state.sessions|
      modifies this
      ensures Valid() && old(trace) <= trace
      ensures forall sid :: sid in retired ==>
                && sid in expired && Writable(old(state).sessions[sid])
                && sid < |state.sessions| && Terminal(state.sessions[sid].status) && Reported(trace, |old(trace)|, sid)
      ensures forall sid :: sid in expired && Writable(old(state).sessions[sid]) ==> Swept(trace, |old(trace)|, sid, retired, calm)
    {
      var base := |state.procs|;
      var selected: seq<nat> := [];
      for k := 0 to |expired|
        invariant Valid() && old(trace) <= trace && state == old(state).(procs := state.procs)
        invariant |state.procs| == base + |selected|
        invariant Queued(state.procs, base, base, selected)
        invariant forall sid :: sid in selected <==> sid in expired[..k] && Writable(old(state).sessions[sid])
      {
        if !Terminal(state.sessions[expired[k]].status) {
          Fire(Arrive(Retiring(expired[k], Expired, false)));
          selected := selected + [expired[k]];
        }
      }
      assert expired[..|expired|] == expired;
      retired := {};
      for p := base to base + |selected|
        invariant Valid() && old(trace) <= trace && Queued(state.procs, base, p, selected)
        invariant SweptSoFar(trace, state, |old(trace)|, selected, p - base, retired, calm)
      {
        var swept := RetireNext(base, p, selected, retired, |old(trace)|);
        retired := swept;
      }
    }

    lemma ReportedLater(past: State, before: seq<Event>, since: nat, sid: nat)
      requires Valid() && IsRun(Initial, before, past) && before <= trace && OverNow(before, past, since, sid)
      ensures OverNow(trace, state, since, sid)
    {
      StaysTerminal(past, before, sid);
      SometimeLater(before, since, trace, since, HasStatus(sid, Expired));
      SometimeLater(before, since, trace, since, OverAndGone(sid));
    }

    /** One session of a sweep. */
    method RetireNext(base: nat, p: nat, selected: seq<nat>, retired: set<nat>, ghost since: nat)
      returns (more: set<nat>)
      requires Valid() && base <= p < base + |selected| && Queued(state.procs, base, p, selected) && since <= |trace|
      requires SweptSoFar(trace, state, since, selected, p - base, retired, calm)
      modifies this
      ensures Valid() && old(trace) <= trace && Queued(state.procs, base, p + 1, selected)
      ensures SweptSoFar(trace, state, since, selected, p + 1 - base, more, calm)
    {
      var mine := Range(p, base + |selected|);
      assert p in mine;
      ghost var before, earlier := state, trace;
      var sid := selected[p - base];
      var code, m := Retire(p, mine);
      assert base + |selected| - 1 in mine;
      forall q | p + 1 <= q < base + |selected|
        ensures q < |state.procs| && state.procs[q] == Retiring(selected[q - base], Expired, false)
      {
        assert q in mine;
      }
      more := if code == 200 then retired + {sid} else retired;
      SweptOne(earlier, since, sid, code, m, p, more);
      SweptMore(before, earlier, since, selected, p - base, retired, more);
    }

    /** One more session is done with. */
    lemma SweptMore(past: State, before: seq<Event>, since: nat, selected: seq<nat>, n: nat, retired: set<nat>, more: set<nat>)
      requires Valid() && IsRun(Initial, before, past) && before <= trace && since <= |before| && n < |selected|
      requires SweptSoFar(before, past, since, selected, n, retired, calm)
      requires more == retired || (more == retired + {selected[n]} && OverNow(trace, state, since, selected[n]))
      requires Swept(trace, since, selected[n], more, calm)
      ensures SweptSoFar(trace, state, since, selected, n + 1, more, calm)
    {
      AllReportedLater(past, before, since, selected, n, retired);
      AllSweptLater(before, trace, since, selected, n, retired, more, calm);
      SweptNext(trace, state, since, selected, n, retired, more, calm);
    }

    lemma AllReportedLater(past: State, before: seq<Event>, since: nat, selected: seq<nat>, n: nat, retired: set<nat>)
      requires Valid() && IsRun(Initial, before, past) && before <= trace && n <= |selected|
      requires SweptSoFar(before, past, since, selected, n, retired, calm)
      ensures forall sid :: sid in retired ==> sid in selected && OverNow(trace, state, since, sid)
    {
      forall sid | sid in retired ensures sid in selected && OverNow(trace, state, since, sid) {
        ReportedLater(past, before, since, sid);
      }
    }

    lemma SweptOne(earlier: seq<Event>, since: nat, sid: nat, code: nat, m: Moment, p: nat, retired: set<nat>)
      requires Valid() && earlier <= trace && since <= |earlier| <= m.k && code in {200, 202}
      requires RetireTried(trace, m, p, Retiring(sid, Expired, false), code)
      requires calm ==> (code == 200 <==> SessionFree(m.st, sid))
      requires SessionTemp(sid) !in state.disk.names && (code == 200 ==> sid in retired)
      requires code == 200 ==>
                 && sid < |state.sessions| && Terminal(state.sessions[sid].status)
                 && Sometime(trace, |earlier|, HasStatus(sid, Expired))
      ensures Swept(trace, since, sid, retired, calm)
      ensures code == 200 ==> Reported(trace, since, sid)
    {
      SometimeNow(state, trace, since, Gone(sid));
      if code == 200 {
        SometimeNow(state, trace, since, OverAndGone(sid));
        SometimeLater(trace, |earlier|, trace, since, HasStatus(sid, Expired));
      } else {
        assert FailedThere(trace, since, sid, calm, p, m);
      }
    }

    /** deleteFile: the row goes before the object.  A live file of the user is deleted by this request's own step,
        unless it is not live any more by then, or the request ends early. */
    method DeleteFile(user: nat, fid: nat) returns (code: nat, ghost p: nat, ghost m: Moment)
      requires Valid()
      modifies this
      ensures Valid() && old(trace) <= trace && code in {200, 404, 500}
      ensures fid >= |old(state).files| || old(state).files[fid].owner != user || old(state).files[fid].state != Live
              ==> code == 404 && state == old(state)
      ensures code == 404 ==>
                || fid >= |old(state).files| || old(state).files[fid].owner != user || old(state).files[fid].state != Live
                || (OwnDelete(old(state), old(trace), trace, fid, p, m) && m.st.files[fid].state != Live)
      ensures code == 500 ==> exists j :: |old(trace)| <= j < |trace| && trace[j] == End(p) && |old(state).procs| <= p
      ensures calm && code == 500 ==> !UserFree(m.st, user)
      ensures code == 200 ==>
                && OwnDelete(old(state), old(trace), trace, fid, p, m) && m.st.files[fid].state == Live
                && DeletedAt(trace, m, fid)
                && fid < |state.files| && state.files[fid].owner == user && state.files[fid].state.Removed?
                && Final(state.files[fid].serial) !in state.disk.names
    {
      p, m := |state.procs|, Now();
      if fid >= |state.files| || state.files[fid].owner != user || !state.files[fid].state.Live? {
        return 404, p, m;
      }
      var q := BeginDelete(fid);
      code, m := DeleteStatements(q);
      if code == 0 {
        ghost var deleted := trace;
        code := DeleteStored(q);
        BeforeLater(deleted, trace, m, DeleteRow(q));
        DeletedLater(deleted, trace, m, fid);
      }
    }

    /** A file that was read live may be deleted by another request meanwhile, but stays its owner's. */
    method BeginDelete(fid: nat) returns (p: nat)
      requires Valid() && fid < |state.files| && state.files[fid].state.Live?
      modifies this
      ensures Valid() && old(trace) <= trace && |old(state).procs| == p < |state.procs| && state.procs[p] == Deleting(fid)
      ensures fid < |state.files| && state.files[fid].owner == old(state).files[fid].owner < |state.users|
    {
      ghost var past, from := state, trace;
      p := Begin(Deleting(fid));
      Grown(past, from);
      assert FileGrows(past.files[fid], state.files[fid]);
      FileFacts(fid);
    }

    /** Both UPDATEs, which wait for the users row, and the COMMIT; the answer is 0 when the row is gone. */
    method DeleteStatements(p: nat) returns (code: nat, ghost m: Moment)
      requires Valid() && p < |state.procs| && state.procs[p].Deleting?
      requires state.procs[p].fid < |state.files| && state.files[state.procs[p].fid].owner < |state.users|
      modifies this
      ensures Valid() && old(trace) < trace && code in {0, 404, 500} && m == old(Now())
      ensures code == 500 ==>
                trace[|old(trace)|] == End(p) && (calm ==> !UserFree(m.st, m.st.files[old(state.procs[p]).fid].owner))
      ensures code != 500 ==> Before(trace, m, DeleteRow(p))
      ensures code == 404 ==> m.st.files[old(state.procs[p]).fid].state != Live
      ensures code == 0 ==>
                var fid := old(state.procs[p]).fid;
                && m.st.files[fid].state == Live && DeletedAt(trace, m, fid)
                && p < |state.procs| && state.procs[p] == Deleted(fid)
                && fid < |state.files| && state.files[fid] == m.st.files[fid].(state := Removed)
    {
      m := Now();
      ghost var before := trace;
      var written: bool := *;
      if (!written && !calm) || !UserFree(state, state.files[state.procs[p].fid].owner) {
        code := Abort(p);
        return;
      }
      Fire(DeleteRow(p));
      JustBefore(before, m.st, DeleteRow(p), trace);
      if state.procs[p].Ended? {
        return 404, m;
      }
      DeletionEffect(m.st, before, p, trace);
      code := 0;
    }

    method DeleteStored(p: nat) returns (code: nat)
      requires Valid() && p < |state.procs| && state.procs[p].Deleted? && state.procs[p].fid < |state.files|
      requires state.files[state.procs[p].fid].state.Removed?
      modifies this
      ensures Valid() && old(trace) <= trace && code in {200, 500} && (calm ==> code == 200)
      ensures code == 500 ==> |old(trace)| < |trace| && trace[|trace| - 1] == End(p)
      ensures code == 200 ==>
                var fid := old(state.procs[p]).fid;
                && fid < |state.files| && state.files[fid].owner == old(state).files[fid].owner
                && state.files[fid].state.Removed? && Final(state.files[fid].serial) !in state.disk.names
    {
      ghost var past, before := state, trace;
      var fid := state.procs[p].fid;
      Others(p);
      Grown(past, before);
      assert FileGrows(past.files[fid], state.files[fid]);
      var gone: bool := *;
      if gone && !calm {
        code := Abort(p);
        return;
      }
      Fire(DeleteObject(p));
      code := 200;
    }

    /** adminStorageRecalculate, its two statements back to back. */
    method Recalculate() returns (ok: bool)
      requires Valid()
      modifies this
      ensures Valid() && old(trace) <= trace && |state.users| == |old(state).users|
      ensures ok ==> forall u :: 0 <= u < |state.users| ==>
                state.users[u].used == LiveSum(state.files, u) && state.users[u].used <= old(state).users[u].used
      ensures !ok ==> state == old(state)
    {
      if !Enabled(state, RecalcLive) {
        return false;
      }
      RecalcEnables(state);
      forall u | 0 <= u < |state.users|
        ensures var t := Step(Step(state, RecalcLive), RecalcRest);
                u < |t.users| && t.users[u].used == LiveSum(t.files, u) && t.users[u].used <= state.users[u].used
      {
        RecalculationExact(state, u);
      }
      Fire(RecalcLive);
      Fire(RecalcRest);
      ok := true;
    }
  }

  /** A completed session has a file of its own, of the session's size. */
  lemma CompletedSession(s: State, trace: seq<Event>, sid: nat)
    requires IsRun(Initial, trace, s) && sid < |s.sessions| && s.sessions[sid].status.Completed?
    ensures s.sessions[sid].fileId.Some? && s.sessions[sid].fileId.value < |s.files|
    ensures OriginSid(s.files[s.sessions[sid].fileId.value].origin) == Some(sid)
    ensures s.files[s.sessions[sid].fileId.value].size == s.sessions[sid].uploaded
    ensures s.sessions[sid].total.Some? ==> s.sessions[sid].total == Some(s.sessions[sid].uploaded)
  {
    InvReachable(s);
    assert SessionOk(s, sid);
    var f := s.sessions[sid].fileId.value;
    assert FileOk(s, f);
    ContentIsAccepted(Initial, trace, s, f);
  }
}
