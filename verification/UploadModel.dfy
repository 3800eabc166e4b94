/** Uploads, storage and the quota ledger as a machine of interleaved request steps.

    A state holds the committed tables, the disk and one process per request.  A process between two
    of its steps keeps its locals, the row locks it holds and the rows its transaction has buffered.
    A statement that fails ends the transaction then and there: its locks are gone and its buffered rows
    are dropped before the process runs its compensation.  Ending a process (an early return, a crash)
    does the same and never undoes what the process did to the disk. */
module UploadModel {
  import opened Types
  import opened Disk

  datatype Status = Initialized | Uploading | Paused | Completed | Canceled | Failed | Expired

  predicate Terminal(status: Status) {
    status.Completed? || status.Canceled? || status.Failed? || status.Expired?
  }

  /** A row of upload_sessions.  The last four fields are history the program does not store:
      the bytes of all committed chunks; whether a request ended after writing bytes it did not
      commit; whether an empty object may stand in for a lost one (an open at a nonzero offset made it, or
      a finalization that began with nothing committed is to put it back); and whether a statement failed
      of a finalization that began with nothing committed and had moved an object that was not empty. */
  datatype Session = Session(
    owner: nat, total: Option<nat>, uploaded: nat, status: Status, fileId: Option<nat>,
    accepted: Bytes, aborted: bool, recreated: bool, exposed: bool)

  datatype User = User(quota: Option<nat>, used: int)

  /** deleteFile removes a row, deleteFolder drops it; a dropped row stays charged to its owner until
      the next recalculation. */
  datatype FileState = Live | Removed | Dropped(charged: bool)

  /** Where a file came from; a tus origin records how many bytes the finalizing PATCH carried. */
  datatype Origin = FromChunks(sid: nat) | FromTus(sid: nat, sent: nat) | FromPart

  function OriginSid(o: Origin): Option<nat> {
    match o
    case FromChunks(sid) => Some(sid)
    case FromTus(sid, _) => Some(sid)
    case FromPart => None
  }

  /** A row of files; content is history: the bytes the client had accepted when the row was made. */
  datatype FileRow = FileRow(
    owner: nat, serial: nat, size: nat, state: FileState, origin: Origin, content: Bytes)

  predicate ChargedRow(f: FileRow) {
    f.state.Live? || (f.state.Dropped? && f.state.charged)
  }

  /** The rows a finalizing transaction is about to commit. */
  datatype Draft = Draft(owner: nat, serial: nat, size: nat, origin: Origin, content: Bytes)

  /** PATCH /uploads/{id}/chunk and PATCH /uploads/tus/{id}; cap is the configured maximum size. */
  datatype Request =
    | Chunk(user: nat, sid: nat, offset: Option<nat>, cap: Option<nat>, body: Bytes)
    | Patch(user: nat, sid: nat, at: nat, body: Bytes)

  datatype Proc =
    | Ended(code: nat)
    | AppendWaiting(req: Request)
    | AppendLocked(req: Request, row: Session, data: Bytes)
    | Appending(req: Request, row: Session, inode: nat, sent: Bytes, rest: Bytes)
    | CompleteWaiting(user: nat, sid: nat)
    | PartWaiting(user: nat, body: Bytes)
    | Moving(draft: Draft)
    | Moved(draft: Draft)
    | Charged(draft: Draft)
    | Undoing(draft: Draft, locked: bool)
    | Retiring(sid: nat, to: Status, strict: bool)
    | Retired(sid: nat)
    | Deleting(fid: nat)
    | Deleted(fid: nat)

  datatype State = State(
    users: seq<User>, sessions: seq<Session>, files: seq<FileRow>,
    disk: Disk, minted: nat, procs: seq<Proc>)

  const Initial: State := State([], [], [], Disk(map[], []), 0, [])

  // ---- locks -------------------------------------------------------------------------------------

  /** The upload_sessions row a process has locked (SELECT ... FOR UPDATE). */
  function HeldSession(p: Proc): Option<nat> {
    match p
    case AppendLocked(req, _, _) => Some(req.sid)
    case Appending(req, _, _, _, _) => Some(req.sid)
    case Moving(d) => OriginSid(d.origin)
    case Moved(d) => OriginSid(d.origin)
    case Charged(d) => OriginSid(d.origin)
    case Undoing(d, locked) => if locked then OriginSid(d.origin) else None
    case _ => None
  }

  /** The users row a process has locked (its UPDATE of used_storage_bytes). */
  function HeldUser(p: Proc): Option<nat> {
    match p
    case Charged(d) => Some(d.owner)
    case _ => None
  }

  predicate SessionFree(s: State, sid: nat) {
    forall i | 0 <= i < |s.procs| :: HeldSession(s.procs[i]) != Some(sid)
  }

  predicate UserFree(s: State, u: nat) {
    forall i | 0 <= i < |s.procs| :: HeldUser(s.procs[i]) != Some(u)
  }

  // ---- decisions of the handlers ------------------------------------------------------------------

  datatype Verdict = Refuse(code: nat) | Proceed(limit: Option<nat>)

  /** What the handler decides on the locked row before it touches storage. */
  function Gate(req: Request, row: Session): Verdict {
    match req
    case Chunk(_, _, offset, cap, _) =>
      if Terminal(row.status) then Refuse(409)
      else if offset.Some? && offset.value != row.uploaded then Refuse(409)
      else if cap.Some? && cap.value < row.uploaded then Refuse(413)
      else Proceed(if cap.Some? then Some(cap.value - row.uploaded + 1) else None)
    case Patch(_, _, at, _) =>
      if row.total.None? then Refuse(400)
      else if row.status.Completed? then Refuse(204)
      else if Terminal(row.status) then Refuse(409)
      else if at != row.uploaded then Refuse(409)
      else Proceed(Some(Max(0, row.total.value - row.uploaded) + 1))
  }

  /** io.LimitReader. */
  function Limited(body: Bytes, limit: Option<nat>): Bytes {
    if limit.Some? then body[..Min(limit.value, |body|)] else body
  }

  datatype Settlement = Reject(code: nat) | Keep | Finalize

  /** What the handler decides once the body is written and the new offset known. */
  function Settle(req: Request, row: Session, newOffset: nat): Settlement {
    match req
    case Chunk(_, _, _, cap, _) =>
      if cap.Some? && cap.value < newOffset then Reject(413)
      else if row.total.Some? && row.total.value < newOffset then Reject(409)
      else Keep
    case Patch(_, _, _, _) =>
      if row.total.None? || row.total.value < newOffset then Reject(409)
      else if row.total.value == newOffset then Finalize
      else Keep
  }

  function CompleteGate(row: Session): Verdict {
    if row.status.Completed? then Refuse(200)
    else if Terminal(row.status) then Refuse(409)
    else if row.total.Some? && row.total.value != row.uploaded then Refuse(409)
    else Proceed(None)
  }

  /** The status a committed request answers with. */
  function Success(o: Origin): nat {
    match o
    case FromChunks(_) => 200
    case FromTus(_, _) => 204
    case FromPart => 201
  }

  function SourceKey(d: Draft): Key {
    match d.origin
    case FromChunks(sid) => SessionTemp(sid)
    case FromTus(sid, _) => SessionTemp(sid)
    case FromPart => PartTemp(d.serial)
  }

  predicate WithinQuota(u: User, more: nat) {
    u.quota.None? || u.used + more <= u.quota.value
  }

  // ---- sums over the files table ------------------------------------------------------------------

  function Charge(f: FileRow, u: nat): nat {
    if f.owner == u && ChargedRow(f) then f.size else 0
  }

  function LiveSize(f: FileRow, u: nat): nat {
    if f.owner == u && f.state.Live? then f.size else 0
  }

  /** What used_storage_bytes should be: live rows and rows still charged after a folder delete. */
  function ChargedSum(files: seq<FileRow>, u: nat): nat {
    if |files| == 0 then 0 else ChargedSum(files[..|files| - 1], u) + Charge(files[|files| - 1], u)
  }

  /** SELECT SUM(size_bytes) FROM files WHERE deleted_at IS NULL, for one owner. */
  function LiveSum(files: seq<FileRow>, u: nat): nat {
    if |files| == 0 then 0 else LiveSum(files[..|files| - 1], u) + LiveSize(files[|files| - 1], u)
  }

  predicate HasLive(files: seq<FileRow>, u: nat) {
    exists i | 0 <= i < |files| :: files[i].owner == u && files[i].state.Live?
  }

  // ---- steps -------------------------------------------------------------------------------------

  datatype Event =
    | AddUser(quota: Option<nat>)
    | SetQuota(u: nat, quota: Option<nat>)
    | Init(owner: nat, total: Option<nat>)
    | Arrive(proc: Proc)
    | Lock(p: nat)
    | OpenTemp(p: nat)
    | WriteSome(p: nat, n: nat)
    | Finish(p: nat)
    | StorePart(p: nat)
    | Move(p: nat)
    | ChargeUser(p: nat)
    | CommitFile(p: nat)
    | FailStatement(p: nat)
    | Undo(p: nat)
    | MoveBack(p: nat)
    | End(p: nat)
    | RetireRow(p: nat)
    | RetireRowFails(p: nat)
    | RetireObject(p: nat)
    | DeleteRow(p: nat)
    | DeleteObject(p: nat)
    | DropFiles(u: nat, ids: set<nat>)
    | RecalcLive
    | RecalcRest

  function With(s: State, p: nat, q: Proc): State
    requires p < |s.procs|
  {
    s.(procs := s.procs[p := q])
  }

  function WithSession(s: State, sid: nat, row: Session): State
    requires sid < |s.sessions|
  {
    s.(sessions := s.sessions[sid := row])
  }

  /** The session a process leaves with written but uncommitted bytes when it ends now. */
  function Uncommitted(p: Proc): Option<nat> {
    match p
    case Appending(req, _, _, sent, _) => if sent != [] then Some(req.sid) else None
    case Moving(d) => if d.origin.FromTus? && d.origin.sent > 0 then Some(d.origin.sid) else None
    case Moved(d) => if d.origin.FromTus? && d.origin.sent > 0 then Some(d.origin.sid) else None
    case Charged(d) => if d.origin.FromTus? && d.origin.sent > 0 then Some(d.origin.sid) else None
    case _ => None
  }

  function MarkAborted(s: State, p: Proc): (t: State)
    ensures t.procs == s.procs && |t.sessions| == |s.sessions|
  {
    var sid := Uncommitted(p);
    if sid.Some? && sid.value < |s.sessions|
    then WithSession(s, sid.value, s.sessions[sid.value].(aborted := true)) else s
  }

  /** Ends a process without a commit. */
  function Abandon(s: State, p: nat, code: nat): State
    requires p < |s.procs|
  {
    With(MarkAborted(s, s.procs[p]), p, Ended(code))
  }

  /** The requests that may arrive; each starts before it holds anything.  A cancel has read its
      session, a sweep has selected a writable one, a delete has read a live row. */
  predicate CanArrive(s: State, q: Proc) {
    match q
    case AppendWaiting(_) => true
    case CompleteWaiting(_, _) => true
    case PartWaiting(u, _) => u < |s.users|
    case Retiring(sid, to, strict) =>
      && sid < |s.sessions|
      && (to == Canceled || (to == Expired && !strict && !Terminal(s.sessions[sid].status)))
    case Deleting(fid) => fid < |s.files| && s.files[fid].state.Live?
    case _ => false
  }

  // lockUploadSession and the checks on the row it returns

  predicate CanLock(s: State, p: nat) {
    && p < |s.procs|
    && match s.procs[p]
       case AppendWaiting(req) => SessionFree(s, req.sid)
       case CompleteWaiting(_, sid) => SessionFree(s, sid)
       case _ => false
  }

  function DoLock(s: State, p: nat): State
    requires CanLock(s, p)
  {
    match s.procs[p]
    case AppendWaiting(req) =>
      if req.sid >= |s.sessions| || s.sessions[req.sid].owner != req.user then With(s, p, Ended(404))
      else
        var row := s.sessions[req.sid];
        (match Gate(req, row)
         case Refuse(code) => With(s, p, Ended(code))
         case Proceed(limit) => With(s, p, AppendLocked(req, row, Limited(req.body, limit))))
    case CompleteWaiting(user, sid) =>
      if sid >= |s.sessions| || s.sessions[sid].owner != user then With(s, p, Ended(404))
      else
        var row := s.sessions[sid];
        (match CompleteGate(row)
         case Refuse(code) => With(s, p, Ended(code))
         case Proceed(_) =>
           var d := Draft(row.owner, s.minted, row.uploaded, FromChunks(sid), row.accepted);
           With(s.(minted := s.minted + 1), p, Moving(d)))
  }

  // Storage.AppendAt: open, compare the length, copy piece by piece

  predicate CanOpen(s: State, p: nat) {
    p < |s.procs| && s.procs[p].AppendLocked? && s.procs[p].req.sid < |s.sessions|
  }

  function DoOpen(s: State, p: nat): State
    requires CanOpen(s, p)
  {
    var AppendLocked(req, row, data) := s.procs[p];
    var k := SessionTemp(req.sid);
    var (disk, i) := s.disk.Open(k);
    var row' := row.(recreated := row.recreated || (k !in s.disk.names && row.uploaded > 0));
    var s' := WithSession(s.(disk := disk), req.sid, row');
    if i < |disk.inodes| && |disk.inodes[i]| == row.uploaded
    then With(s', p, Appending(req, row', i, [], data))
    else With(s', p, Ended(if req.Chunk? then 409 else 500))
  }

  predicate CanWrite(s: State, p: nat, n: nat) {
    && p < |s.procs| && s.procs[p].Appending?
    && 0 < n <= |s.procs[p].rest|
    && s.procs[p].inode < |s.disk.inodes|
  }

  function DoWrite(s: State, p: nat, n: nat): State
    requires CanWrite(s, p, n)
  {
    var Appending(req, row, i, sent, rest) := s.procs[p];
    With(s.(disk := s.disk.Write(i, rest[..n])), p, Appending(req, row, i, sent + rest[..n], rest[n..]))
  }

  // the stream has ended: update the row and commit, refuse, or go on to finalize

  predicate CanFinish(s: State, p: nat) {
    p < |s.procs| && s.procs[p].Appending? && s.procs[p].rest == [] && s.procs[p].req.sid < |s.sessions|
  }

  function DoFinish(s: State, p: nat): State
    requires CanFinish(s, p)
  {
    var Appending(req, row, _, sent, _) := s.procs[p];
    var newOffset := row.uploaded + |sent|;
    match Settle(req, row, newOffset)
    case Reject(code) => Abandon(s, p, code)
    case Keep =>
      var row' := row.(uploaded := newOffset, status := Uploading, accepted := row.accepted + sent);
      With(WithSession(s, req.sid, row'), p, Ended(if req.Chunk? then 200 else 204))
    case Finalize =>
      var d := Draft(row.owner, s.minted, newOffset, FromTus(req.sid, |sent|), row.accepted + sent);
      With(s.(minted := s.minted + 1), p, Moving(d))
  }

  // one part of a multipart upload, stored under its own temporary key

  predicate CanStorePart(s: State, p: nat) {
    p < |s.procs| && s.procs[p].PartWaiting?
  }

  function DoStorePart(s: State, p: nat): State
    requires CanStorePart(s, p)
  {
    var PartWaiting(user, body) := s.procs[p];
    var d := Draft(user, s.minted, |body|, FromPart, body);
    With(s.(minted := s.minted + 1, disk := s.disk.Put(PartTemp(s.minted), body)), p, Moving(d))
  }

  // Storage.Move to the final key

  predicate CanMove(s: State, p: nat) {
    p < |s.procs| && s.procs[p].Moving?
  }

  function DoMove(s: State, p: nat): State
    requires CanMove(s, p)
  {
    var d := s.procs[p].draft;
    if SourceKey(d) in s.disk.names
    then With(s.(disk := s.disk.Rename(SourceKey(d), Final(d.serial))), p, Moved(d))
    else Abandon(s, p, 500)
  }

  // INSERT INTO files (buffered) and UPDATE users, which locks the users row

  predicate CanCharge(s: State, p: nat) {
    && p < |s.procs| && s.procs[p].Moved?
    && UserFree(s, s.procs[p].draft.owner)
  }

  function DoCharge(s: State, p: nat): State
    requires CanCharge(s, p)
  {
    With(s, p, Charged(s.procs[p].draft))
  }

  // ensureQuotaAllowsSizeTx, UPDATE upload_sessions and COMMIT

  predicate CanCommit(s: State, p: nat) {
    && p < |s.procs| && s.procs[p].Charged?
    && var d := s.procs[p].draft;
       && d.owner < |s.users| && WithinQuota(s.users[d.owner], d.size)
       && (OriginSid(d.origin).Some? ==> OriginSid(d.origin).value < |s.sessions|)
  }

  function CompletedRow(row: Session, d: Draft, f: nat): Session {
    row.(uploaded := d.size, accepted := d.content, status := Completed, fileId := Some(f))
  }

  function DoCommit(s: State, p: nat): State
    requires CanCommit(s, p)
  {
    var d := s.procs[p].draft;
    var f := FileRow(d.owner, d.serial, d.size, Live, d.origin, d.content);
    var u := s.users[d.owner];
    var s' := s.(files := s.files + [f], users := s.users[d.owner := u.(used := u.used + d.size)]);
    var sid := OriginSid(d.origin);
    var s'' := if sid.None? then s'
               else WithSession(s', sid.value, CompletedRow(s.sessions[sid.value], d, |s.files|));
    With(s'', p, Ended(Success(d.origin)))
  }

  // An INSERT, an UPDATE or the COMMIT fails: that ends the transaction, so its locks are gone before the
  // compensation runs.  tusPatch has no compensation for its COMMIT; that failure is an End.

  predicate CanFailStatement(s: State, p: nat) {
    && p < |s.procs| && (s.procs[p].Moved? || s.procs[p].Charged?)
    && var sid := OriginSid(s.procs[p].draft.origin);
       sid.Some? ==> sid.value < |s.sessions|
  }

  /** The session of a draft whose object is to be put back without the lock.  While nothing is committed
      another request may write a new object meanwhile. */
  function Loosened(row: Session, moved: Bytes): Session {
    if row.uploaded > 0 then row
    else if moved == [] then row.(recreated := true)
    else row.(exposed := true)
  }

  function Released(s: State, d: Draft): (t: State)
    ensures t.procs == s.procs && |t.sessions| == |s.sessions|
  {
    var sid := OriginSid(d.origin);
    if sid.Some? && sid.value < |s.sessions|
    then WithSession(s, sid.value, Loosened(s.sessions[sid.value], s.disk.Peek(Final(d.serial)))) else s
  }

  function DoFailStatement(s: State, p: nat): State
    requires CanFailStatement(s, p)
  {
    var d := s.procs[p].draft;
    With(Released(MarkAborted(s, s.procs[p]), d), p, Undoing(d, false))
  }

  // The quota is exceeded, which is no failing statement: the compensation runs while the session row is
  // locked.  A part is checked once before its transaction begins.

  predicate CanUndo(s: State, p: nat) {
    && p < |s.procs| && (s.procs[p].Charged? || (s.procs[p].Moved? && s.procs[p].draft.origin.FromPart?))
    && var d := s.procs[p].draft;
       d.owner < |s.users| && !WithinQuota(s.users[d.owner], d.size)
  }

  function DoUndo(s: State, p: nat): State
    requires CanUndo(s, p)
  {
    With(MarkAborted(s, s.procs[p]), p, Undoing(s.procs[p].draft, true))
  }

  // the compensation: Storage.Move back, or Storage.Delete for a multipart part

  predicate CanMoveBack(s: State, p: nat) {
    p < |s.procs| && s.procs[p].Undoing?
  }

  function DoMoveBack(s: State, p: nat): State
    requires CanMoveBack(s, p)
  {
    var d := s.procs[p].draft;
    var disk' :=
      if d.origin.FromPart? then s.disk.Remove(Final(d.serial))
      else if Final(d.serial) in s.disk.names then s.disk.Rename(Final(d.serial), SourceKey(d))
      else s.disk;
    With(s.(disk := disk'), p, Ended(500))
  }

  // uploadCancel, tusDelete and the two expiry sweeps: an UPDATE without a status guard, which waits
  // for the row lock, then Storage.Delete.  Only uploadCancel stops when the UPDATE fails.

  predicate CanRetireRow(s: State, p: nat) {
    && p < |s.procs| && s.procs[p].Retiring?
    && s.procs[p].sid < |s.sessions| && SessionFree(s, s.procs[p].sid)
  }

  function DoRetireRow(s: State, p: nat): State
    requires CanRetireRow(s, p)
  {
    var Retiring(sid, to, _) := s.procs[p];
    With(WithSession(s, sid, s.sessions[sid].(status := to)), p, Retired(sid))
  }

  predicate CanRetireRowFails(s: State, p: nat) {
    p < |s.procs| && s.procs[p].Retiring?
  }

  function DoRetireRowFails(s: State, p: nat): State
    requires CanRetireRowFails(s, p)
  {
    var Retiring(sid, _, strict) := s.procs[p];
    With(s, p, if strict then Ended(500) else Retired(sid))
  }

  predicate CanRetireObject(s: State, p: nat) {
    p < |s.procs| && s.procs[p].Retired?
  }

  function DoRetireObject(s: State, p: nat): State
    requires CanRetireObject(s, p)
  {
    With(s.(disk := s.disk.Remove(SessionTemp(s.procs[p].sid))), p, Ended(200))
  }

  // deleteFile: both UPDATEs and the COMMIT, then Storage.Delete

  predicate CanDeleteRow(s: State, p: nat) {
    && p < |s.procs| && s.procs[p].Deleting?
    && s.procs[p].fid < |s.files|
    && s.files[s.procs[p].fid].owner < |s.users|
    && UserFree(s, s.files[s.procs[p].fid].owner)
  }

  function DoDeleteRow(s: State, p: nat): State
    requires CanDeleteRow(s, p)
  {
    var fid := s.procs[p].fid;
    var f := s.files[fid];
    if !f.state.Live? then With(s, p, Ended(404))
    else
      var u := s.users[f.owner];
      With(s.(files := s.files[fid := f.(state := Removed)],
              users := s.users[f.owner := u.(used := Max(0, u.used - f.size))]), p, Deleted(fid))
  }

  predicate CanDeleteObject(s: State, p: nat) {
    p < |s.procs| && s.procs[p].Deleted? && s.procs[p].fid < |s.files|
  }

  function DoDeleteObject(s: State, p: nat): State
    requires CanDeleteObject(s, p)
  {
    With(s.(disk := s.disk.Remove(Final(s.files[s.procs[p].fid].serial))), p, Ended(200))
  }

  // deleteFolder on the files table: rows go, used_storage_bytes stays

  function DropRow(f: FileRow, drop: bool, u: nat): FileRow {
    if drop && f.owner == u && f.state.Live? then f.(state := Dropped(true)) else f
  }

  function DoDrop(s: State, u: nat, ids: set<nat>): State {
    s.(files := seq(|s.files|, i requires 0 <= i < |s.files| => DropRow(s.files[i], i in ids, u)))
  }

  // adminStorageRecalculate: owners with live files first, the others second

  function SettledRow(f: FileRow, files: seq<FileRow>, live: bool): FileRow {
    if f.state.Dropped? && HasLive(files, f.owner) == live then f.(state := Dropped(false)) else f
  }

  function SettledUser(s: State, u: nat, live: bool): User
    requires u < |s.users|
  {
    if HasLive(s.files, u) == live
    then s.users[u].(used := if live then LiveSum(s.files, u) else 0) else s.users[u]
  }

  function DoRecalc(s: State, live: bool): State {
    s.(files := seq(|s.files|, i requires 0 <= i < |s.files| => SettledRow(s.files[i], s.files, live)),
       users := seq(|s.users|, u requires 0 <= u < |s.users| => SettledUser(s, u, live)))
  }

  predicate Enabled(s: State, e: Event) {
    match e
    case AddUser(_) => true
    case SetQuota(u, _) => u < |s.users| && UserFree(s, u)
    case Init(owner, total) => owner < |s.users| && (total.Some? ==> total.value > 0)
    case Arrive(q) => CanArrive(s, q)
    case Lock(p) => CanLock(s, p)
    case OpenTemp(p) => CanOpen(s, p)
    case WriteSome(p, n) => CanWrite(s, p, n)
    case Finish(p) => CanFinish(s, p)
    case StorePart(p) => CanStorePart(s, p)
    case Move(p) => CanMove(s, p)
    case ChargeUser(p) => CanCharge(s, p)
    case CommitFile(p) => CanCommit(s, p)
    case FailStatement(p) => CanFailStatement(s, p)
    case Undo(p) => CanUndo(s, p)
    case MoveBack(p) => CanMoveBack(s, p)
    case End(p) => p < |s.procs|
    case RetireRow(p) => CanRetireRow(s, p)
    case RetireRowFails(p) => CanRetireRowFails(s, p)
    case RetireObject(p) => CanRetireObject(s, p)
    case DeleteRow(p) => CanDeleteRow(s, p)
    case DeleteObject(p) => CanDeleteObject(s, p)
    case DropFiles(_, _) => true
    case RecalcLive => forall u | 0 <= u < |s.users| :: UserFree(s, u)
    case RecalcRest => forall u | 0 <= u < |s.users| :: UserFree(s, u)
  }

  function Step(s: State, e: Event): State
    requires Enabled(s, e)
  {
    match e
    case AddUser(quota) => s.(users := s.users + [User(quota, 0)])
    case SetQuota(u, quota) => s.(users := s.users[u := s.users[u].(quota := quota)])
    case Init(owner, total) =>
      s.(sessions := s.sessions + [Session(owner, total, 0, Initialized, None, [], false, false, false)])
    case Arrive(q) => s.(procs := s.procs + [q])
    case Lock(p) => DoLock(s, p)
    case OpenTemp(p) => DoOpen(s, p)
    case WriteSome(p, n) => DoWrite(s, p, n)
    case Finish(p) => DoFinish(s, p)
    case StorePart(p) => DoStorePart(s, p)
    case Move(p) => DoMove(s, p)
    case ChargeUser(p) => DoCharge(s, p)
    case CommitFile(p) => DoCommit(s, p)
    case FailStatement(p) => DoFailStatement(s, p)
    case Undo(p) => DoUndo(s, p)
    case MoveBack(p) => DoMoveBack(s, p)
    case End(p) => Abandon(s, p, 0)
    case RetireRow(p) => DoRetireRow(s, p)
    case RetireRowFails(p) => DoRetireRowFails(s, p)
    case RetireObject(p) => DoRetireObject(s, p)
    case DeleteRow(p) => DoDeleteRow(s, p)
    case DeleteObject(p) => DoDeleteObject(s, p)
    case DropFiles(u, ids) => DoDrop(s, u, ids)
    case RecalcLive => DoRecalc(s, true)
    case RecalcRest => DoRecalc(s, false)
  }

  /** A run: every event is enabled where it happens. */
  predicate IsRun(s: State, es: seq<Event>, t: State)
    decreases |es|
  {
    if |es| == 0 then s == t else Enabled(s, es[0]) && IsRun(Step(s, es[0]), es[1..], t)
  }

  ghost predicate Reachable(s: State) {
    exists es :: IsRun(Initial, es, s)
  }
}
