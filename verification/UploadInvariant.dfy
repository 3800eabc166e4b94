/** The inductive invariant of the upload machine. */
module UploadInvariant {
  import opened Types
  import opened Disk
  import opened UploadModel

  // ---- rows, processes and locks ------------------------------------------------------------------

  ghost predicate SessionOk(s: State, sid: nat)
    requires sid < |s.sessions|
  {
    var ses := s.sessions[sid];
    && ses.uploaded == |ses.accepted|
    && ses.owner < |s.users|
    && (ses.total.Some? ==> 0 < ses.total.value && ses.uploaded <= ses.total.value)
    && (ses.status.Completed? ==> ses.fileId.Some?)
    && (ses.fileId.Some? ==>
          && Terminal(ses.status) && ses.fileId.value < |s.files|
          && OriginSid(s.files[ses.fileId.value].origin) == Some(sid)
          && (ses.total.Some? ==> ses.total == Some(ses.uploaded)))
  }

  ghost predicate FileOk(s: State, f: nat)
    requires f < |s.files|
  {
    var row := s.files[f];
    var sid := OriginSid(row.origin);
    && row.owner < |s.users|
    && row.serial < s.minted
    && row.size == |row.content|
    && (row.state.Live? ==> Final(row.serial) in s.disk.names)
    && (sid.Some? ==> sid.value < |s.sessions| && s.sessions[sid.value].fileId == Some(f))
    && (row.origin.FromTus? ==> s.sessions[sid.value].total == Some(row.size))
  }

  function DraftOf(q: Proc): Option<Draft> {
    match q
    case Moving(d) => Some(d)
    case Moved(d) => Some(d)
    case Charged(d) => Some(d)
    case Undoing(d, _) => Some(d)
    case _ => None
  }

  /** The draft of a process whose object already sits at its final key. */
  function Displaced(q: Proc): Option<Draft> {
    if q.Moving? then None else DraftOf(q)
  }

  ghost predicate DraftOk(s: State, d: Draft) {
    var sid := OriginSid(d.origin);
    && d.owner < |s.users|
    && d.serial < s.minted
    && d.size == |d.content|
    && (sid.Some? ==> sid.value < |s.sessions|)
  }

  /** What a finalizing process that holds its session row knows about it. */
  ghost predicate DraftLocked(s: State, d: Draft)
    requires DraftOk(s, d)
  {
    match d.origin
    case FromPart => true
    case FromChunks(sid) =>
      var ses := s.sessions[sid];
      && !Terminal(ses.status)
      && d.content == ses.accepted
      && (ses.total.Some? ==> ses.total == Some(d.size))
    case FromTus(sid, sent) =>
      var ses := s.sessions[sid];
      && !Terminal(ses.status)
      && ses.total == Some(d.size)
      && ses.accepted <= d.content
      && |d.content| == |ses.accepted| + sent
  }

  /** What the session row counted when the draft was made: a finalizing PATCH has not counted its body. */
  function Base(d: Draft): int {
    if d.origin.FromTus? then d.size - d.origin.sent else d.size
  }

  /** What is left of that once a failing statement has released the row. */
  ghost predicate DraftLoose(s: State, d: Draft)
    requires DraftOk(s, d)
  {
    var sid := OriginSid(d.origin);
    sid.Some? ==>
      var ses := s.sessions[sid.value];
      && 0 <= Base(d) <= ses.uploaded
      && (ses.total.Some? ==> ses.total == Some(d.size))
      && (d.origin.FromTus? ==> ses.total.Some?)
      && (Base(d) == 0 ==> ses.exposed || (ses.recreated && s.disk.Peek(Final(d.serial)) == []))
  }

  ghost predicate PartStored(s: State, d: Draft, k: Key) {
    d.origin.FromPart? ==> k in s.disk.names && s.disk.Peek(k) == d.content
  }

  /** A request holding its row still sees the row it read. */
  ghost predicate SnapshotOk(s: State, req: Request, row: Session) {
    && req.sid < |s.sessions|
    && row == s.sessions[req.sid]
    && !Terminal(row.status)
    && (req.Patch? ==> row.total.Some?)
  }

  /** An open handle is on the session's own object and has received exactly the bytes sent. */
  ghost predicate HandleOk(s: State, req: Request, row: Session, inode: nat, sent: Bytes) {
    && inode < |s.disk.inodes|
    && |s.disk.inodes[inode]| == row.uploaded + |sent|
    && (!row.exposed ==> s.disk.inodes[inode] == row.accepted + sent)
    && (forall k :: k in s.disk.names && s.disk.names[k] == inode ==> k == SessionTemp(req.sid))
  }

  ghost predicate ProcOk(s: State, q: Proc) {
    match q
    case Ended(_) => true
    case AppendWaiting(_) => true
    case CompleteWaiting(_, _) => true
    case PartWaiting(u, _) => u < |s.users|
    case AppendLocked(req, row, _) => SnapshotOk(s, req, row)
    case Appending(req, row, inode, sent, _) => SnapshotOk(s, req, row) && HandleOk(s, req, row, inode, sent)
    case Moving(d) =>
      && DraftOk(s, d) && DraftLocked(s, d) && Final(d.serial) !in s.disk.names
      && PartStored(s, d, PartTemp(d.serial))
    case Moved(d) =>
      && DraftOk(s, d) && DraftLocked(s, d) && Final(d.serial) in s.disk.names
      && PartStored(s, d, Final(d.serial))
    case Charged(d) =>
      && DraftOk(s, d) && DraftLocked(s, d) && Final(d.serial) in s.disk.names
      && PartStored(s, d, Final(d.serial))
    case Undoing(d, locked) =>
      && DraftOk(s, d) && Final(d.serial) in s.disk.names
      && (if locked then DraftLocked(s, d) else DraftLoose(s, d))
      && (d.origin.FromTus? && d.origin.sent > 0 ==> s.sessions[d.origin.sid].aborted)
    case Retiring(sid, to, _) => sid < |s.sessions| && Terminal(to) && to != Completed
    case Retired(sid) => sid < |s.sessions|
    case Deleting(fid) => fid < |s.files|
    case Deleted(fid) => fid < |s.files| && s.files[fid].state.Removed?
  }

  /** No two processes hold the same row. */
  ghost predicate Exclusive(s: State) {
    forall i, j :: 0 <= i < j < |s.procs| ==>
      && (HeldSession(s.procs[i]).Some? ==> HeldSession(s.procs[i]) != HeldSession(s.procs[j]))
      && (HeldUser(s.procs[i]).Some? ==> HeldUser(s.procs[i]) != HeldUser(s.procs[j]))
  }

  /** No inode is open twice. */
  ghost predicate HandlesDistinct(s: State) {
    forall i, j :: 0 <= i < j < |s.procs| && s.procs[i].Appending? && s.procs[j].Appending? ==>
      s.procs[i].inode != s.procs[j].inode
  }

  /** Final keys are minted once: by one process, then owned by one row. */
  ghost predicate SerialsDistinct(s: State) {
    && (forall i, j :: 0 <= i < j < |s.procs| && DraftOf(s.procs[i]).Some? && DraftOf(s.procs[j]).Some? ==>
          DraftOf(s.procs[i]).value.serial != DraftOf(s.procs[j]).value.serial)
    && (forall i, f :: 0 <= i < |s.procs| && 0 <= f < |s.files| && DraftOf(s.procs[i]).Some? ==>
          DraftOf(s.procs[i]).value.serial != s.files[f].serial)
    && (forall f, g :: 0 <= f < g < |s.files| ==> s.files[f].serial != s.files[g].serial)
  }

  ghost predicate SerialsMinted(s: State) {
    && (forall n: nat :: Final(n) in s.disk.names ==> n < s.minted)
    && (forall n: nat :: PartTemp(n) in s.disk.names ==> n < s.minted)
    && (forall sid: nat :: SessionTemp(sid) in s.disk.names ==> sid < |s.sessions|)
  }

  ghost predicate Structure(s: State) {
    && s.disk.Valid()
    && SerialsMinted(s)
    && SerialsDistinct(s)
    && Exclusive(s)
    && HandlesDistinct(s)
    && (forall sid :: 0 <= sid < |s.sessions| ==> SessionOk(s, sid))
    && (forall f :: 0 <= f < |s.files| ==> FileOk(s, f))
    && (forall i :: 0 <= i < |s.procs| ==> ProcOk(s, s.procs[i]))
  }

  // ---- contents ----------------------------------------------------------------------------------

  /** An empty object that stands in for a lost one. */
  ghost predicate Hollow(ses: Session, o: Bytes) {
    ses.recreated && o == []
  }

  /** The object starts with everything the session has accepted, and holds nothing more unless some
      request was aborted. */
  ghost predicate Fits(ses: Session, o: Bytes) {
    Hollow(ses, o) || (ses.accepted <= o && (!ses.aborted ==> o == ses.accepted))
  }

  /** A session whose objects are vouched for. */
  ghost predicate Tracked(ses: Session) {
    !Terminal(ses.status) && !ses.exposed
  }

  /** The session a process is ahead of: it has bytes in the object that the row does not count. */
  function AheadOf(q: Proc): Option<nat> {
    match q
    case Appending(req, _, _, _, _) => Some(req.sid)
    case Moving(d) => if d.origin.FromTus? then Some(d.origin.sid) else None
    case _ => None
  }

  /** What a finalizing tus request moves: all it accepted, or a hollow object if it sent nothing. */
  ghost predicate TusFits(ses: Session, content: Bytes, sent: nat, o: Bytes) {
    o == content || (sent == 0 && Hollow(ses, o))
  }

  ghost predicate TempOk(s: State, sid: nat)
    requires sid < |s.sessions|
  {
    var ses := s.sessions[sid];
    Tracked(ses) && SessionTemp(sid) in s.disk.names
    && (forall i :: 0 <= i < |s.procs| ==> AheadOf(s.procs[i]) != Some(sid))
    ==> Fits(ses, s.disk.Peek(SessionTemp(sid)))
  }

  /** The tracked session a process has an object of at a final key. */
  ghost function DisplacedSid(s: State, q: Proc): Option<nat> {
    if Displaced(q).None? then None
    else
      var sid := OriginSid(Displaced(q).value.origin);
      if sid.Some? && sid.value < |s.sessions| && Tracked(s.sessions[sid.value]) then sid else None
  }

  ghost function DisplacedObject(s: State, q: Proc): Bytes {
    if Displaced(q).None? then [] else s.disk.Peek(Final(Displaced(q).value.serial))
  }

  ghost predicate DisplacedOk(s: State, q: Proc) {
    var sid := DisplacedSid(s, q);
    sid.Some? ==>
      var ses := s.sessions[sid.value];
      var d := Displaced(q).value;
      if d.origin.FromTus?
      then TusFits(ses, d.content, d.origin.sent, DisplacedObject(s, q))
           && ses.accepted <= d.content && |d.content| == |ses.accepted| + d.origin.sent
      else Fits(ses, DisplacedObject(s, q))
  }

  /** A process that is ahead has the session's only full object, under the temporary key if that key
      is still there. */
  ghost predicate AheadOk(s: State, q: Proc) {
    match q
    case Appending(req, row, inode, _, _) =>
      var k := SessionTemp(req.sid);
      Tracked(row) && k in s.disk.names && s.disk.names[k] != inode
      ==> Hollow(row, s.disk.Peek(k)) && (row.total.Some? ==> row.total == Some(row.uploaded))
    case Moving(d) =>
      d.origin.FromTus? && d.origin.sid < |s.sessions| && Tracked(s.sessions[d.origin.sid])
      && SessionTemp(d.origin.sid) in s.disk.names
      ==> TusFits(s.sessions[d.origin.sid], d.content, d.origin.sent, s.disk.Peek(SessionTemp(d.origin.sid)))
    case _ => true
  }

  // Of all the objects in play for one session, at most one is not empty.

  ghost predicate PairOk(s: State, q: Proc, r: Proc) {
    DisplacedSid(s, q).Some? && DisplacedSid(s, q) == DisplacedSid(s, r)
    ==> DisplacedObject(s, q) == [] || DisplacedObject(s, r) == []
  }

  ghost predicate SoloOk(s: State, q: Proc) {
    DisplacedSid(s, q).Some?
    ==> DisplacedObject(s, q) == [] || s.disk.Peek(SessionTemp(DisplacedSid(s, q).value)) == []
  }

  ghost predicate LeadOk(s: State, q: Proc, r: Proc) {
    AheadOf(q).Some? && AheadOf(q) == DisplacedSid(s, r)
    ==> Hollow(s.sessions[AheadOf(q).value], DisplacedObject(s, r))
  }

  /** What the object of a live file holds, against the content its client had accepted. */
  ghost predicate StoredOk(s: State, f: nat)
    requires f < |s.files|
  {
    var row := s.files[f];
    var o := s.disk.Peek(Final(row.serial));
    row.state.Live? ==>
      match row.origin
      case FromPart => o == row.content
      case FromTus(sid, sent) =>
        sid < |s.sessions| && (!s.sessions[sid].exposed ==> TusFits(s.sessions[sid], row.content, sent, o))
      case FromChunks(sid) =>
        && sid < |s.sessions|
        && var ses := s.sessions[sid];
           !ses.exposed ==> Hollow(ses, o) || (row.content <= o && (!ses.aborted ==> o == row.content))
  }

  ghost predicate Contents(s: State) {
    && (forall sid :: 0 <= sid < |s.sessions| ==> TempOk(s, sid))
    && (forall i :: 0 <= i < |s.procs| ==> DisplacedOk(s, s.procs[i]))
    && (forall i :: 0 <= i < |s.procs| ==> AheadOk(s, s.procs[i]))
    && (forall i :: 0 <= i < |s.procs| ==> SoloOk(s, s.procs[i]))
    && (forall i, j :: 0 <= i < j < |s.procs| ==> PairOk(s, s.procs[i], s.procs[j]))
    && (forall i, j :: 0 <= i < |s.procs| && 0 <= j < |s.procs| ==> LeadOk(s, s.procs[i], s.procs[j]))
    && (forall f :: 0 <= f < |s.files| ==> StoredOk(s, f))
  }

  // ---- the ledger --------------------------------------------------------------------------------

  ghost predicate Ledger(s: State) {
    forall u :: 0 <= u < |s.users| ==> s.users[u].used == ChargedSum(s.files, u)
  }

  ghost predicate Inv(s: State) {
    Structure(s) && Contents(s) && Ledger(s)
  }
}
