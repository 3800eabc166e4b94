/** Reachable states that show why the statements about contents carry the conditions they carry. */
module UploadWitnesses {
  import opened Types
  import opened Disk
  import opened UploadModel
  import opened UploadRuns
  import opened UploadFrames
  import opened UploadAborts

  /** A run from one state to the other. */
  ghost predicate Leads(g: State, s: State) {
    exists es :: IsRun(g, es, s)
  }

  lemma LeadStep(g: State, s: State, e: Event)
    requires Leads(g, s) && Enabled(s, e)
    ensures Leads(g, Step(s, e))
  {
    var es :| IsRun(g, es, s);
    RunSnoc(g, es, s, e);
  }

  lemma Start(g: State)
    ensures Leads(g, g)
  {
    assert IsRun(g, [], g);
  }

  lemma Arrives(g: State, s: State, q: Proc) returns (t: State)
    requires Leads(g, s) && CanArrive(s, q)
    ensures Leads(g, t) && t == s.(procs := s.procs + [q])
  {
    LeadStep(g, s, Arrive(q));
    t := Step(s, Arrive(q));
  }

  lemma Locks(g: State, s: State, p: nat) returns (t: State)
    requires Leads(g, s) && CanLock(s, p)
    ensures Leads(g, t) && t == DoLock(s, p)
  {
    LeadStep(g, s, Lock(p));
    t := Step(s, Lock(p));
  }

  lemma Opens(g: State, s: State, p: nat) returns (t: State)
    requires Leads(g, s) && CanOpen(s, p)
    ensures Leads(g, t) && t == DoOpen(s, p)
  {
    LeadStep(g, s, OpenTemp(p));
    t := Step(s, OpenTemp(p));
  }

  lemma Writes(g: State, s: State, p: nat, n: nat) returns (t: State)
    requires Leads(g, s) && CanWrite(s, p, n)
    ensures Leads(g, t) && t == DoWrite(s, p, n)
  {
    LeadStep(g, s, WriteSome(p, n));
    t := Step(s, WriteSome(p, n));
  }

  lemma Finishes(g: State, s: State, p: nat) returns (t: State)
    requires Leads(g, s) && CanFinish(s, p)
    ensures Leads(g, t) && t == DoFinish(s, p)
  {
    LeadStep(g, s, Finish(p));
    t := Step(s, Finish(p));
  }

  lemma Moves(g: State, s: State, p: nat) returns (t: State)
    requires Leads(g, s) && CanMove(s, p)
    ensures Leads(g, t) && t == DoMove(s, p)
  {
    LeadStep(g, s, Move(p));
    t := Step(s, Move(p));
  }

  lemma Charges(g: State, s: State, p: nat) returns (t: State)
    requires Leads(g, s) && CanCharge(s, p)
    ensures Leads(g, t) && t == DoCharge(s, p)
  {
    LeadStep(g, s, ChargeUser(p));
    t := Step(s, ChargeUser(p));
  }

  lemma Commits(g: State, s: State, p: nat) returns (t: State)
    requires Leads(g, s) && CanCommit(s, p)
    ensures Leads(g, t) && t == DoCommit(s, p)
  {
    LeadStep(g, s, CommitFile(p));
    t := Step(s, CommitFile(p));
  }

  lemma StatementFails(g: State, s: State, p: nat) returns (t: State)
    requires Leads(g, s) && CanFailStatement(s, p)
    ensures Leads(g, t) && t == DoFailStatement(s, p)
  {
    LeadStep(g, s, FailStatement(p));
    t := Step(s, FailStatement(p));
  }

  lemma MovesBack(g: State, s: State, p: nat) returns (t: State)
    requires Leads(g, s) && CanMoveBack(s, p)
    ensures Leads(g, t) && t == DoMoveBack(s, p)
  {
    LeadStep(g, s, MoveBack(p));
    t := Step(s, MoveBack(p));
  }

  lemma Ends(g: State, s: State, p: nat) returns (t: State)
    requires Leads(g, s) && p < |s.procs|
    ensures Leads(g, t) && t == Abandon(s, p, 0)
  {
    LeadStep(g, s, End(p));
    t := Step(s, End(p));
  }

  lemma RowFails(g: State, s: State, p: nat) returns (t: State)
    requires Leads(g, s) && CanRetireRowFails(s, p)
    ensures Leads(g, t) && t == DoRetireRowFails(s, p)
  {
    LeadStep(g, s, RetireRowFails(p));
    t := Step(s, RetireRowFails(p));
  }

  lemma ObjectGoes(g: State, s: State, p: nat) returns (t: State)
    requires Leads(g, s) && CanRetireObject(s, p)
    ensures Leads(g, t) && t == DoRetireObject(s, p)
  {
    LeadStep(g, s, RetireObject(p));
    t := Step(s, RetireObject(p));
  }

  /** Writing all that is left in one piece. */
  lemma WritesAll(g: State, s: State, p: nat) returns (t: State)
    requires Leads(g, s) && p < |s.procs| && s.procs[p].Appending? && s.procs[p].rest != []
    requires s.procs[p].sent == [] && s.procs[p].inode < |s.disk.inodes|
    ensures Leads(g, t)
    ensures var Appending(req, row, i, _, rest) := s.procs[p];
            t == With(s.(disk := s.disk.(inodes := s.disk.inodes[i := s.disk.inodes[i] + rest])), p, Appending(req, row, i, rest, []))
  {
    var rest := s.procs[p].rest;
    assert rest[..|rest|] == rest && rest[|rest|..] == [] && [] + rest == rest;
    t := Writes(g, s, p, |rest|);
  }

  const Request7: Request := Chunk(0, 0, None, None, [7])
  const Nothing: Request := Chunk(0, 0, None, None, [])

  function Fresh(total: Option<nat>): Session {
    Session(0, total, 0, Initialized, None, [], false, false, false)
  }

  const OneByte: Session := Session(0, Some(1), 1, Uploading, None, [7], false, false, false)

  function Row(ses: Session, files: seq<FileRow>, used: int, disk: Disk, minted: nat, procs: seq<Proc>): State {
    State([User(None, used)], [ses], files, disk, minted, procs)
  }

  lemma SessionOpened(total: Option<nat>) returns (s: State)
    requires total.Some? ==> total.value > 0
    ensures Leads(Initial, s) && s == Row(Fresh(total), [], 0, Disk(map[], []), 0, [])
  {
    Start(Initial);
    LeadStep(Initial, Initial, Event.AddUser(None));
    var a := Step(Initial, Event.AddUser(None));
    LeadStep(Initial, a, Event.Init(0, total));
    s := Step(a, Event.Init(0, total));
  }

  /** The first chunk of a session, up to the open of its temporary object. */
  lemma FirstChunkOpened(total: Option<nat>, req: Request) returns (s: State)
    requires total.Some? ==> total.value > 0
    requires req.Chunk? && req.user == 0 && req.sid == 0 && req.offset.None? && req.cap.None?
    ensures Leads(Initial, s)
    ensures s == Row(Fresh(total), [], 0, Disk(map[SessionTemp(0) := 0], [[]]), 0, [Appending(req, Fresh(total), 0, [], req.body)])
  {
    var a := SessionOpened(total);
    var b := Arrives(Initial, a, AppendWaiting(req));
    var c := Locks(Initial, b, 0);
    assert c.procs == [AppendLocked(req, Fresh(total), req.body)];
    s := Opens(Initial, c, 0);
  }

  /** A session of declared length 1 receives its byte. */
  lemma ByteUploaded() returns (s: State)
    ensures Leads(Initial, s)
    ensures s == Row(OneByte, [], 0, Disk(map[SessionTemp(0) := 0], [[7]]), 0, [Ended(200)])
  {
    var unwritten := Fresh(Some(1));
    var d := FirstChunkOpened(Some(1), Request7);
    var e := WritesAll(Initial, d, 0);
    assert d.disk.inodes[0] + [7] == [7];
    assert e == Row(unwritten, [], 0, Disk(map[SessionTemp(0) := 0], [[7]]), 0, [Appending(Request7, unwritten, 0, [7], [])]);
    assert unwritten.accepted + [7] == [7];
    s := Finishes(Initial, e, 0);
  }

  /** uploadComplete is cut short between its Move and its COMMIT: the object stays at a final key. */
  lemma CompletionCrashed() returns (s: State)
    ensures Leads(Initial, s)
    ensures s == Row(OneByte, [], 0, Disk(map[Final(0) := 0], [[7]]), 1, [Ended(200), Ended(0)])
  {
    var a := ByteUploaded();
    var b := Arrives(Initial, a, CompleteWaiting(0, 0));
    var c := Locks(Initial, b, 1);
    assert c.procs == [Ended(200), Moving(Draft(0, 0, 1, FromChunks(0), [7]))];
    var d := Moves(Initial, c, 1);
    assert d == Row(OneByte, [], 0, Disk(map[Final(0) := 0], [[7]]), 1,
                    [Ended(200), Moved(Draft(0, 0, 1, FromChunks(0), [7]))]);
    s := Ends(Initial, d, 1);
  }

  /** The next chunk request is refused for its offset, but its open has created an empty object. */
  lemma ObjectRecreated() returns (s: State)
    ensures Leads(Initial, s)
    ensures s == Row(OneByte.(recreated := true), [], 0,
                     Disk(map[Final(0) := 0, SessionTemp(0) := 1], [[7], []]), 1,
                     [Ended(200), Ended(0), Ended(409)])
  {
    var a := CompletionCrashed();
    var b := Arrives(Initial, a, AppendWaiting(Nothing));
    var c := Locks(Initial, b, 2);
    assert c.procs == [Ended(200), Ended(0), AppendLocked(Nothing, OneByte, [])];
    s := Opens(Initial, c, 2);
  }

  /** Completing again then commits a live file of size 1 whose object is empty. */
  lemma HollowFileReachable() returns (s: State)
    ensures Reachable(s) && |s.files| == 1 && s.files[0].state.Live? && s.files[0].size == 1
    ensures s.disk.Peek(Final(s.files[0].serial)) == []
    ensures |s.sessions| == 1 && s.sessions[0].total == Some(1) && !s.sessions[0].aborted && !s.sessions[0].exposed
  {
    var a := ObjectRecreated();
    var row := OneByte.(recreated := true);
    var ended := [Ended(200), Ended(0), Ended(409)];
    var draft := Draft(0, 1, 1, FromChunks(0), [7]);
    var b := Arrives(Initial, a, CompleteWaiting(0, 0));
    var c := Locks(Initial, b, 3);
    assert c.procs == ended + [Moving(draft)];
    var d := Moves(Initial, c, 3);
    assert d == Row(row, [], 0, Disk(map[Final(0) := 0, Final(1) := 1], [[7], []]), 2, ended + [Moved(draft)]);
    var e := Charges(Initial, d, 3);
    assert e == d.(procs := ended + [Charged(draft)]);
    s := Commits(Initial, e, 3);
  }

  // ---- the failed commit of an empty completion ----------------------------------------------------

  const Request77: Request := Chunk(0, 0, None, None, [7, 7])
  const Request89: Request := Chunk(0, 0, None, None, [8, 9])
  const Junk: Session := Session(0, None, 0, Initialized, None, [], true, false, false)

  /** A chunk of a session of undeclared length is cut short after both its bytes are written. */
  lemma JunkWritten() returns (s: State)
    ensures Leads(Initial, s)
    ensures s == Row(Junk, [], 0, Disk(map[SessionTemp(0) := 0], [[7, 7]]), 0, [Ended(0)])
  {
    var unwritten := Fresh(None);
    var d := FirstChunkOpened(None, Request77);
    var e := WritesAll(Initial, d, 0);
    assert d.disk.inodes[0] + [7, 7] == [7, 7];
    assert e == Row(unwritten, [], 0, Disk(map[SessionTemp(0) := 0], [[7, 7]]), 0, [Appending(Request77, unwritten, 0, [7, 7], [])]);
    s := Ends(Initial, e, 0);
  }

  /** Completing the empty session moves the junk away; its COMMIT fails and releases the row. */
  lemma EmptyCommitFailed() returns (s: State)
    ensures Leads(Initial, s)
    ensures s == Row(Junk.(exposed := true), [], 0, Disk(map[Final(0) := 0], [[7, 7]]), 1,
                     [Ended(0), Undoing(Draft(0, 0, 0, FromChunks(0), []), false)])
  {
    var a := JunkWritten();
    var draft := Draft(0, 0, 0, FromChunks(0), []);
    var b := Arrives(Initial, a, CompleteWaiting(0, 0));
    var c := Locks(Initial, b, 1);
    assert c.procs == [Ended(0), Moving(draft)];
    var d := Moves(Initial, c, 1);
    assert d == Row(Junk, [], 0, Disk(map[Final(0) := 0], [[7, 7]]), 1, [Ended(0), Moved(draft)]);
    var e := Charges(Initial, d, 1);
    assert e == d.(procs := [Ended(0), Charged(draft)]);
    s := StatementFails(Initial, e, 1);
  }

  /** With nothing committed before, an aborted write is not the end: this session takes a byte again. */
  lemma ZeroWitness() returns (s: State)
    ensures Reachable(s) && |s.sessions| == 1 && s.sessions[0].aborted && s.sessions[0].uploaded == 0
    ensures SessionTemp(0) in s.disk.names && |s.disk.Peek(SessionTemp(0))| > 0 && !NeverGrows(s, 0)
  {
    s := JunkWritten();
    InvReachable(s);
    var es, t := ZeroRecovers(s, 0);
  }

  const TwoBytes: Session := Session(0, None, 2, Uploading, None, [8, 9], true, false, true)

  /** Before the compensation runs another chunk commits two bytes. */
  lemma BytesWritten() returns (s: State)
    ensures Leads(Initial, s)
    ensures s == Row(Junk.(exposed := true), [], 0, Disk(map[Final(0) := 0, SessionTemp(0) := 1], [[7, 7], [8, 9]]), 1,
                     [Ended(0), Undoing(Draft(0, 0, 0, FromChunks(0), []), false),
                      Appending(Request89, Junk.(exposed := true), 1, [8, 9], [])])
  {
    var a := EmptyCommitFailed();
    var row := Junk.(exposed := true);
    var undo := Undoing(Draft(0, 0, 0, FromChunks(0), []), false);
    var b := Arrives(Initial, a, AppendWaiting(Request89));
    var c := Locks(Initial, b, 2);
    assert c.procs == [Ended(0), undo, AppendLocked(Request89, row, [8, 9])];
    var d := Opens(Initial, c, 2);
    assert d == Row(row, [], 0, Disk(map[Final(0) := 0, SessionTemp(0) := 1], [[7, 7], []]), 1,
                    [Ended(0), undo, Appending(Request89, row, 1, [], [8, 9])]);
    s := WritesAll(Initial, d, 2);
    assert d.disk.inodes[1] + [8, 9] == [8, 9];
  }

  lemma BytesCommitted() returns (s: State)
    ensures Leads(Initial, s)
    ensures s == Row(TwoBytes, [], 0, Disk(map[Final(0) := 0, SessionTemp(0) := 1], [[7, 7], [8, 9]]), 1,
                     [Ended(0), Undoing(Draft(0, 0, 0, FromChunks(0), []), false), Ended(200)])
  {
    var e := BytesWritten();
    assert Junk.accepted + [8, 9] == [8, 9];
    s := Finishes(Initial, e, 2);
  }

  /** Then the junk replaces them. */
  lemma JunkRestored() returns (s: State)
    ensures Leads(Initial, s)
    ensures s == Row(TwoBytes, [], 0, Disk(map[SessionTemp(0) := 0], [[7, 7], [8, 9]]), 1,
                     [Ended(0), Ended(500), Ended(200)])
  {
    var f := BytesCommitted();
    s := MovesBack(Initial, f, 1);
    assert s.disk.names == map[SessionTemp(0) := 0];
  }

  /** Completing commits a live file of the right length and the wrong bytes. */
  lemma WrongFileReachable() returns (s: State)
    ensures Reachable(s) && |s.files| == 1 && s.files[0].state.Live?
    ensures s.files[0].content == [8, 9] && s.files[0].size == 2
    ensures s.disk.Peek(Final(s.files[0].serial)) == [7, 7]
  {
    var a := JunkRestored();
    var ended := [Ended(0), Ended(500), Ended(200)];
    var draft := Draft(0, 1, 2, FromChunks(0), [8, 9]);
    var b := Arrives(Initial, a, CompleteWaiting(0, 0));
    var c := Locks(Initial, b, 3);
    assert c.procs == ended + [Moving(draft)];
    var d := Moves(Initial, c, 3);
    assert d == Row(TwoBytes, [], 0, Disk(map[Final(1) := 0], [[7, 7], [8, 9]]), 2, ended + [Moved(draft)]);
    var e := Charges(Initial, d, 3);
    assert e == d.(procs := ended + [Charged(draft)]);
    s := Commits(Initial, e, 3);
  }

  const Request5: Request := Chunk(0, 0, None, None, [5])
  const Request6: Request := Chunk(0, 0, None, None, [6])

  /** A third chunk is written at two committed bytes. */
  lemma ThirdChunkWritten() returns (s: State)
    ensures Leads(Initial, s)
    ensures s == Row(TwoBytes, [], 0, Disk(map[Final(0) := 0, SessionTemp(0) := 1], [[7, 7], [8, 9] + [5]]), 1,
                     [Ended(0), Undoing(Draft(0, 0, 0, FromChunks(0), []), false), Ended(200),
                      Appending(Request5, TwoBytes, 1, [5], [])])
  {
    var a := BytesCommitted();
    var old3 := [Ended(0), Undoing(Draft(0, 0, 0, FromChunks(0), []), false), Ended(200)];
    var b := Arrives(Initial, a, AppendWaiting(Request5));
    var c := Locks(Initial, b, 3);
    assert c.procs == old3 + [AppendLocked(Request5, TwoBytes, [5])];
    var d := Opens(Initial, c, 3);
    assert d.procs == old3 + [Appending(Request5, TwoBytes, 1, [], [5])] && d.sessions == [TwoBytes];
    s := WritesAll(Initial, d, 3);
  }

  /** In such a session an aborted write need not be the end, although bytes were committed before: the chunk
      is cut short, the compensation puts the two bytes of junk back, and their length lets the next chunk
      in. */
  lemma UndoneUnsticks() returns (s: State, e: Event)
    ensures Reachable(s) && GivesUp(s, e, 0) && s.sessions[0].uploaded == 2 && s.sessions[0].exposed
    ensures !NeverGrows(Step(s, e), 0)
  {
    s := ThirdChunkWritten();
    e := End(3);
    var g := Step(s, e);
    assert g.procs == [Ended(0), Undoing(Draft(0, 0, 0, FromChunks(0), []), false), Ended(200), Ended(0)];
    assert g.sessions == [TwoBytes];
    var u := JunkTakesMore(g);
    var es :| IsRun(g, es, u);
  }

  lemma JunkTakesMore(g: State) returns (u: State)
    requires g == Row(TwoBytes, [], 0, Disk(map[Final(0) := 0, SessionTemp(0) := 1], [[7, 7], [8, 9] + [5]]), 1,
                      [Ended(0), Undoing(Draft(0, 0, 0, FromChunks(0), []), false), Ended(200), Ended(0)])
    ensures Leads(g, u) && |u.sessions| == 1 && u.sessions[0].accepted == [8, 9] + [6]
  {
    Start(g);
    var h := MovesBack(g, g, 1);
    assert h.disk.names == map[SessionTemp(0) := 0];
    var old4 := [Ended(0), Ended(500), Ended(200), Ended(0)];
    assert h.procs == old4;
    var b := Arrives(g, h, AppendWaiting(Request6));
    var c := Locks(g, b, 4);
    assert c.procs == old4 + [AppendLocked(Request6, TwoBytes, [6])];
    var d := Opens(g, c, 4);
    assert d.procs == old4 + [Appending(Request6, TwoBytes, 0, [], [6])] && d.sessions == [TwoBytes];
    var f := WritesAll(g, d, 4);
    assert f.procs == old4 + [Appending(Request6, TwoBytes, 0, [6], [])] && f.sessions == [TwoBytes];
    u := Finishes(g, f, 4);
  }

  // ---- a name clash at the end of a PATCH --------------------------------------------------------------

  const Patch7: Request := Patch(0, 0, 0, [7])
  const Patch9: Request := Patch(0, 0, 0, [9])
  const Draft7: Draft := Draft(0, 0, 1, FromTus(0, 1), [7])
  const Draft9: Draft := Draft(0, 1, 1, FromTus(0, 1), [9])
  const Clashed: Session := Session(0, Some(1), 0, Initialized, None, [], true, false, true)

  /** A PATCH carries all of a declared byte. */
  lemma FirstPatchWritten() returns (s: State)
    ensures Leads(Initial, s)
    ensures s == Row(Fresh(Some(1)), [], 0, Disk(map[SessionTemp(0) := 0], [[7]]), 0, [Appending(Patch7, Fresh(Some(1)), 0, [7], [])])
  {
    var row := Fresh(Some(1));
    var a := SessionOpened(Some(1));
    var b := Arrives(Initial, a, AppendWaiting(Patch7));
    assert [7][..1] == [7];
    var c := Locks(Initial, b, 0);
    assert c.procs == [AppendLocked(Patch7, row, [7])];
    var d := Opens(Initial, c, 0);
    assert d == Row(row, [], 0, Disk(map[SessionTemp(0) := 0], [[]]), 0, [Appending(Patch7, row, 0, [], [7])]);
    s := WritesAll(Initial, d, 0);
    assert d.disk.inodes[0] + [7] == [7];
  }

  /** Its INSERT fails and releases the row. */
  lemma InsertFailed() returns (s: State)
    ensures Leads(Initial, s)
    ensures s == Row(Clashed, [], 0, Disk(map[Final(0) := 0], [[7]]), 1, [Undoing(Draft7, false)])
  {
    var row := Fresh(Some(1));
    var e := FirstPatchWritten();
    assert row.accepted + [7] == [7];
    var f := Finishes(Initial, e, 0);
    assert f.procs == [Moving(Draft7)];
    var g := Moves(Initial, f, 0);
    assert g == Row(row, [], 0, Disk(map[Final(0) := 0], [[7]]), 1, [Moved(Draft7)]);
    s := StatementFails(Initial, g, 0);
  }

  /** Another PATCH locks the row and writes its own byte to a new object. */
  lemma SecondPatchWritten() returns (s: State)
    ensures Leads(Initial, s)
    ensures s == Row(Clashed, [], 0, Disk(map[Final(0) := 0, SessionTemp(0) := 1], [[7], [9]]), 1,
                     [Undoing(Draft7, false), Appending(Patch9, Clashed, 1, [9], [])])
  {
    var a := InsertFailed();
    var b := Arrives(Initial, a, AppendWaiting(Patch9));
    assert [9][..1] == [9];
    var c := Locks(Initial, b, 1);
    assert c.procs == [Undoing(Draft7, false), AppendLocked(Patch9, Clashed, [9])];
    var d := Opens(Initial, c, 1);
    assert d == Row(Clashed, [], 0, Disk(map[Final(0) := 0, SessionTemp(0) := 1], [[7], []]), 1,
                    [Undoing(Draft7, false), Appending(Patch9, Clashed, 1, [], [9])]);
    s := WritesAll(Initial, d, 1);
    assert d.disk.inodes[1] + [9] == [9];
  }

  /** The compensation puts the first byte in its place, and the second PATCH finalizes: a live file that a PATCH
      with bytes made, of declared length, and with other bytes than it carried. */
  lemma WrongPatchReachable() returns (s: State)
    ensures Reachable(s) && |s.files| == 1 && s.files[0].state.Live? && s.files[0].origin == FromTus(0, 1)
    ensures s.files[0].size == 1 && s.files[0].content == [9] && s.disk.Peek(Final(s.files[0].serial)) == [7]
  {
    var a := SecondPatchWritten();
    var b := MovesBack(Initial, a, 0);
    assert b == Row(Clashed, [], 0, Disk(map[SessionTemp(0) := 0], [[7], [9]]), 1,
                    [Ended(500), Appending(Patch9, Clashed, 1, [9], [])]);
    var c := Finishes(Initial, b, 1);
    assert Clashed.accepted + [9] == [9];
    assert c == b.(minted := 2, procs := [Ended(500), Moving(Draft9)]);
    var d := Moves(Initial, c, 1);
    assert d == Row(Clashed, [], 0, Disk(map[Final(1) := 0], [[7], [9]]), 2, [Ended(500), Moved(Draft9)]);
    var e := Charges(Initial, d, 1);
    assert e == d.(procs := [Ended(500), Charged(Draft9)]);
    s := Commits(Initial, e, 1);
  }

  // ---- an acknowledged chunk without its object ------------------------------------------------------

  /** tusDelete does not look whether its UPDATE succeeded: the object goes while a chunk is being written,
      the chunk is acknowledged all the same, and the session stays writable. */
  lemma LostChunkReachable() returns (s: State)
    ensures Reachable(s) && |s.sessions| == 1 && s.sessions[0].accepted == [7] && !Terminal(s.sessions[0].status)
    ensures SessionTemp(0) !in s.disk.names && s.procs == [Ended(200), Ended(200)]
  {
    var row := Fresh(None);
    var a := FirstChunkOpened(None, Request7);
    var b := Arrives(Initial, a, Retiring(0, Canceled, false));
    var c := RowFails(Initial, b, 1);
    var d := ObjectGoes(Initial, c, 1);
    assert d == Row(row, [], 0, Disk(map[], [[]]), 0, [Appending(Request7, row, 0, [], [7]), Ended(200)]);
    var e := WritesAll(Initial, d, 0);
    assert e.procs == [Appending(Request7, row, 0, [7], []), Ended(200)] && e.sessions == [row];
    assert row.accepted + [7] == [7];
    s := Finishes(Initial, e, 0);
  }

  // ---- a finalizing PATCH without bytes ----------------------------------------------------------------

  const First: Draft := Draft(0, 0, 1, FromChunks(0), [7])
  const Second: Draft := Draft(0, 1, 1, FromChunks(0), [7])
  const EmptyPatch: Request := Patch(0, 0, 1, [])
  const Restored: Session := Session(0, Some(1), 1, Uploading, None, [7], false, true, false)

  /** A completion moves the object and fails to commit. */
  lemma FirstCharged() returns (s: State)
    ensures Leads(Initial, s)
    ensures s == Row(OneByte, [], 0, Disk(map[Final(0) := 0], [[7]]), 1, [Ended(200), Charged(First)])
  {
    var a := ByteUploaded();
    var b := Arrives(Initial, a, CompleteWaiting(0, 0));
    var c := Locks(Initial, b, 1);
    assert c.procs == [Ended(200), Moving(First)];
    var d := Moves(Initial, c, 1);
    assert d == Row(OneByte, [], 0, Disk(map[Final(0) := 0], [[7]]), 1, [Ended(200), Moved(First)]);
    s := Charges(Initial, d, 1);
  }

  lemma FirstCommitFailed() returns (s: State)
    ensures Leads(Initial, s)
    ensures s == Row(OneByte, [], 0, Disk(map[Final(0) := 0], [[7]]), 1, [Ended(200), Undoing(First, false)])
  {
    var e := FirstCharged();
    s := StatementFails(Initial, e, 1);
  }

  /** A chunk that is refused for the length makes an empty object. */
  lemma EmptyObjectMade() returns (s: State)
    ensures Leads(Initial, s)
    ensures s == Row(Restored, [], 0, Disk(map[Final(0) := 0, SessionTemp(0) := 1], [[7], []]), 1,
                     [Ended(200), Undoing(First, false), Ended(409)])
  {
    var a := FirstCommitFailed();
    var b := Arrives(Initial, a, AppendWaiting(Nothing));
    var c := Locks(Initial, b, 2);
    assert c.procs == [Ended(200), Undoing(First, false), AppendLocked(Nothing, OneByte, [])];
    s := Opens(Initial, c, 2);
  }

  /** A second completion moves that one and fails to commit too. */
  lemma SecondMoving() returns (s: State)
    ensures Leads(Initial, s)
    ensures s == Row(Restored, [], 0, Disk(map[Final(0) := 0, SessionTemp(0) := 1], [[7], []]), 2,
                     [Ended(200), Undoing(First, false), Ended(409), Moving(Second)])
  {
    var d := EmptyObjectMade();
    var e := Arrives(Initial, d, CompleteWaiting(0, 0));
    s := Locks(Initial, e, 3);
    assert s.procs == [Ended(200), Undoing(First, false), Ended(409), Moving(Second)];
  }

  lemma SecondMoved() returns (s: State)
    ensures Leads(Initial, s)
    ensures s == Row(Restored, [], 0, Disk(map[Final(0) := 0, Final(1) := 1], [[7], []]), 2,
                     [Ended(200), Undoing(First, false), Ended(409), Moved(Second)])
  {
    var f := SecondMoving();
    s := Moves(Initial, f, 3);
    assert s.disk.names == map[Final(0) := 0, Final(1) := 1];
  }

  lemma SecondCommitFailed() returns (s: State)
    ensures Leads(Initial, s)
    ensures s == Row(Restored, [], 0, Disk(map[Final(0) := 0, Final(1) := 1], [[7], []]), 2,
                     [Ended(200), Undoing(First, false), Ended(409), Undoing(Second, false)])
  {
    var g := SecondMoved();
    var h := Charges(Initial, g, 3);
    assert h.procs == [Ended(200), Undoing(First, false), Ended(409), Charged(Second)];
    s := StatementFails(Initial, h, 3);
  }

  /** The first compensation brings the full object back, a PATCH without bytes opens it, and the second one
      puts the empty object in its place. */
  lemma PatchOpened() returns (s: State)
    ensures Leads(Initial, s)
    ensures s == Row(Restored, [], 0, Disk(map[SessionTemp(0) := 0, Final(1) := 1], [[7], []]), 2,
                     [Ended(200), Ended(500), Ended(409), Undoing(Second, false), Appending(EmptyPatch, Restored, 0, [], [])])
  {
    var a := SecondCommitFailed();
    var b := MovesBack(Initial, a, 1);
    var undoing := [Ended(200), Ended(500), Ended(409), Undoing(Second, false)];
    assert b == Row(Restored, [], 0, Disk(map[SessionTemp(0) := 0, Final(1) := 1], [[7], []]), 2, undoing);
    var c := Arrives(Initial, b, AppendWaiting(EmptyPatch));
    var d := Locks(Initial, c, 4);
    assert d.procs == undoing + [AppendLocked(EmptyPatch, Restored, [])];
    s := Opens(Initial, d, 4);
  }

  lemma ObjectSwapped() returns (s: State)
    ensures Leads(Initial, s)
    ensures s == Row(Restored, [], 0, Disk(map[SessionTemp(0) := 1], [[7], []]), 2,
                     [Ended(200), Ended(500), Ended(409), Ended(500), Appending(EmptyPatch, Restored, 0, [], [])])
  {
    var e := PatchOpened();
    s := MovesBack(Initial, e, 3);
    assert s.disk.names == map[SessionTemp(0) := 1];
  }

  /** The PATCH finalizes: a live tus file of size 1 with an empty object. */
  lemma EmptyPatchReachable() returns (s: State)
    ensures Reachable(s) && |s.files| == 1 && s.files[0].state.Live? && s.files[0].origin.FromTus?
    ensures s.files[0].size == 1 && s.disk.Peek(Final(s.files[0].serial)) == []
  {
    var a := ObjectSwapped();
    var ended := [Ended(200), Ended(500), Ended(409), Ended(500)];
    var draft := Draft(0, 2, 1, FromTus(0, 0), [7]);
    var b := Finishes(Initial, a, 4);
    assert Restored.accepted + [] == [7];
    assert b == Row(Restored, [], 0, Disk(map[SessionTemp(0) := 1], [[7], []]), 3, ended + [Moving(draft)]);
    var c := Moves(Initial, b, 4);
    assert c == Row(Restored, [], 0, Disk(map[Final(2) := 1], [[7], []]), 3, ended + [Moved(draft)]);
    var d := Charges(Initial, c, 4);
    assert d == c.(procs := ended + [Charged(draft)]);
    s := Commits(Initial, d, 4);
  }
}
