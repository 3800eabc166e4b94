/** When the bytes of a session can be trusted: from the first committed one on. */
module UploadTrust {
  import opened Types
  import opened Disk
  import opened UploadModel
  import opened UploadInvariant
  import opened UploadStructure
  import opened UploadRuns
  import opened UploadTheorems
  import opened UploadAborts
  import opened UploadWitnesses

  /** The object and the file of a session hold what it has accepted, whatever may follow, or are empty. */
  ghost predicate Trusted(s: State, sid: nat) {
    && sid < |s.sessions|
    && (!Terminal(s.sessions[sid].status) ==> StartsOrEmpty(s.disk.Peek(SessionTemp(sid)), s.sessions[sid].accepted))
    && forall f :: 0 <= f < |s.files| && s.files[f].state.Live? && OriginSid(s.files[f].origin) == Some(sid) ==>
         StartsOrEmpty(s.disk.Peek(Final(s.files[f].serial)), s.sessions[sid].accepted)
  }

  predicate StartsOrEmpty(o: Bytes, accepted: Bytes) {
    accepted <= o || o == []
  }

  ghost predicate TrustedForever(s: State, sid: nat) {
    forall es, t :: IsRun(s, es, t) ==> Trusted(t, sid)
  }

  /** Exactly when a session that can still be written to is trusted for good, whatever other requests, crashes
      and failing statements follow: if and only if something is committed already. */
  lemma TrustedExactly(s: State, sid: nat)
    requires Reachable(s) && sid < |s.sessions| && !Terminal(s.sessions[sid].status) && !s.sessions[sid].exposed
    ensures TrustedForever(s, sid) <==> s.sessions[sid].uploaded > 0
  {
    InvReachable(s);
    if s.sessions[sid].uploaded > 0 {
      forall es, t | IsRun(s, es, t) ensures Trusted(t, sid) {
        StaysUnexposed(s, es, t, sid);
        ReachRun(s, es, t);
        UnexposedTrusted(t, sid);
      }
    } else {
      var t := Overwritable(s, sid);
    }
  }

  lemma ReachRun(s: State, es: seq<Event>, t: State)
    requires Reachable(s) && IsRun(s, es, t)
    ensures Reachable(t)
  {
    var before :| IsRun(Initial, before, s);
    RunAppend(Initial, before, s, es, t);
  }

  /** A session that counts bytes is never exposed any more. */
  lemma {:induction false} StaysUnexposed(s: State, es: seq<Event>, t: State, sid: nat)
    requires Inv(s) && IsRun(s, es, t) && sid < |s.sessions| && !s.sessions[sid].exposed && s.sessions[sid].uploaded > 0
    ensures sid < |t.sessions| && !t.sessions[sid].exposed
    decreases |es|
  {
    if |es| > 0 {
      ExposedExactly(s, es[0], sid);
      StepExtends(s, es[0]);
      assert RowGrows(s.sessions[sid], Step(s, es[0]).sessions[sid]);
      InvStep(s, es[0]);
      StaysUnexposed(Step(s, es[0]), es[1..], t, sid);
    }
  }

  lemma UnexposedTrusted(s: State, sid: nat)
    requires Reachable(s) && sid < |s.sessions| && !s.sessions[sid].exposed
    ensures Trusted(s, sid)
  {
    if !Terminal(s.sessions[sid].status) && SessionTemp(sid) in s.disk.names {
      TempObjectFits(s, sid);
    }
    forall f | 0 <= f < |s.files| && s.files[f].state.Live? && OriginSid(s.files[f].origin) == Some(sid)
      ensures StartsOrEmpty(s.disk.Peek(Final(s.files[f].serial)), s.sessions[sid].accepted)
    {
      FinalizedContent(s, f);
    }
  }

  // ---- and what can happen before ------------------------------------------------------------------------

  /** A state in which a compensation is to put bytes back that nobody counts. */
  ghost predicate Loaded(s: State, p: nat, sid: nat, n: nat) {
    && sid < |s.sessions| && SessionFree(s, sid) && p < |s.procs| && s.disk.Valid()
    && s.procs[p].Undoing? && OriginSid(s.procs[p].draft.origin) == Some(sid) && !s.procs[p].locked
    && s.disk.Peek(Final(s.procs[p].draft.serial)) == Same(n, 7) && Final(s.procs[p].draft.serial) in s.disk.names
    && SessionTemp(sid) !in s.disk.names
    && var row := s.sessions[sid];
       && !Terminal(row.status) && row.uploaded == 0 && row.accepted == [] && n > 0
       && (row.total.Some? ==> row.total == Some(n))
  }

  function Same(n: nat, b: byte): Bytes {
    seq(n, _ => b)
  }

  lemma StillFree(s: State, t: State, sid: nat, q: Proc)
    requires SessionFree(s, sid) && HeldSession(q) != Some(sid) && t.procs == s.procs + [q]
    ensures SessionFree(t, sid)
  {
    forall i | 0 <= i < |t.procs| ensures HeldSession(t.procs[i]) != Some(sid) {
      assert i < |s.procs| ==> t.procs[i] == s.procs[i];
    }
  }

  /** A writable session with nothing committed and without object, its row free. */
  ghost predicate Blank(s: State, sid: nat) {
    && sid < |s.sessions| && SessionFree(s, sid) && SessionTemp(sid) !in s.disk.names && s.disk.Valid()
    && var row := s.sessions[sid];
       !Terminal(row.status) && row.uploaded == 0 && row.accepted == []
       && (row.total.Some? ==> row.total.value > 0)
  }

  lemma Emptied(s: State, sid: nat) returns (t: State)
    requires Inv(s) && sid < |s.sessions| && !Terminal(s.sessions[sid].status) && s.sessions[sid].uploaded == 0
    ensures Leads(s, t) && Blank(t, sid)
  {
    assert SessionOk(s, sid);
    var a, es := Freed(s, sid);
    var more;
    t, more := Cleared(a, sid);
    RunAppend(s, es, a, more, t);
    StillFree(a, t, sid, Ended(200));
  }

  /** A request on such a session that has written its whole body. */
  lemma Written(g: State, s: State, sid: nat, req: Request) returns (t: State)
    requires Leads(g, s) && Blank(s, sid) && LetIn(req, sid, s.sessions[sid]) && req.body != []
    ensures Leads(g, t)
    ensures var i := |s.disk.inodes|;
            t == s.(disk := Disk(s.disk.names[SessionTemp(sid) := i], s.disk.inodes + [req.body]),
                    procs := s.procs + [Appending(req, s.sessions[sid], i, req.body, [])])
  {
    var n, i := |s.procs|, |s.disk.inodes|;
    var a, es := FreshOpened(s, sid, req);
    var before :| IsRun(g, before, s);
    RunAppend(g, before, s, es, a);
    t := WritesAll(g, a, n);
    assert a.disk.inodes[i] + req.body == req.body;
    assert t.disk.inodes == s.disk.inodes + [req.body];
    assert t.procs == s.procs + [Appending(req, s.sessions[sid], i, req.body, [])];
  }

  /** A chunk is cut short, and the session is completed without a byte. */
  lemma EmptyCompletion(g: State, s: State, sid: nat) returns (t: State)
    requires Leads(g, s) && Blank(s, sid) && s.sessions[sid].total.None?
    ensures Leads(g, t)
    ensures var i := |s.disk.inodes|;
            t == s.(minted := s.minted + 1, sessions := s.sessions[sid := s.sessions[sid].(aborted := true)],
                    disk := Disk(s.disk.names[SessionTemp(sid) := i], s.disk.inodes + [[7]]),
                    procs := s.procs + [Ended(0)] + [Moving(Draft(s.sessions[sid].owner, s.minted, 0, FromChunks(sid), []))])
  {
    var n := |s.procs|;
    var a := Written(g, s, sid, OneByteChunk(s.sessions[sid].owner, sid));
    var b := Ends(g, a, n);
    assert b.procs == s.procs + [Ended(0)] && b.disk == a.disk;
    StillFree(s, b, sid, Ended(0));
    var q := CompleteWaiting(s.sessions[sid].owner, sid);
    var c := Arrives(g, b, q);
    StillFree(b, c, sid, q);
    t := Locks(g, c, n + 1);
    assert t.procs == b.procs + [Moving(Draft(s.sessions[sid].owner, s.minted, 0, FromChunks(sid), []))];
  }

  /** Undeclared length: the statement after its Move fails. */
  lemma LoadedByCompletion(g: State, s: State, sid: nat) returns (t: State)
    requires Leads(g, s) && Blank(s, sid) && s.sessions[sid].total.None?
    ensures Leads(g, t) && Loaded(t, |s.procs| + 1, sid, 1)
  {
    var n := |s.procs|;
    var d := EmptyCompletion(g, s, sid);
    var draft := Draft(s.sessions[sid].owner, s.minted, 0, FromChunks(sid), []);
    t := MovedThenFailed(g, d, n + 1, draft, [7]);
    forall i | 0 <= i < |t.procs| ensures HeldSession(t.procs[i]) != Some(sid) {
      assert i < n ==> t.procs[i] == s.procs[i];
    }
    assert Same(1, 7) == [7];
  }

  /** The first PATCH carries all the declared bytes. */
  lemma PatchFinalizing(g: State, s: State, sid: nat, n: nat) returns (t: State)
    requires Leads(g, s) && Blank(s, sid) && s.sessions[sid].total == Some(n)
    ensures Leads(g, t)
    ensures var i := |s.disk.inodes|; var body := Same(n, 7);
            t == s.(minted := s.minted + 1,
                    disk := Disk(s.disk.names[SessionTemp(sid) := i], s.disk.inodes + [body]),
                    procs := s.procs + [Moving(Draft(s.sessions[sid].owner, s.minted, n, FromTus(sid, n), body))])
  {
    var row := s.sessions[sid];
    var body := Same(n, 7);
    var req := Patch(row.owner, sid, 0, body);
    assert body[..n] == body;
    var a := Written(g, s, sid, req);
    t := Finishes(g, a, |s.procs|);
    assert row.accepted + body == body;
    assert t.procs == s.procs + [Moving(Draft(row.owner, s.minted, n, FromTus(sid, n), body))];
  }

  /** Declared length: the statement after its Move fails. */
  lemma LoadedByPatch(g: State, s: State, sid: nat) returns (t: State)
    requires Leads(g, s) && Blank(s, sid) && s.sessions[sid].total.Some?
    ensures Leads(g, t) && Loaded(t, |s.procs|, sid, s.sessions[sid].total.value)
  {
    var n := s.sessions[sid].total.value;
    var b := PatchFinalizing(g, s, sid, n);
    var draft := Draft(s.sessions[sid].owner, s.minted, n, FromTus(sid, n), Same(n, 7));
    t := MovedThenFailed(g, b, |s.procs|, draft, Same(n, 7));
    assert t.procs == s.procs + [Undoing(draft, false)];
    StillFree(s, t, sid, Undoing(draft, false));
  }

  /** The object goes to its final key, and the statement after the Move fails. */
  lemma MovedThenFailed(g: State, s: State, p: nat, d: Draft, o: Bytes) returns (t: State)
    requires Leads(g, s) && p < |s.procs| && s.procs[p] == Moving(d) && OriginSid(d.origin).Some?
    requires var sid := OriginSid(d.origin).value; sid < |s.sessions| && s.sessions[sid].uploaded == 0
    requires s.disk.Valid() && SourceKey(d) in s.disk.names && s.disk.Peek(SourceKey(d)) == o != []
    ensures Leads(g, t)
    ensures t.procs == s.procs[p := Undoing(d, false)] && t.disk == s.disk.Rename(SourceKey(d), Final(d.serial))
    ensures t.disk.Valid() && t.disk.Peek(Final(d.serial)) == o
    ensures Final(d.serial) in t.disk.names && SourceKey(d) !in t.disk.names
    ensures |t.sessions| == |s.sessions|
    ensures var sid := OriginSid(d.origin).value;
            t.sessions[sid].(aborted := true, exposed := true) == s.sessions[sid].(aborted := true, exposed := true)
  {
    var a := Moves(g, s, p);
    assert a.procs == s.procs[p := Moved(d)];
    t := StatementFails(g, a, p);
  }

  /** Before the compensation runs a chunk of the same length commits. */
  lemma ChunkBetween(g: State, s: State, p: nat, sid: nat, n: nat) returns (t: State)
    requires Leads(g, s) && Loaded(s, p, sid, n)
    ensures Leads(g, t)
    ensures t.procs == s.procs + [Ended(200)] && sid < |t.sessions| && t.sessions[sid].accepted == Same(n, 9)
    ensures !Terminal(t.sessions[sid].status)
    ensures t.disk == Disk(s.disk.names[SessionTemp(sid) := |s.disk.inodes|], s.disk.inodes + [Same(n, 9)])
  {
    var row := s.sessions[sid];
    var req := Chunk(row.owner, sid, None, None, Same(n, 9));
    var a := Written(g, s, sid, req);
    t := Finishes(g, a, |s.procs|);
    assert row.accepted + req.body == req.body;
  }

  /** Then its object is replaced. */
  lemma Overwritten(g: State, s: State, p: nat, sid: nat, n: nat) returns (t: State)
    requires Leads(g, s) && Loaded(s, p, sid, n)
    ensures Leads(g, t) && !Trusted(t, sid)
  {
    var d := s.procs[p].draft;
    var b := ChunkBetween(g, s, p, sid, n);
    t := MovesBack(g, b, p);
    assert b.disk.Peek(Final(d.serial)) == Same(n, 7);
    assert t.disk.Peek(SessionTemp(sid)) == Same(n, 7) && t.sessions == b.sessions;
    assert Same(n, 7)[0] == 7 && Same(n, 9)[0] == 9;
  }

  /** Nothing being committed, the session can get a wrong object. */
  lemma Overwritable(s: State, sid: nat) returns (t: State)
    requires Inv(s) && sid < |s.sessions| && !Terminal(s.sessions[sid].status) && s.sessions[sid].uploaded == 0
    ensures Leads(s, t) && !Trusted(t, sid)
  {
    var b := Emptied(s, sid);
    if b.sessions[sid].total.None? {
      var c := LoadedByCompletion(s, b, sid);
      t := Overwritten(s, c, |b.procs| + 1, sid, 1);
    } else {
      var c := LoadedByPatch(s, b, sid);
      t := Overwritten(s, c, |b.procs|, sid, b.sessions[sid].total.value);
    }
  }
}
