/** What a completion moves is what its file holds: the length of the temporary object at the Move decides. */
module UploadCompletion {
  import opened Types
  import opened Disk
  import opened UploadModel
  import opened UploadInvariant
  import opened UploadRuns
  import opened UploadFrames
  import opened UploadTheorems

  /** The process has moved its object to the final key and not yet finished. */
  predicate Holding(q: Proc, d: Draft) {
    q == Moved(d) || q == Charged(d)
  }

  /** A finalizing process goes forward only, and its object stays what it is. */
  lemma HoldingStep(s: State, e: Event, p: nat, d: Draft)
    requires Inv(s) && Enabled(s, e) && p < |s.procs| && Holding(s.procs[p], d)
    ensures p < |Step(s, e).procs|
    ensures Past(Step(s, e).procs[p]) || Holding(Step(s, e).procs[p], d)
    ensures Holding(Step(s, e).procs[p], d) ==> FinalObject(Step(s, e), d) == FinalObject(s, d)
  {
    if TableEvent(e) {
      TableHoldingStep(s, e, p, d);
    } else if e.p == p {
      OwnHoldingStep(s, e, d);
    } else {
      OthersHoldingStep(s, e, p, d);
    }
  }

  /** The bytes a draft has at its final key. */
  function FinalObject(s: State, d: Draft): Bytes {
    s.disk.Peek(Final(d.serial))
  }

  lemma OthersHoldingStep(s: State, e: Event, p: nat, d: Draft)
    requires Inv(s) && Enabled(s, e) && p < |s.procs| && Holding(s.procs[p], d) && !TableEvent(e) && e.p != p
    ensures p < |Step(s, e).procs| && Holding(Step(s, e).procs[p], d) && FinalObject(Step(s, e), d) == FinalObject(s, d)
  {
    OtherProcsKept(s, e, p);
    DisplacedOfOthers(s, e, p);
  }

  lemma TableHoldingStep(s: State, e: Event, p: nat, d: Draft)
    requires Enabled(s, e) && TableEvent(e) && p < |s.procs| && Holding(s.procs[p], d)
    ensures p < |Step(s, e).procs| && Holding(Step(s, e).procs[p], d) && FinalObject(Step(s, e), d) == FinalObject(s, d)
  {
    OtherEventsKeepDisk(s, e);
  }

  lemma OwnHoldingStep(s: State, e: Event, d: Draft)
    requires Enabled(s, e) && !TableEvent(e) && e.p < |s.procs| && Holding(s.procs[e.p], d)
    ensures e.p < |Step(s, e).procs|
    ensures Past(Step(s, e).procs[e.p]) || (e.ChargeUser? && Step(s, e).procs[e.p] == Charged(d) && Step(s, e).disk == s.disk)
  {
    match e
    case ChargeUser(p) => assert Step(s, e) == DoCharge(s, p);
    case _ =>
  }

  lemma PastStep(s: State, e: Event, p: nat)
    requires Enabled(s, e) && p < |s.procs| && Past(s.procs[p])
    ensures p < |Step(s, e).procs| && Past(Step(s, e).procs[p])
  {
    if !TableEvent(e) && e.p != p {
      OtherProcsKept(s, e, p);
    }
  }

  lemma {:induction false} PastRun(s: State, es: seq<Event>, t: State, p: nat)
    requires IsRun(s, es, t) && p < |s.procs| && Past(s.procs[p])
    ensures p < |t.procs| && Past(t.procs[p])
    decreases |es|
  {
    if |es| > 0 {
      PastStep(s, es[0], p);
      PastRun(Step(s, es[0]), es[1..], t, p);
    }
  }

  /** Whatever runs in between, the object a process moved is the one it commits. */
  lemma {:induction false} HoldingRun(s: State, es: seq<Event>, t: State, p: nat, d: Draft)
    requires Inv(s) && IsRun(s, es, t) && p < |s.procs| && Holding(s.procs[p], d)
    requires p < |t.procs| && Holding(t.procs[p], d)
    ensures FinalObject(t, d) == FinalObject(s, d)
    decreases |es|
  {
    if |es| > 0 {
      var m := Step(s, es[0]);
      HoldingStep(s, es[0], p, d);
      InvStep(s, es[0]);
      if Past(m.procs[p]) {
        PastRun(m, es[1..], t, p);
      }
      HoldingRun(m, es[1..], t, p, d);
    }
  }

  /** A commit makes one live file whose object is the moved one. */
  lemma CommitStores(s: State, p: nat)
    requires Inv(s) && CanCommit(s, p)
    ensures var d := s.procs[p].draft; var t := DoCommit(s, p);
            && |t.files| == |s.files| + 1
            && t.files[|s.files|] == FileRow(d.owner, d.serial, d.size, Live, d.origin, d.content)
            && FinalObject(t, d) == FinalObject(s, d)
  {
  }

  predicate Unexposed(s: State, d: Draft) {
    var sid := OriginSid(d.origin);
    sid.Some? && sid.value < |s.sessions| ==> !s.sessions[sid.value].exposed
  }

  /** What is about to be moved is the accepted content exactly when it has the right length. */
  lemma SourceExact(s: State, p: nat)
    requires Reachable(s) && CanMove(s, p) && SourceKey(s.procs[p].draft) in s.disk.names
    requires Unexposed(s, s.procs[p].draft)
    ensures var d := s.procs[p].draft; var o := s.disk.Peek(SourceKey(d)); o == d.content <==> |o| == d.size
  {
    InvReachable(s);
    var d := s.procs[p].draft;
    assert ProcOk(s, s.procs[p]) && AheadOk(s, s.procs[p]);
    if d.origin.FromChunks? {
      assert SessionOk(s, d.origin.sid);
      LengthCheckSuffices(s, d.origin.sid);
    }
  }

  lemma MoveHolds(s: State, p: nat)
    requires Inv(s) && CanMove(s, p) && SourceKey(s.procs[p].draft) in s.disk.names
    ensures var d := s.procs[p].draft; var t := DoMove(s, p);
            Inv(t) && t.procs[p] == Moved(d) && FinalObject(t, d) == s.disk.Peek(SourceKey(d))
  {
    assert ProcOk(s, s.procs[p]);
    assert Enabled(s, Move(p)) && Step(s, Move(p)) == DoMove(s, p);
    InvStep(s, Move(p));
  }

  /** The exact condition for a finalization, on what can be looked up before it starts: the file it commits,
      however much later and with whatever requests in between, holds the object that was under the
      temporary key at the Move; so it is right if and only if that one was, which, unless the session is
      exposed, its length tells. */
  lemma CompletionExact(s: State, p: nat, es: seq<Event>, t: State)
    requires Reachable(s) && CanMove(s, p) && SourceKey(s.procs[p].draft) in s.disk.names
    requires IsRun(DoMove(s, p), es, t) && CanCommit(t, p) && t.procs[p].draft == s.procs[p].draft
    ensures var d := s.procs[p].draft; var u := DoCommit(t, p); var moved := s.disk.Peek(SourceKey(d));
            && |u.files| == |t.files| + 1
            && u.files[|t.files|] == FileRow(d.owner, d.serial, d.size, Live, d.origin, d.content)
            && u.disk.Peek(Final(d.serial)) == moved
            && (Unexposed(s, d) ==> (moved == d.content <==> |moved| == d.size))
            && (d.origin.FromChunks? ==>
                  d.origin.sid < |s.sessions|
                  && d.content == s.sessions[d.origin.sid].accepted && d.size == s.sessions[d.origin.sid].uploaded)
  {
    var d := s.procs[p].draft;
    InvReachable(s);
    assert ProcOk(s, s.procs[p]);
    if d.origin.FromChunks? {
      assert SessionOk(s, d.origin.sid);
    }
    if Unexposed(s, d) {
      SourceExact(s, p);
    }
    MoveHolds(s, p);
    HoldingRun(DoMove(s, p), es, t, p, d);
    InvRun(DoMove(s, p), es, t);
    CommitStores(t, p);
  }
}
