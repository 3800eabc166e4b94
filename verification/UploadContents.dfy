/** How what is known about object contents survives a step: the parts a step does not touch. */
module UploadContents {
  import opened Types
  import opened Disk
  import opened UploadModel
  import opened UploadInvariant
  import opened UploadStructure

  /** The step leaves a session's temporary object and accepted bytes alone, or removes the object. */
  ghost predicate TempSame(s: State, t: State, sid: nat)
    requires sid < |s.sessions| && sid < |t.sessions|
  {
    var k := SessionTemp(sid);
    && (k in t.disk.names ==>
          k in s.disk.names && t.disk.names[k] == s.disk.names[k] && t.disk.Peek(k) == s.disk.Peek(k))
    && (Tracked(t.sessions[sid]) ==> t.sessions[sid].accepted == s.sessions[sid].accepted)
  }

  lemma DisplacedSame(s: State, t: State, q: Proc)
    requires Extends(s, t) && SparesDraft(s, t, q)
    ensures DisplacedObject(t, q) == DisplacedObject(s, q)
    ensures ProcOk(s, q) && DisplacedSid(t, q).Some? ==> DisplacedSid(t, q) == DisplacedSid(s, q)
  {
    if ProcOk(s, q) && DisplacedSid(t, q).Some? {
      var sid := DisplacedSid(t, q).value;
      assert RowGrows(s.sessions[sid], t.sessions[sid]);
    }
  }

  lemma DisplacedKept(s: State, t: State, q: Proc)
    requires Extends(s, t) && SparesDraft(s, t, q) && ProcOk(s, q) && DisplacedOk(s, q)
    requires DisplacedSid(t, q).Some? ==>
               t.sessions[DisplacedSid(t, q).value].accepted == s.sessions[DisplacedSid(t, q).value].accepted
    ensures DisplacedOk(t, q)
  {
    DisplacedSame(s, t, q);
    if DisplacedSid(t, q).Some? {
      var sid := DisplacedSid(t, q).value;
      assert RowGrows(s.sessions[sid], t.sessions[sid]);
    }
  }

  lemma SoloKept(s: State, t: State, q: Proc)
    requires Extends(s, t) && SparesDraft(s, t, q) && ProcOk(s, q) && SoloOk(s, q)
    requires DisplacedSid(t, q).Some? ==> TempSame(s, t, DisplacedSid(t, q).value)
    ensures SoloOk(t, q)
  {
    DisplacedSame(s, t, q);
  }

  lemma PairKept(s: State, t: State, q: Proc, r: Proc)
    requires Extends(s, t) && SparesDraft(s, t, q) && SparesDraft(s, t, r)
    requires ProcOk(s, q) && ProcOk(s, r) && PairOk(s, q, r)
    ensures PairOk(t, q, r)
  {
    DisplacedSame(s, t, q);
    DisplacedSame(s, t, r);
  }

  lemma LeadKept(s: State, t: State, q: Proc, r: Proc)
    requires Extends(s, t) && SparesDraft(s, t, r) && ProcOk(s, r) && LeadOk(s, q, r)
    ensures LeadOk(t, q, r)
  {
    DisplacedSame(s, t, r);
    if DisplacedSid(t, r).Some? {
      var sid := DisplacedSid(t, r).value;
      assert RowGrows(s.sessions[sid], t.sessions[sid]);
    }
  }

  lemma AheadKept(s: State, t: State, q: Proc)
    requires Extends(s, t) && Spares(s, t, q) && ProcOk(s, q) && AheadOk(s, q)
    requires AheadOf(q).Some? ==> AheadOf(q).value < |s.sessions| && TempSame(s, t, AheadOf(q).value)
    ensures AheadOk(t, q)
  {
  }

  lemma TempKept(s: State, t: State, sid: nat)
    requires Extends(s, t) && sid < |s.sessions| && TempOk(s, sid) && TempSame(s, t, sid)
    requires forall i :: 0 <= i < |s.procs| && AheadOf(s.procs[i]) == Some(sid) ==>
               exists j :: 0 <= j < |t.procs| && AheadOf(t.procs[j]) == Some(sid)
    ensures TempOk(t, sid)
  {
    assert RowGrows(s.sessions[sid], t.sessions[sid]);
  }

  lemma StoredKept(s: State, t: State, f: nat)
    requires Structure(s) && Extends(s, t) && f < |s.files| && FileOk(s, f) && StoredOk(s, f)
    requires t.files[f].state.Live? ==> t.disk.Peek(Final(s.files[f].serial)) == s.disk.Peek(Final(s.files[f].serial))
    ensures StoredOk(t, f)
  {
    assert FileGrows(s.files[f], t.files[f]);
    var sid := OriginSid(s.files[f].origin);
    if sid.Some? {
      assert RowGrows(s.sessions[sid.value], t.sessions[sid.value]);
      assert SessionOk(s, sid.value);
    }
  }

  /** The obligations of process p, which steps to q, towards another process r. */
  ghost predicate Beside(t: State, q: Proc, r: Proc) {
    PairOk(t, q, r) && LeadOk(t, q, r) && LeadOk(t, r, q)
  }

  /** What the others need to hear about the one session whose temporary object the step touched. */
  ghost predicate Told(t: State, r: Proc, touched: Option<nat>) {
    && (DisplacedSid(t, r).Some? && DisplacedSid(t, r) == touched ==> DisplacedOk(t, r) && SoloOk(t, r))
    && (AheadOf(r).Some? && AheadOf(r) == touched ==> AheadOk(t, r))
  }

  /** When process p stops being ahead of a session, the temporary object is vouched for again. */
  ghost predicate Behind(s: State, t: State, p: nat, q: Proc)
    requires p < |s.procs|
  {
    var sid := AheadOf(s.procs[p]);
    sid.Some? && AheadOf(q) != sid && sid.value < |t.sessions| ==> TempOk(t, sid.value)
  }

  lemma Carry(s: State, t: State, p: nat, q: Proc, touched: Option<nat>)
    requires Structure(s) && Contents(s) && Extends(s, t)
    requires p < |s.procs| && t.procs == s.procs[p := q] && |t.sessions| == |s.sessions|
    requires forall i :: 0 <= i < |s.procs| && i != p ==> Spares(s, t, s.procs[i])
    requires forall sid :: 0 <= sid < |s.sessions| && Some(sid) != touched ==> TempSame(s, t, sid)
    requires touched.Some? && touched.value < |t.sessions| ==> TempOk(t, touched.value)
    requires forall i :: 0 <= i < |s.procs| && i != p ==> Told(t, s.procs[i], touched)
    requires forall i :: 0 <= i < |s.procs| && i != p ==> Beside(t, q, s.procs[i])
    requires DisplacedOk(t, q) && SoloOk(t, q) && AheadOk(t, q)
    requires Behind(s, t, p, q)
    requires forall f :: 0 <= f < |t.files| ==> StoredOk(t, f)
    ensures Contents(t)
  {
    CarryProcs(s, t, p, q, touched);
    CarryPairs(s, t, p, q);
    forall sid | 0 <= sid < |t.sessions| ensures TempOk(t, sid) {
      if Some(sid) != touched && (AheadOf(s.procs[p]) != Some(sid) || AheadOf(q) == Some(sid)) {
        forall i | 0 <= i < |s.procs| && AheadOf(s.procs[i]) == Some(sid)
          ensures AheadOf(t.procs[i]) == Some(sid)
        {
        }
        assert TempOk(s, sid);
        TempKept(s, t, sid);
      }
    }
  }

  lemma CarryProcs(s: State, t: State, p: nat, q: Proc, touched: Option<nat>)
    requires Structure(s) && Contents(s) && Extends(s, t)
    requires p < |s.procs| && t.procs == s.procs[p := q] && |t.sessions| == |s.sessions|
    requires forall i :: 0 <= i < |s.procs| && i != p ==> Spares(s, t, s.procs[i])
    requires forall sid :: 0 <= sid < |s.sessions| && Some(sid) != touched ==> TempSame(s, t, sid)
    requires forall i :: 0 <= i < |s.procs| && i != p ==> Told(t, s.procs[i], touched)
    requires DisplacedOk(t, q) && SoloOk(t, q) && AheadOk(t, q)
    ensures forall i :: 0 <= i < |t.procs| ==> DisplacedOk(t, t.procs[i])
    ensures forall i :: 0 <= i < |t.procs| ==> SoloOk(t, t.procs[i])
    ensures forall i :: 0 <= i < |t.procs| ==> AheadOk(t, t.procs[i])
  {
    forall i | 0 <= i < |t.procs|
      ensures DisplacedOk(t, t.procs[i]) && SoloOk(t, t.procs[i]) && AheadOk(t, t.procs[i])
    {
      if i != p {
        var r := s.procs[i];
        assert ProcOk(s, r) && DisplacedOk(s, r) && SoloOk(s, r) && AheadOk(s, r);
        DisplacedSame(s, t, r);
        if DisplacedSid(t, r).None? || DisplacedSid(t, r) != touched {
          DisplacedKept(s, t, r);
          SoloKept(s, t, r);
        }
        if AheadOf(r).None? || AheadOf(r) != touched {
          AheadKept(s, t, r);
        }
      }
    }
  }

  lemma CarryPairs(s: State, t: State, p: nat, q: Proc)
    requires Structure(s) && Contents(s) && Extends(s, t)
    requires p < |s.procs| && t.procs == s.procs[p := q]
    requires forall i :: 0 <= i < |s.procs| && i != p ==> Spares(s, t, s.procs[i])
    requires forall i :: 0 <= i < |s.procs| && i != p ==> Beside(t, q, s.procs[i])
    ensures forall i, j :: 0 <= i < j < |t.procs| ==> PairOk(t, t.procs[i], t.procs[j])
    ensures forall i, j :: 0 <= i < |t.procs| && 0 <= j < |t.procs| ==> LeadOk(t, t.procs[i], t.procs[j])
  {
    forall i, j | 0 <= i < |t.procs| && 0 <= j < |t.procs|
      ensures i < j ==> PairOk(t, t.procs[i], t.procs[j])
      ensures LeadOk(t, t.procs[i], t.procs[j])
    {
      if i != p && j != p {
        assert ProcOk(s, s.procs[i]) && ProcOk(s, s.procs[j]);
        assert LeadOk(s, s.procs[i], s.procs[j]);
        LeadKept(s, t, s.procs[i], s.procs[j]);
        if i < j {
          assert PairOk(s, s.procs[i], s.procs[j]);
          PairKept(s, t, s.procs[i], s.procs[j]);
        }
      } else if i == p && j != p {
        assert Beside(t, q, s.procs[j]);
      } else if i != p && j == p {
        assert Beside(t, q, s.procs[i]);
      }
    }
  }

  /** A step that leaves the disk alone and takes no new object: rows change, and what process p has. */
  lemma QuietContents(s: State, t: State, p: nat, q: Proc)
    requires Structure(s) && Contents(s) && Extends(s, t) && t.disk == s.disk
    requires p < |s.procs| && t.procs == s.procs[p := q] && |t.sessions| == |s.sessions|
    requires forall i :: 0 <= i < |s.procs| && i != p ==> Spares(s, t, s.procs[i])
    requires forall sid :: 0 <= sid < |s.sessions| ==> TempSame(s, t, sid)
    requires Displaced(q).None? || Displaced(q) == Displaced(s.procs[p])
    requires AheadOf(q).None? || AheadOf(q) == AheadOf(s.procs[p])
    requires AheadOk(t, q) && Behind(s, t, p, q)
    requires forall f :: |s.files| <= f < |t.files| ==> StoredOk(t, f)
    ensures Contents(t)
  {
    var was := s.procs[p];
    assert ProcOk(s, was) && DisplacedOk(s, was) && SoloOk(s, was);
    if DisplacedSid(t, was).Some? {
      assert TempSame(s, t, DisplacedSid(t, was).value);
    }
    DisplacedKept(s, t, was);
    SoloKept(s, t, was);
    forall i | 0 <= i < |s.procs| && i != p ensures Beside(t, q, s.procs[i]) {
      var r := s.procs[i];
      assert ProcOk(s, r) && LeadOk(s, was, r) && LeadOk(s, r, was);
      assert if i < p then PairOk(s, r, was) else PairOk(s, was, r);
      assert PairOk(s, was, r);
      PairKept(s, t, was, r);
      LeadKept(s, t, was, r);
      LeadKept(s, t, r, was);
    }
    forall f | 0 <= f < |s.files| ensures StoredOk(t, f) {
      assert FileOk(s, f) && StoredOk(s, f);
      StoredKept(s, t, f);
    }
    Carry(s, t, p, q, None);
  }
}
