/** Runs step by step, and what a step leaves alone: the other processes and the objects they displaced. */
module UploadFrames {
  import opened Types
  import opened UploadModel
  import opened UploadInvariant
  import opened UploadStructureSteps

  lemma ReachStep(s: State, e: Event)
    requires Reachable(s) && Enabled(s, e)
    ensures Reachable(Step(s, e))
  {
    var es :| IsRun(Initial, es, s);
    RunSnoc(Initial, es, s, e);
  }

  lemma {:induction false} RunSnoc(s: State, es: seq<Event>, t: State, e: Event)
    requires IsRun(s, es, t) && Enabled(t, e)
    ensures IsRun(s, es + [e], Step(t, e))
    decreases |es|
  {
    if |es| == 0 {
      assert (es + [e])[1..] == [];
    } else {
      assert (es + [e])[1..] == es[1..] + [e];
      RunSnoc(Step(s, es[0]), es[1..], t, e);
    }
  }

  predicate DiskEvent(e: Event) {
    e.OpenTemp? || e.WriteSome? || e.StorePart? || e.Move? || e.MoveBack? || e.RetireObject? || e.DeleteObject?
  }

  predicate TableEvent(e: Event) {
    e.AddUser? || e.SetQuota? || e.Init? || e.Arrive? || e.DropFiles? || e.RecalcLive? || e.RecalcRest?
  }

  /** The process an event is a step of. */
  function Actor(e: Event): Option<nat> {
    if TableEvent(e) then None else Some(e.p)
  }

  /** The process can commit no more. */
  predicate Past(q: Proc) {
    q.Undoing? || q.Ended?
  }

  lemma OtherEventsKeepDisk(s: State, e: Event)
    requires Enabled(s, e) && !DiskEvent(e)
    ensures Step(s, e).disk == s.disk
  {
  }

  /** A step keeps the displaced objects of all other processes. */
  lemma DisplacedOfOthers(s: State, e: Event, i: nat)
    requires Inv(s) && Enabled(s, e) && i < |s.procs| && !TableEvent(e) && i != e.p
    ensures DisplacedObject(Step(s, e), s.procs[i]) == DisplacedObject(s, s.procs[i])
  {
    if DiskEvent(e) {
      OtherObjectsKept(s, e, i);
    } else {
      OtherEventsKeepDisk(s, e);
    }
  }

  lemma OtherProcsKept(s: State, e: Event, i: nat)
    requires Enabled(s, e) && i < |s.procs| && !TableEvent(e) && i != e.p
    ensures i < |Step(s, e).procs| && Step(s, e).procs[i] == s.procs[i]
  {
  }

  lemma OtherObjectsKept(s: State, e: Event, i: nat)
    requires Inv(s) && Enabled(s, e) && i < |s.procs| && DiskEvent(e) && i != e.p
    ensures DisplacedObject(Step(s, e), s.procs[i]) == DisplacedObject(s, s.procs[i])
  {
    match e
    case WriteSome(p, n) => WriteSpares(s, p, n, i);
    case StorePart(p) => StorePartSpares(s, p, i);
    case Move(p) => MoveSpares(s, p, i);
    case MoveBack(p) => MoveBackSpares(s, p, i);
    case OpenTemp(p) => OpenSpares(s, p, i);
    case RetireObject(p) => RemovalSpares(s, e, i);
    case DeleteObject(p) => RemovalSpares(s, e, i);
  }

  lemma RemovalSpares(s: State, e: Event, i: nat)
    requires Inv(s) && Enabled(s, e) && i < |s.procs| && (e.RetireObject? || e.DeleteObject?)
    ensures DisplacedObject(Step(s, e), s.procs[i]) == DisplacedObject(s, s.procs[i])
  {
    assert ProcOk(s, s.procs[i]);
  }
}
