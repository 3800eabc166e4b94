/** A single preview worker draining the queue (preview/runner.go): the polling loop over claim, generate
    and mark-failure, with the outcome of every attempt given by an oracle. */
module PreviewRunner {
  import opened Types
  import opened PreviewQueue

  /** works(j, n): whether attempt number n on job j succeeds. */
  type Oracle = (nat, nat) -> bool

  /** What becomes of a queued job that is tried until it is settled. */
  function Settle(j: nat, job: Job, maxAttempts: nat, works: Oracle): (r: Job)
    requires job.status == Queued && job.attempts < maxAttempts
    ensures Terminal(r) && r.createdAt == job.createdAt
    ensures job.attempts < r.attempts <= maxAttempts
    ensures r.status == Completed <==> works(j, r.attempts)
    ensures r.status == Failed ==> r.attempts == maxAttempts
    ensures forall n :: job.attempts < n < r.attempts ==> !works(j, n)
    decreases maxAttempts - job.attempts
  {
    var n := job.attempts + 1;
    if works(j, n) then job.(status := Completed, attempts := n)
    else if n >= maxAttempts then job.(status := Failed, attempts := n)
    else Settle(j, job.(attempts := n), maxAttempts, works)
  }

  /** The attempts a job has left. */
  function Weight(job: Job, maxAttempts: nat): nat {
    if job.status == Queued && job.attempts < maxAttempts then maxAttempts - job.attempts else 0
  }

  function Remaining(jobs: seq<Job>, maxAttempts: nat): nat {
    if |jobs| == 0 then 0 else Remaining(jobs[..|jobs| - 1], maxAttempts) + Weight(jobs[|jobs| - 1], maxAttempts)
  }

  function QueuedCount(jobs: seq<Job>): nat {
    if |jobs| == 0 then 0 else QueuedCount(jobs[..|jobs| - 1]) + if jobs[|jobs| - 1].status == Queued then 1 else 0
  }

  ghost function InLine(jobs: seq<Job>): set<nat> {
    set i: nat | i < |jobs| && jobs[i].status == Queued
  }

  lemma {:induction false} CountsLine(jobs: seq<Job>)
    ensures QueuedCount(jobs) == |InLine(jobs)|
    decreases |jobs|
  {
    if |jobs| > 0 {
      var front, last := jobs[..|jobs| - 1], |jobs| - 1;
      CountsLine(front);
      assert InLine(jobs) == InLine(front) + if jobs[last].status == Queued then {last} else {};
    } else {
      assert InLine(jobs) == {};
    }
  }

  lemma {:induction false} RemainingUpdate(jobs: seq<Job>, j: nat, job: Job, maxAttempts: nat)
    requires j < |jobs|
    ensures Remaining(jobs[j := job], maxAttempts)
         == Remaining(jobs, maxAttempts) - Weight(jobs[j], maxAttempts) + Weight(job, maxAttempts)
  {
    var last := |jobs| - 1;
    if j < last {
      assert jobs[j := job][..last] == jobs[..last][j := job];
      RemainingUpdate(jobs[..last], j, job, maxAttempts);
    } else {
      assert jobs[j := job][..last] == jobs[..last];
    }
  }

  lemma {:induction false} RemainingBound(jobs: seq<Job>, maxAttempts: nat)
    ensures Remaining(jobs, maxAttempts) <= QueuedCount(jobs) * maxAttempts
  {
    if |jobs| > 0 {
      RemainingBound(jobs[..|jobs| - 1], maxAttempts);
    }
  }

  /** Jobs in line never share a creation time. */
  ghost predicate DistinctTimes(jobs: seq<Job>) {
    forall i, j :: 0 <= i < j < |jobs| && jobs[i].status == Queued && jobs[j].status == Queued ==>
      jobs[i].createdAt != jobs[j].createdAt
  }

  ghost predicate QueueOk(jobs: seq<Job>, maxAttempts: nat) {
    DistinctTimes(jobs) && forall i :: 0 <= i < |jobs| && jobs[i].status == Queued ==> jobs[i].attempts < maxAttempts
  }

  /** A job as a claim leaves it. */
  function Claimed(job: Job): Job {
    job.(status := Processing, attempts := job.attempts + 1)
  }

  /** First in, first settled. */
  ghost predicate InOrder(jobs: seq<Job>, order: seq<nat>) {
    && (forall a :: 0 <= a < |order| ==> order[a] < |jobs|)
    && (forall a, b :: 0 <= a < b < |order| ==> jobs[order[a]].createdAt < jobs[order[b]].createdAt)
  }

  class Runner {
    var jobs: seq<Job>
    const maxAttempts: nat
    /** The jobs this runner settled, oldest settlement first, and the number of its claims. */
    ghost var settled: seq<nat>
    ghost var claims: nat

    /** Start: a limit that is not positive means three attempts. */
    constructor (table: seq<Job>, limit: int)
      ensures jobs == table && settled == [] && claims == 0
      ensures maxAttempts > 0 && (limit > 0 ==> maxAttempts == limit) && (limit <= 0 ==> maxAttempts == 3)
    {
      jobs := table;
      maxAttempts := if limit <= 0 then 3 else limit;
      settled, claims := [], 0;
    }

    method ClaimNextJob() returns (j: Option<nat>)
      modifies this`jobs, this`claims
      ensures j.None? ==> jobs == old(jobs) && claims == old(claims)
      ensures j.None? <==> forall i :: 0 <= i < |old(jobs)| ==> old(jobs)[i].status != Queued
      ensures j.Some? ==> j.value < |old(jobs)| && old(jobs)[j.value].status == Queued && claims == old(claims) + 1
      ensures j.Some? ==> jobs == old(jobs)[j.value := Claimed(old(jobs)[j.value])]
      ensures j.Some? ==> var was := old(jobs)[j.value];
                jobs[j.value] == Job(was.createdAt, Processing, was.attempts + 1, was.abandoned)
      ensures j.Some? ==> forall i :: 0 <= i < |old(jobs)| && old(jobs)[i].status == Queued ==>
                old(jobs)[j.value].createdAt <= old(jobs)[i].createdAt
    {
      j := None;
      for i := 0 to |jobs|
        invariant j.None? <==> forall k :: 0 <= k < i ==> jobs[k].status != Queued
        invariant j.Some? ==> j.value < i && jobs[j.value].status == Queued
        invariant j.Some? ==> forall k :: 0 <= k < i && jobs[k].status == Queued ==> jobs[j.value].createdAt <= jobs[k].createdAt
      {
        if jobs[i].status == Queued && (j.None? || jobs[i].createdAt < jobs[j.value].createdAt) {
          j := Some(i);
        }
      }
      if j.Some? {
        jobs := jobs[j.value := Claimed(jobs[j.value])];
        claims := claims + 1;
      }
    }

    method MarkJobFailure(j: nat, attempts: nat)
      requires j < |jobs|
      modifies this`jobs
      ensures jobs == old(jobs)[j := old(jobs)[j].(status := if attempts < maxAttempts then Queued else Failed)]
    {
      var status := Queued;
      if attempts >= maxAttempts {
        status := Failed;
      }
      jobs := jobs[j := jobs[j].(status := status)];
    }

    /** Claims the oldest job in line and makes one attempt at it. */
    method ProcessOne(works: Oracle) returns (processed: bool, ghost j: nat)
      requires QueueOk(jobs, maxAttempts)
      modifies this
      ensures !processed ==> jobs == old(jobs) && settled == old(settled) && claims == old(claims)
      ensures !processed <==> forall i :: 0 <= i < |old(jobs)| ==> old(jobs)[i].status != Queued
      ensures processed ==> claims == old(claims) + 1
      ensures processed ==> Attempted(old(jobs), jobs, j, maxAttempts, works)
      ensures processed ==> settled == old(settled) + JustSettled(jobs, j)
    {
      var claim := ClaimNextJob();
      if claim.None? {
        return false, 0;
      }
      var id := claim.value;
      var attempts := jobs[id].attempts;
      if works(id, attempts) {
        jobs := jobs[id := jobs[id].(status := Completed)];
      } else {
        MarkJobFailure(id, attempts);
      }
      processed, j := true, id;
      settled := settled + JustSettled(jobs, id);
    }

    /** The loop of Start while there is work: it ends, with every job in line settled as if it had been
        alone, in the order in which the jobs were created, within the attempts they had left. */
    method Drain(works: Oracle)
      requires QueueOk(jobs, maxAttempts)
      modifies this
      ensures |jobs| == |old(jobs)|
      ensures forall i :: 0 <= i < |jobs| ==>
                jobs[i] == if old(jobs)[i].status == Queued then Settle(i, old(jobs)[i], maxAttempts, works) else old(jobs)[i]
      ensures |settled| >= |old(settled)| && settled[..|old(settled)|] == old(settled)
      ensures forall i: nat :: i in settled[|old(settled)|..] <==> i < |jobs| && old(jobs)[i].status == Queued
      ensures InOrder(jobs, settled[|old(settled)|..])
      ensures claims - old(claims) <= |InLine(old(jobs))| * maxAttempts
    {
      ghost var before, earlier, claims0 := jobs, settled, claims;
      ghost var order := Poll(works);
      RemainingBound(before, maxAttempts);
      CountsLine(before);
      DrainDone(before, jobs, order, maxAttempts, works);
      assert settled[|earlier|..] == order;
    }

    /** The loop itself. */
    method Poll(works: Oracle) returns (ghost order: seq<nat>)
      requires QueueOk(jobs, maxAttempts)
      modifies this
      ensures DrainOk(old(jobs), jobs, order, maxAttempts, works)
      ensures forall i :: 0 <= i < |jobs| ==> jobs[i].status != Queued
      ensures settled == old(settled) + order
      ensures claims <= old(claims) + Remaining(old(jobs), maxAttempts)
    {
      ghost var before, earlier, claims0 := jobs, settled, claims;
      order := [];
      DrainStart(before, maxAttempts, works);
      var working := true;
      while working
        invariant DrainOk(before, jobs, order, maxAttempts, works)
        invariant settled == earlier + order
        invariant claims + Remaining(jobs, maxAttempts) <= claims0 + Remaining(before, maxAttempts)
        invariant !working ==> forall i :: 0 <= i < |jobs| ==> jobs[i].status != Queued
        decreases Remaining(jobs, maxAttempts) + if working then 1 else 0
      {
        ghost var last := jobs;
        ghost var j: nat;
        working, j := ProcessOne(works);
        if working {
          AttemptKeeps(before, last, jobs, order, j, maxAttempts, works);
          order := order + JustSettled(jobs, j);
        }
      }
    }
  }

  lemma DrainStart(before: seq<Job>, maxAttempts: nat, works: Oracle)
    requires QueueOk(before, maxAttempts)
    ensures DrainOk(before, before, [], maxAttempts, works)
  {
    forall i | 0 <= i < |before| ensures JobProgress(before, before, [], i, maxAttempts, works) {
    }
  }

  ghost function JustSettled(jobs: seq<Job>, j: nat): seq<nat> {
    if j < |jobs| && Terminal(jobs[j]) then [j] else []
  }

  lemma DrainDone(before: seq<Job>, now: seq<Job>, order: seq<nat>, maxAttempts: nat, works: Oracle)
    requires DrainOk(before, now, order, maxAttempts, works)
    requires forall i :: 0 <= i < |now| ==> now[i].status != Queued
    ensures forall i :: 0 <= i < |now| ==>
              now[i] == if before[i].status == Queued then Settle(i, before[i], maxAttempts, works) else before[i]
    ensures forall i: nat :: i in order <==> i < |now| && before[i].status == Queued
  {
    forall i | 0 <= i < |now|
      ensures now[i] == if before[i].status == Queued then Settle(i, before[i], maxAttempts, works) else before[i]
      ensures i in order <==> before[i].status == Queued
    {
      assert JobProgress(before, now, order, i, maxAttempts, works);
    }
  }

  /** One attempt at the oldest queued job j. */
  ghost predicate Attempted(before: seq<Job>, after: seq<Job>, j: nat, maxAttempts: nat, works: Oracle) {
    && j < |before| && before[j].status == Queued
    && (forall i :: 0 <= i < |before| && before[i].status == Queued ==> before[j].createdAt <= before[i].createdAt)
    && var n := before[j].attempts + 1;
       after == before[j := before[j].(status := if works(j, n) then Completed else AfterFailure(n, maxAttempts), attempts := n)]
  }

  /** The jobs in order are settled; the others still in line will end as they would have from the start,
      and are younger than everything settled. */
  ghost predicate DrainOk(before: seq<Job>, now: seq<Job>, order: seq<nat>, maxAttempts: nat, works: Oracle) {
    && |now| == |before|
    && QueueOk(before, maxAttempts) && QueueOk(now, maxAttempts)
    && (forall i :: 0 <= i < |now| ==> JobProgress(before, now, order, i, maxAttempts, works))
    && (forall i: nat :: i in order ==> i < |now| && before[i].status == Queued && now[i].status != Queued)
    && InOrder(now, order)
    && (forall a, i :: 0 <= a < |order| && 0 <= i < |now| && now[i].status == Queued ==>
          now[order[a]].createdAt < now[i].createdAt)
  }

  ghost predicate JobProgress(before: seq<Job>, now: seq<Job>, order: seq<nat>, i: nat, maxAttempts: nat, works: Oracle)
    requires |now| == |before| && i < |now| && QueueOk(before, maxAttempts) && QueueOk(now, maxAttempts)
  {
    if before[i].status != Queued then now[i] == before[i]
    else if now[i].status == Queued then
      now[i].createdAt == before[i].createdAt && Settle(i, now[i], maxAttempts, works) == Settle(i, before[i], maxAttempts, works)
    else i in order && now[i] == Settle(i, before[i], maxAttempts, works)
  }

  /** An attempt of the lone worker is three steps of the shared queue, so whatever holds of every run there
      holds here. */
  lemma AttemptIsRun(before: seq<Job>, after: seq<Job>, j: nat, maxAttempts: nat, works: Oracle)
    requires Attempted(before, after, j, maxAttempts, works)
    ensures var es := [Select(0, j), CommitClaim(0), if works(j, before[j].attempts + 1) then Complete(0) else Fail(0)];
      var s := State(maxAttempts, before, [Idle]);
      IsRun(s, es) && Run(s, es) == State(maxAttempts, after, [Idle])
  {
    var n := before[j].attempts + 1;
    var last := if works(j, n) then Complete(0) else Fail(0);
    var es := [Select(0, j), CommitClaim(0), last];
    var s := State(maxAttempts, before, [Idle]);
    assert Enabled(s, es[0]);
    var t := Step(s, es[0]);
    assert t == State(maxAttempts, before, [Selected(j)]);
    assert es[1..] == [CommitClaim(0), last] && es[1..][1..] == [last] && [last][1..] == [];
    var u := Step(t, CommitClaim(0));
    assert u == State(maxAttempts, before[j := before[j].(status := Processing, attempts := n)], [Holding(j, n)]);
    var v := Step(u, last);
    assert v.jobs == after && v.workers == [Idle];
    assert IsRun(v, []) && Run(v, []) == v;
    assert IsRun(u, [last]) && Run(u, [last]) == v;
    assert IsRun(t, es[1..]) && Run(t, es[1..]) == v;
  }

  lemma AttemptCosts(last: seq<Job>, now: seq<Job>, j: nat, maxAttempts: nat, works: Oracle)
    requires QueueOk(last, maxAttempts) && Attempted(last, now, j, maxAttempts, works)
    ensures QueueOk(now, maxAttempts) && Remaining(now, maxAttempts) < Remaining(last, maxAttempts)
  {
    RemainingUpdate(last, j, now[j], maxAttempts);
  }

  lemma AttemptProgress(before: seq<Job>, last: seq<Job>, now: seq<Job>, order: seq<nat>, j: nat, i: nat, maxAttempts: nat, works: Oracle)
    requires |last| == |before| && i < |last| && QueueOk(before, maxAttempts) && QueueOk(last, maxAttempts) && QueueOk(now, maxAttempts)
    requires Attempted(last, now, j, maxAttempts, works) && JobProgress(before, last, order, i, maxAttempts, works)
    ensures JobProgress(before, now, order + JustSettled(now, j), i, maxAttempts, works)
  {
    if i == j {
      assert JustSettled(now, j) == if now[j].status == Queued then [] else [j];
    } else {
      assert now[i] == last[i];
    }
  }

  /** The attempted job was the oldest in line, so settling it keeps the order. */
  lemma AttemptInOrder(last: seq<Job>, now: seq<Job>, order: seq<nat>, j: nat, maxAttempts: nat, works: Oracle)
    requires QueueOk(last, maxAttempts) && Attempted(last, now, j, maxAttempts, works) && InOrder(last, order)
    requires forall a, i :: 0 <= a < |order| && 0 <= i < |last| && last[i].status == Queued ==>
               last[order[a]].createdAt < last[i].createdAt
    ensures InOrder(now, order + JustSettled(now, j))
    ensures var next := order + JustSettled(now, j);
      forall a, i :: 0 <= a < |next| && 0 <= i < |now| && now[i].status == Queued ==> now[next[a]].createdAt < now[i].createdAt
  {
    assert forall i :: 0 <= i < |now| ==> now[i].createdAt == last[i].createdAt;
  }

  lemma AttemptKeeps(before: seq<Job>, last: seq<Job>, now: seq<Job>, order: seq<nat>, j: nat, maxAttempts: nat, works: Oracle)
    requires DrainOk(before, last, order, maxAttempts, works) && Attempted(last, now, j, maxAttempts, works)
    ensures DrainOk(before, now, order + JustSettled(now, j), maxAttempts, works)
    ensures Remaining(now, maxAttempts) < Remaining(last, maxAttempts)
  {
    var next := order + JustSettled(now, j);
    AttemptCosts(last, now, j, maxAttempts, works);
    forall i | 0 <= i < |now| ensures JobProgress(before, now, next, i, maxAttempts, works) {
      assert JobProgress(before, last, order, i, maxAttempts, works);
      AttemptProgress(before, last, now, order, j, i, maxAttempts, works);
    }
    AttemptInOrder(last, now, order, j, maxAttempts, works);
    forall i: nat | i in next ensures i < |now| && before[i].status == Queued && now[i].status != Queued {
      if i !in order {
        assert i == j && JobProgress(before, last, order, j, maxAttempts, works);
      }
    }
  }
}
