/** The preview job table shared by several workers (preview/runner.go) and the handler that enqueues
    (http/files.go), as a state machine: claims take a row lock, skip rows locked by others, and commit in
    a second step; workers may fail, crash, or lose the update that would have released their job. */
module PreviewQueue {

  datatype Status = Queued | Processing | Completed | Failed

  /** abandoned is history: the worker that held the job went away without settling it. */
  datatype Job = Job(createdAt: nat, status: Status, attempts: nat, abandoned: bool)

  /** Selected: inside the claiming transaction, holding the row lock of a queued job.
      Holding: the claim is committed; attempts is the value it returned. */
  datatype Worker = Idle | Selected(job: nat) | Holding(job: nat, attempts: nat)

  datatype State = State(maxAttempts: nat, jobs: seq<Job>, workers: seq<Worker>)

  datatype Event =
    | Enqueue(createdAt: nat)
    | Select(worker: nat, job: nat)
    | CommitClaim(worker: nat)
    | AbortClaim(worker: nat)
    | Complete(worker: nat)
    | Fail(worker: nat)
    | Lose(worker: nat)

  predicate Terminal(j: Job) {
    j.status == Completed || j.status == Failed
  }

  predicate Locked(s: State, j: nat) {
    exists w | 0 <= w < |s.workers| :: s.workers[w] == Selected(j)
  }

  predicate Claimable(s: State, j: nat) {
    j < |s.jobs| && s.jobs[j].status == Queued && !Locked(s, j)
  }

  /** ORDER BY created_at ... FOR UPDATE SKIP LOCKED LIMIT 1. */
  predicate Oldest(s: State, j: nat) {
    Claimable(s, j) && forall i | 0 <= i < |s.jobs| :: Claimable(s, i) ==> s.jobs[j].createdAt <= s.jobs[i].createdAt
  }

  predicate Enabled(s: State, e: Event) {
    match e
    case Enqueue(_) => true
    case Select(w, j) => w < |s.workers| && s.workers[w] == Idle && Oldest(s, j)
    case CommitClaim(w) => w < |s.workers| && s.workers[w].Selected? && s.workers[w].job < |s.jobs|
    case AbortClaim(w) => w < |s.workers| && s.workers[w].Selected?
    case Complete(w) => w < |s.workers| && s.workers[w].Holding? && s.workers[w].job < |s.jobs|
    case Fail(w) => w < |s.workers| && s.workers[w].Holding? && s.workers[w].job < |s.jobs|
    case Lose(w) => w < |s.workers| && s.workers[w].Holding? && s.workers[w].job < |s.jobs|
  }

  function Release(s: State, w: nat): State
    requires w < |s.workers|
  {
    s.(workers := s.workers[w := Idle])
  }

  function WithJob(s: State, j: nat, job: Job): State
    requires j < |s.jobs|
  {
    s.(jobs := s.jobs[j := job])
  }

  /** A worker claims exactly the oldest queued job that nobody else is claiming. */
  lemma ClaimMeaning(s: State, w: nat, j: nat)
    ensures Enabled(s, Select(w, j)) <==>
            && w < |s.workers| && s.workers[w] == Idle
            && j < |s.jobs| && s.jobs[j].status == Queued && Selected(j) !in s.workers
            && forall i :: 0 <= i < |s.jobs| && s.jobs[i].status == Queued && Selected(i) !in s.workers ==>
                 s.jobs[j].createdAt <= s.jobs[i].createdAt
  {
    forall i: nat | i < |s.jobs| ensures Locked(s, i) <==> Selected(i) in s.workers {
    }
    if Enabled(s, Select(w, j)) {
      forall i | 0 <= i < |s.jobs| && s.jobs[i].status == Queued && Selected(i) !in s.workers
        ensures s.jobs[j].createdAt <= s.jobs[i].createdAt
      {
        assert Claimable(s, i);
      }
    }
  }

  /** markJobFailure looks at the attempts the claim returned, not at the row. */
  function AfterFailure(attempts: nat, maxAttempts: nat): Status {
    if attempts >= maxAttempts then Failed else Queued
  }

  function Step(s: State, e: Event): State
    requires Enabled(s, e)
  {
    match e
    case Enqueue(t) => s.(jobs := s.jobs + [Job(t, Queued, 0, false)])
    case Select(w, j) => s.(workers := s.workers[w := Selected(j)])
    case CommitClaim(w) =>
      var j := s.workers[w].job;
      var n := s.jobs[j].attempts + 1;
      WithJob(s, j, s.jobs[j].(status := Processing, attempts := n)).(workers := s.workers[w := Holding(j, n)])
    case AbortClaim(w) => Release(s, w)
    case Complete(w) =>
      var j := s.workers[w].job;
      Release(WithJob(s, j, s.jobs[j].(status := Completed)), w)
    case Fail(w) =>
      var j := s.workers[w].job;
      Release(WithJob(s, j, s.jobs[j].(status := AfterFailure(s.workers[w].attempts, s.maxAttempts))), w)
    case Lose(w) =>
      var j := s.workers[w].job;
      Release(WithJob(s, j, s.jobs[j].(abandoned := true)), w)
  }

  /** What the steps do, in the rows: a claim is one more attempt at a queued job that is then being worked on; a
      worker's success or failure settles its job or puts it back in line; a crash leaves it as it is. */
  lemma StepMeaning(s: State, e: Event)
    requires Enabled(s, e)
    ensures var t := Step(s, e);
            && t.maxAttempts == s.maxAttempts && |t.workers| == |s.workers|
            && (e.Enqueue? ==> t.jobs == s.jobs + [Job(e.createdAt, Queued, 0, false)] && t.workers == s.workers)
            && (!e.Enqueue? ==> forall v :: 0 <= v < |s.workers| && v != e.worker ==> t.workers[v] == s.workers[v])
            && (e.Select? ==> t.jobs == s.jobs && t.workers[e.worker] == Selected(e.job))
            && (e.AbortClaim? ==> t.jobs == s.jobs && t.workers[e.worker] == Idle)
            && (e.CommitClaim? ==>
                  var j := s.workers[e.worker].job;
                  && t.jobs == s.jobs[j := s.jobs[j].(status := Processing, attempts := s.jobs[j].attempts + 1)]
                  && t.workers[e.worker] == Holding(j, s.jobs[j].attempts + 1))
            && (e.Complete? || e.Fail? || e.Lose? ==>
                  var j := s.workers[e.worker].job;
                  && t.workers[e.worker] == Idle
                  && t.jobs == s.jobs[j := t.jobs[j]]
                  && t.jobs[j] == if e.Complete? then s.jobs[j].(status := Completed)
                                  else if e.Lose? then s.jobs[j].(abandoned := true)
                                  else if s.workers[e.worker].attempts < s.maxAttempts then s.jobs[j].(status := Queued)
                                  else s.jobs[j].(status := Failed))
  {
  }

  predicate IsRun(s: State, es: seq<Event>)
    decreases |es|
  {
    |es| == 0 || (Enabled(s, es[0]) && IsRun(Step(s, es[0]), es[1..]))
  }

  function Run(s: State, es: seq<Event>): State
    requires IsRun(s, es)
    decreases |es|
  {
    if |es| == 0 then s else Run(Step(s, es[0]), es[1..])
  }

  // ---- the invariant -------------------------------------------------------------------------------

  predicate WorkerOk(s: State, w: Worker) {
    match w
    case Idle => true
    case Selected(j) => j < |s.jobs| && s.jobs[j].status == Queued
    case Holding(j, n) => j < |s.jobs| && s.jobs[j].status == Processing && s.jobs[j].attempts == n && !s.jobs[j].abandoned
  }

  ghost predicate Held(s: State, j: nat) {
    exists w :: 0 <= w < |s.workers| && s.workers[w].Holding? && s.workers[w].job == j
  }

  predicate AttemptsOk(j: Job, maxAttempts: nat) {
    match j.status
    case Queued => j.attempts < maxAttempts
    case Processing => 0 < j.attempts <= maxAttempts
    case Completed => 0 < j.attempts <= maxAttempts
    case Failed => j.attempts == maxAttempts
  }

  ghost predicate JobOk(s: State, j: nat)
    requires j < |s.jobs|
  {
    && AttemptsOk(s.jobs[j], s.maxAttempts)
    && (s.jobs[j].status == Processing ==> s.jobs[j].abandoned || Held(s, j))
    && (s.jobs[j].abandoned ==> s.jobs[j].status == Processing)
  }

  predicate Apart(v: Worker, w: Worker) {
    v.Idle? || w.Idle? || v.job != w.job
  }

  ghost predicate Inv(s: State) {
    && s.maxAttempts > 0
    && (forall w :: 0 <= w < |s.workers| ==> WorkerOk(s, s.workers[w]))
    && (forall v, w :: 0 <= v < w < |s.workers| ==> Apart(s.workers[v], s.workers[w]))
    && (forall j :: 0 <= j < |s.jobs| ==> JobOk(s, j))
  }

  /** Holders other than w keep their jobs held. */
  lemma StillHeld(s: State, t: State, w: nat, j: nat)
    requires |t.workers| == |s.workers| && w < |s.workers| && t.workers == s.workers[w := t.workers[w]]
    requires Held(s, j) && !(s.workers[w].Holding? && s.workers[w].job == j)
    ensures Held(t, j)
  {
    var v :| 0 <= v < |s.workers| && s.workers[v].Holding? && s.workers[v].job == j;
    assert t.workers[v] == s.workers[v];
  }

  lemma JobsStayOk(s: State, e: Event)
    requires Inv(s) && Enabled(s, e)
    ensures var t := Step(s, e); forall j :: 0 <= j < |t.jobs| ==> JobOk(t, j)
  {
    var t := Step(s, e);
    forall j | 0 <= j < |t.jobs| ensures JobOk(t, j) {
      if e.Enqueue? {
        assert t.workers == s.workers;
        if j < |s.jobs| {
          assert JobOk(s, j);
        }
      } else {
        var w := e.worker;
        assert JobOk(s, j);
        assert WorkerOk(s, s.workers[w]);
        if Held(s, j) && !(s.workers[w].Holding? && s.workers[w].job == j) {
          StillHeld(s, t, w, j);
        }
        if e.CommitClaim? && s.workers[w].job == j {
          assert t.workers[w].Holding? && t.workers[w].job == j;
        }
      }
    }
  }

  lemma WorkersStayOk(s: State, e: Event)
    requires Inv(s) && Enabled(s, e)
    ensures var t := Step(s, e);
      && (forall w :: 0 <= w < |t.workers| ==> WorkerOk(t, t.workers[w]))
      && (forall v, w :: 0 <= v < w < |t.workers| ==> Apart(t.workers[v], t.workers[w]))
  {
    var t := Step(s, e);
    if e.Select? {
      forall v | 0 <= v < |s.workers| ensures Apart(s.workers[v], Selected(e.job)) {
        assert WorkerOk(s, s.workers[v]);
      }
    }
    forall w | 0 <= w < |t.workers| ensures WorkerOk(t, t.workers[w]) {
      assert WorkerOk(s, s.workers[w]);
      if s.workers[w].Selected? {
        assert JobOk(s, s.workers[w].job);
      }
      if !e.Enqueue? && w != e.worker {
        assert w < e.worker ==> Apart(s.workers[w], s.workers[e.worker]);
        assert e.worker < w ==> Apart(s.workers[e.worker], s.workers[w]);
      }
    }
    forall v, w | 0 <= v < w < |t.workers| ensures Apart(t.workers[v], t.workers[w]) {
      assert Apart(s.workers[v], s.workers[w]);
    }
  }

  lemma InvStep(s: State, e: Event)
    requires Inv(s) && Enabled(s, e)
    ensures Inv(Step(s, e))
  {
    JobsStayOk(s, e);
    WorkersStayOk(s, e);
  }

  lemma {:induction false} InvRun(s: State, es: seq<Event>)
    requires Inv(s) && IsRun(s, es)
    ensures Inv(Run(s, es))
    decreases |es|
  {
    if |es| > 0 {
      InvStep(s, es[0]);
      InvRun(Step(s, es[0]), es[1..]);
    }
  }

  // ---- what holds in every run ----------------------------------------------------------------------

  /** However workers, crashes and enqueues interleave: a job has at most one holder, a processing job has
      exactly one unless its worker went away, attempts stay within the limit, a queued job has one left,
      and a job is given up only when all are used.  At first there are no jobs and the workers are idle; Start replaces
      a limit that is not positive by 3. */
  lemma QueueSafety(s: State, es: seq<Event>, j: nat)
    requires s.maxAttempts > 0 && s.jobs == [] && forall w :: 0 <= w < |s.workers| ==> s.workers[w] == Idle
    requires IsRun(s, es) && j < |Run(s, es).jobs|
    ensures var t := Run(s, es); var job := t.jobs[j];
      && (forall v, w | 0 <= v < |t.workers| && 0 <= w < |t.workers| ::
            t.workers[v].Holding? && t.workers[w].Holding? && t.workers[v].job == j == t.workers[w].job ==> v == w)
      && (job.status == Processing && !job.abandoned <==> Held(t, j))
      && job.attempts <= t.maxAttempts
      && (job.status == Queued ==> job.attempts < t.maxAttempts)
      && (job.status == Processing || job.status == Completed ==> job.attempts > 0)
      && (job.status == Failed ==> job.attempts == t.maxAttempts)
  {
    InvRun(s, es);
    var t := Run(s, es);
    assert JobOk(t, j);
    if Held(t, j) {
      var w :| 0 <= w < |t.workers| && t.workers[w].Holding? && t.workers[w].job == j;
      assert WorkerOk(t, t.workers[w]);
    }
  }

  /** Once completed or failed, a job row never changes again, although the updates by the workers do not
      look at its status; a lost job stays lost. */
  lemma {:induction false} SettledForever(s: State, es: seq<Event>, j: nat)
    requires Inv(s) && IsRun(s, es) && j < |s.jobs| && (Terminal(s.jobs[j]) || s.jobs[j].abandoned)
    ensures j < |Run(s, es).jobs| && Run(s, es).jobs[j] == s.jobs[j]
    decreases |es|
  {
    if |es| > 0 {
      var e := es[0];
      InvStep(s, e);
      if !e.Enqueue? {
        assert WorkerOk(s, s.workers[e.worker]);
      }
      assert JobOk(s, j);
      if e.CommitClaim? {
        assert s.workers[e.worker].job != j;
      }
      SettledForever(Step(s, e), es[1..], j);
    }
  }

  /** The number of committed claims of a job in a run. */
  function Claims(s: State, es: seq<Event>, j: nat): nat
    requires IsRun(s, es)
    decreases |es|
  {
    if |es| == 0 then 0
    else (if es[0].CommitClaim? && s.workers[es[0].worker].job == j then 1 else 0) + Claims(Step(s, es[0]), es[1..], j)
  }

  function AttemptsOf(s: State, j: nat): nat {
    if j < |s.jobs| then s.jobs[j].attempts else 0
  }

  /** attempts counts the claims, exactly. */
  lemma {:induction false} AttemptsCountClaims(s: State, es: seq<Event>, j: nat)
    requires IsRun(s, es)
    ensures AttemptsOf(Run(s, es), j) == AttemptsOf(s, j) + Claims(s, es, j)
    decreases |es|
  {
    if |es| > 0 {
      AttemptsCountClaims(Step(s, es[0]), es[1..], j);
    }
  }

  /** No job is worked on more often than the limit allows, over the whole life of the queue. */
  lemma RetriesBounded(s: State, es: seq<Event>, j: nat)
    requires s.maxAttempts > 0 && s.jobs == [] && forall w :: 0 <= w < |s.workers| ==> s.workers[w] == Idle
    requires IsRun(s, es)
    ensures Claims(s, es, j) <= s.maxAttempts
  {
    AttemptsCountClaims(s, es, j);
    LimitConstant(s, es);
    if j < |Run(s, es).jobs| {
      QueueSafety(s, es, j);
    }
  }

  lemma {:induction false} LimitConstant(s: State, es: seq<Event>)
    requires IsRun(s, es)
    ensures Run(s, es).maxAttempts == s.maxAttempts
    decreases |es|
  {
    if |es| > 0 {
      LimitConstant(Step(s, es[0]), es[1..]);
    }
  }
}
