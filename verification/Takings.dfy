/** Who may lose running tasks to whom, in preemption and reclaiming (the filters of preempt.go and reclaim.go). */
module Takings {
  import opened Resources
  import opened Tasks
  import opened Jobs
  import opened Sessions
  import opened Statements
  import opened Promises

  /** What a job may take: running tasks of other jobs in its queue, its own, or those of other queues among `queues`. */
  datatype Claim =
    | Between(job: JobId)
    | Within(job: JobId)
    | Across(job: JobId, queues: set<string>)

  /** The claim covers the task. */
  predicate Grants(jobs: JobMap, c: Claim, t: Task) {
    c.job in jobs && t.job in jobs &&
    match c
    case Between(j) => t.preemptable && !IsEmpty(t.resreq) && t.job != j && jobs[t.job].queue == jobs[j].queue
    case Within(j) => !IsEmpty(t.resreq) && t.job == j
    case Across(j, queues) => t.preemptable && jobs[t.job].queue in queues && jobs[t.job].queue != jobs[j].queue
  }

  ghost predicate Granted(jobs: JobMap, claims: set<Claim>, t: Task) {
    exists c :: c in claims && Grants(jobs, c, t)
  }

  /**
   A running task runs on or, if some claim covers it, becomes releasing; a releasing one stays so; and none
   starts to run.
   */
  ghost predicate Fate(jobs: JobMap, claims: set<Claim>, t: Task, t': Task) {
    t'.job == t.job && t'.resreq == t.resreq && t'.preemptable == t.preemptable &&
    match t.status
    case Running => t' == t || (t' == t.(status := Releasing) && Granted(jobs, claims, t))
    case Releasing => t' == t
    case _ => !t'.status.Running? && !t'.status.Releasing?
  }

  /** Jobs, their tasks and queues stay, and every task meets a fate that the claims allow. */
  ghost predicate Takes(s: Snap, s': Snap, claims: set<Claim>) {
    s'.jobs.Keys == s.jobs.Keys &&
    forall j | j in s.jobs :: JobTakes(s.jobs, s.jobs[j], s'.jobs[j], claims)
  }

  ghost predicate JobTakes(jobs: JobMap, j: JobState, j': JobState, claims: set<Claim>) {
    j'.queue == j.queue && j'.tasks.Keys == j.tasks.Keys && forall u | u in j.tasks :: Fate(jobs, claims, j.tasks[u], j'.tasks[u])
  }

  lemma TakesNothing(s: Snap, claims: set<Claim>)
    ensures Takes(s, s, claims)
  {
  }

  lemma SameGrants(jobs: JobMap, jobs': JobMap, claims: set<Claim>, claims': set<Claim>, t: Task, t': Task)
    requires jobs'.Keys == jobs.Keys && (forall j | j in jobs :: jobs'[j].queue == jobs[j].queue)
    requires claims <= claims' && t'.job == t.job && t'.resreq == t.resreq && t'.preemptable == t.preemptable
    ensures Granted(jobs', claims, t') ==> Granted(jobs, claims', t)
  {
    if c :| c in claims && Grants(jobs', c, t') {
      assert Grants(jobs, c, t);
    }
  }

  lemma FatesThen(s: Snap, s1: Snap, first: set<Claim>, second: set<Claim>, claims: set<Claim>, t: Task, t1: Task, t2: Task)
    requires s1.jobs.Keys == s.jobs.Keys && (forall j | j in s.jobs :: s1.jobs[j].queue == s.jobs[j].queue)
    requires first <= claims && second <= claims && Fate(s.jobs, first, t, t1) && Fate(s1.jobs, second, t1, t2)
    ensures Fate(s.jobs, claims, t, t2)
  {
    hide Granted;
    SameGrants(s.jobs, s.jobs, first, claims, t, t);
    SameGrants(s.jobs, s1.jobs, second, claims, t, t1);
  }

  /** What is taken in two steps is covered by the claims of both. */
  lemma TakesThen(s: Snap, s1: Snap, s2: Snap, first: set<Claim>, second: set<Claim>, claims: set<Claim>)
    requires Takes(s, s1, first) && Takes(s1, s2, second) && first <= claims && second <= claims
    ensures Takes(s, s2, claims)
  {
    hide Granted, Fate;
    SameQueues(s, s1, first);
    forall j | j in s.jobs
      ensures JobTakes(s.jobs, s.jobs[j], s2.jobs[j], claims)
    {
      assert JobTakes(s.jobs, s.jobs[j], s1.jobs[j], first) && JobTakes(s1.jobs, s1.jobs[j], s2.jobs[j], second);
      forall u | u in s.jobs[j].tasks
        ensures Fate(s.jobs, claims, s.jobs[j].tasks[u], s2.jobs[j].tasks[u])
      {
        FatesThen(s, s1, first, second, claims, s.jobs[j].tasks[u], s1.jobs[j].tasks[u], s2.jobs[j].tasks[u]);
      }
    }
  }

  lemma SameQueues(s: Snap, s': Snap, claims: set<Claim>)
    requires Takes(s, s', claims)
    ensures s'.jobs.Keys == s.jobs.Keys && forall j | j in s.jobs :: s'.jobs[j].queue == s.jobs[j].queue
  {
    forall j | j in s.jobs ensures s'.jobs[j].queue == s.jobs[j].queue {
      assert JobTakes(s.jobs, s.jobs[j], s'.jobs[j], claims);
    }
  }

  /** One task of the session is replaced. */
  lemma TakesPut(s: Snap, s': Snap, t': Task, claims: set<Claim>)
    requires InJob(s, t') && s'.jobs == PutTask(s.jobs, t') && Fate(s.jobs, claims, Stored(s, t'), t')
    ensures Takes(s, s', claims)
  {
    hide Granted;
    forall j | j in s.jobs
      ensures JobTakes(s.jobs, s.jobs[j], s'.jobs[j], claims)
    {
      assert s'.jobs[j].tasks.Keys == s.jobs[j].tasks.Keys;
    }
  }

  lemma TakesEvict(s: Snap, t: Task, c: Claim)
    requires Guarded(s, StepEvict(t)) && Grants(s.jobs, c, t)
    ensures t.job in s.jobs && Takes(s, Evicted(s, t), {c})
  {
    assert Granted(s.jobs, {c}, t);
    TakesPut(s, Evicted(s, t), t.(status := Releasing), {c});
  }

  /** A pending task that takes a place, at once or after others have been taken. */
  lemma TakesPlace(s: Snap, s1: Snap, t: Task, n: NodeName, claims: set<Claim>)
    requires Takes(s, s1, claims) && InJob(s, t) && Stored(s, t) == t && t.status.Pending?
    ensures t.job in s1.jobs && Takes(s, Placed(s1, t, n, Pipelined), claims)
  {
    hide Granted;
    var s2 := Placed(s1, t, n, Pipelined);
    assert JobTakes(s.jobs, s.jobs[t.job], s1.jobs[t.job], claims);
    assert Fate(s.jobs, claims, t, s1.jobs[t.job].tasks[t.uid]);
    TakesPut(s1, s2, t.(status := Pipelined, node := n), {});
    TakesThen(s, s1, s2, claims, {}, claims);
  }

  lemma TakesBound(s: Snap, s': Snap, claims: set<Claim>)
    requires OnlyBound(s, s')
    ensures Takes(s, s', claims)
  {
    forall j | j in s.jobs
      ensures JobTakes(s.jobs, s.jobs[j], s'.jobs[j], claims)
    {
      assert OnlyBoundJob(s.jobs[j], s'.jobs[j]);
    }
  }

  /** So a task that was running and does not run any more is covered by some claim. */
  lemma OnlyGrantedStop(s: Snap, s': Snap, claims: set<Claim>, j: JobId, u: TaskId)
    requires Takes(s, s', claims) && j in s.jobs && u in s.jobs[j].tasks && s.jobs[j].tasks[u].status.Running?
    ensures j in s'.jobs && u in s'.jobs[j].tasks
    ensures s'.jobs[j].tasks[u] == s.jobs[j].tasks[u] ||
            (s'.jobs[j].tasks[u].status.Releasing? && Granted(s.jobs, claims, s.jobs[j].tasks[u]))
  {
    assert JobTakes(s.jobs, s.jobs[j], s'.jobs[j], claims);
    assert Fate(s.jobs, claims, s.jobs[j].tasks[u], s'.jobs[j].tasks[u]);
  }
}
