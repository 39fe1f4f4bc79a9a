/** Tasks and the sums of their requests (pkg/scheduler/api/job_info.go, types.go, helpers.go). */
module Tasks {
  import opened Resources
  import opened Sums

  type TaskId = string
  type JobId = string
  type NodeName = string

  datatype Status =
    | Pending | Allocated | Pipelined | Binding | Bound | Running
    | Releasing | Succeeded | Failed | Unknown

  /**
   A TaskInfo.  Its launch request InitResreq is its Resreq, which is how tasks are created, so
   `bestEffort` is a property of `resreq`.  `node` is "" while the task is on no node.
   */
  datatype Task = Task(uid: TaskId, job: JobId, spec: string, resreq: Resource, preemptable: bool,
                       status: Status, node: NodeName)
  {
    predicate BestEffort() { IsEmpty(resreq) }
  }

  predicate AllocatedStatus(s: Status) {
    s.Bound? || s.Binding? || s.Running? || s.Allocated?
  }

  /** The quantities the scheduler keeps incrementally, each a sum of requests over some statuses. */
  datatype Role =
    | Used        // NodeInfo.Used
    | ReleasingR  // NodeInfo.Releasing
    | PipelinedR  // NodeInfo.Pipelined
    | AllocatedR  // JobInfo.Allocated
    | Request     // JobInfo.TotalRequest
    | Share       // drf: allocated statuses and pipelined tasks

  predicate Counts(role: Role, s: Status) {
    match role
    case Used => !s.Pipelined?
    case ReleasingR => s.Releasing?
    case PipelinedR => s.Pipelined?
    case AllocatedR => AllocatedStatus(s)
    case Request => true
    case Share => AllocatedStatus(s) || s.Pipelined?
  }

  function Weight(t: Task, role: Role, d: Dim): int {
    if Counts(role, t.status) then Get(t.resreq, d) else 0
  }

  type TaskMap = map<TaskId, Task>

  /** Tasks are stored under their own identifier and request no negative quantity. */
  ghost predicate WellFormed(tasks: TaskMap) {
    forall u | u in tasks :: tasks[u].uid == u && NonNegative(tasks[u].resreq)
  }

  ghost function Weights(tasks: TaskMap, role: Role, d: Dim): map<TaskId, int> {
    map u | u in tasks :: Weight(tasks[u], role, d)
  }

  /** The sum of the requests that count for `role`, recomputed from the tasks. */
  ghost function Total(tasks: TaskMap, role: Role, d: Dim): int {
    Sum(Weights(tasks, role, d))
  }

  lemma TotalEmpty()
    ensures forall role, d :: Total(map[], role, d) == 0
  {
  }

  /** Storing a task adds its weight and takes away that of the task it replaces. */
  lemma TotalPut(tasks: TaskMap, u: TaskId, t: Task)
    ensures forall role, d :: Total(tasks[u := t], role, d) ==
                              Total(tasks, role, d) + Weight(t, role, d)
                              - (if u in tasks then Weight(tasks[u], role, d) else 0)
  {
    forall role, d
      ensures Total(tasks[u := t], role, d) ==
              Total(tasks, role, d) + Weight(t, role, d)
              - (if u in tasks then Weight(tasks[u], role, d) else 0)
    {
      assert Weights(tasks[u := t], role, d) == Weights(tasks, role, d)[u := Weight(t, role, d)];
      SumPut(Weights(tasks, role, d), u, Weight(t, role, d));
    }
  }

  lemma TotalRemove(tasks: TaskMap, u: TaskId)
    requires u in tasks
    ensures forall role, d :: Total(tasks - {u}, role, d) == Total(tasks, role, d) - Weight(tasks[u], role, d)
  {
    forall role, d
      ensures Total(tasks - {u}, role, d) == Total(tasks, role, d) - Weight(tasks[u], role, d)
    {
      assert Weights(tasks - {u}, role, d) == Weights(tasks, role, d) - {u};
      SumAt(Weights(tasks, role, d), u);
    }
  }

  lemma TotalBounds(tasks: TaskMap, u: TaskId)
    requires WellFormed(tasks) && u in tasks
    ensures forall role, d :: 0 <= Weight(tasks[u], role, d) <= Total(tasks, role, d)
  {
    forall role, d
      ensures 0 <= Weight(tasks[u], role, d) <= Total(tasks, role, d)
    {
      SumBounds(Weights(tasks, role, d), u);
    }
  }

  lemma TotalNonNegative(tasks: TaskMap)
    requires WellFormed(tasks)
    ensures forall role, d :: Total(tasks, role, d) >= 0
  {
    forall role, d
      ensures Total(tasks, role, d) >= 0
    {
      SumNonNegative(Weights(tasks, role, d));
    }
  }

  /** `r` is, dimension by dimension, the sum of the requests that count for `role`. */
  ghost predicate SumsTo(r: Resource, tasks: TaskMap, role: Role) {
    forall d :: Get(r, d) == Total(tasks, role, d)
  }

  /** Adding a new task's request, if it counts, keeps a sum right. */
  lemma SumAfterAdd(r: Resource, tasks: TaskMap, role: Role, t: Task)
    requires SumsTo(r, tasks, role) && t.uid !in tasks
    ensures SumsTo(if Counts(role, t.status) then Add(r, t.resreq) else r, tasks[t.uid := t], role)
  {
    TotalPut(tasks, t.uid, t);
  }

  /** Taking out a task that counts never drives a sum below zero, so the assertion in Sub holds. */
  lemma SumCovers(r: Resource, tasks: TaskMap, role: Role, t: Task)
    requires WellFormed(tasks) && t.uid in tasks && tasks[t.uid] == t
    requires SumsTo(r, tasks, role) && Counts(role, t.status)
    ensures LessEqual(t.resreq, r)
  {
    TotalBounds(tasks, t.uid);
    forall d
      ensures Get(t.resreq, d) <= Get(r, d)
    {
      assert Weight(t, role, d) <= Total(tasks, role, d);
    }
    LessEqualFromDimensions(t.resreq, r);
  }

  lemma SumAfterRemove(r: Resource, tasks: TaskMap, role: Role, t: Task)
    requires WellFormed(tasks) && t.uid in tasks && tasks[t.uid] == t
    requires SumsTo(r, tasks, role)
    ensures Counts(role, t.status) ==> LessEqual(t.resreq, r)
    ensures SumsTo(if Counts(role, t.status) then Sub(r, t.resreq) else r, tasks - {t.uid}, role)
  {
    TotalRemove(tasks, t.uid);
    if Counts(role, t.status) {
      SumCovers(r, tasks, role, t);
    }
  }

  /** Two ledgers that are right about the same tasks agree. */
  lemma SumsAgree(r: Resource, rr: Resource, tasks: TaskMap, role: Role)
    requires SumsTo(r, tasks, role) && SumsTo(rr, tasks, role)
    ensures Same(r, rr)
  {
  }
}
