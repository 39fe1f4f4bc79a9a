/**
 The scheduling session (pkg/scheduler/framework/session.go): jobs, nodes, and the job shares that the
 drf plugin keeps through the session's event handlers (pkg/scheduler/plugins/drf/drf.go).
 */
module Sessions {
  import opened Resources
  import opened Tasks
  import opened Jobs
  import opened Nodes

  datatype NodeState = NodeState(allocatable: Resource, tasks: TaskMap)

  /** All that the ledgers are computed from: who is where, in which status. */
  datatype Snap = Snap(jobs: map<JobId, JobState>, nodes: map<NodeName, NodeState>)

  type JobMap = map<JobId, JobState>
  type NodeMap = map<NodeName, NodeState>

  /** The job's entry for `t` becomes `t`. */
  function PutTask(jobs: JobMap, t: Task): JobMap
    requires t.job in jobs
  {
    jobs[t.job := jobs[t.job].(tasks := jobs[t.job].tasks[t.uid := t])]
  }

  /** The entry for `t` on node `n` becomes `t`; a node outside the session is passed over. */
  function PutOn(nodes: NodeMap, n: NodeName, t: Task): NodeMap {
    if n in nodes then nodes[n := nodes[n].(tasks := nodes[n].tasks[t.uid := t])] else nodes
  }

  function DropFrom(nodes: NodeMap, n: NodeName, u: TaskId): NodeMap {
    if n in nodes then nodes[n := nodes[n].(tasks := nodes[n].tasks - {u})] else nodes
  }

  /** Every job is charged for the sum over its allocated and pipelined tasks. */
  ghost predicate SharesMatch(shares: map<JobId, Resource>, jobs: JobMap) {
    forall j | j in jobs :: j in shares && SumsTo(shares[j], jobs[j].tasks, Share)
  }

  lemma ShareAfterCharge(shares: map<JobId, Resource>, jobs: JobMap, t: Task)
    requires SharesMatch(shares, jobs) && t.job in jobs && t.uid in jobs[t.job].tasks
    requires !Counts(Share, jobs[t.job].tasks[t.uid].status) && Counts(Share, t.status)
    ensures t.job in shares
    ensures SharesMatch(shares[t.job := Add(shares[t.job], t.resreq)], PutTask(jobs, t))
  {
    TotalPut(jobs[t.job].tasks, t.uid, t);
  }

  lemma ShareAfterRefund(shares: map<JobId, Resource>, jobs: JobMap, t: Task)
    requires SharesMatch(shares, jobs) && t.job in jobs && t.uid in jobs[t.job].tasks
    requires WellFormed(jobs[t.job].tasks)
    requires var stored := jobs[t.job].tasks[t.uid];
             Counts(Share, stored.status) && !Counts(Share, t.status) && stored.resreq == t.resreq && stored.uid == t.uid
    ensures t.job in shares && LessEqual(t.resreq, shares[t.job])
    ensures SharesMatch(shares[t.job := Sub(shares[t.job], t.resreq)], PutTask(jobs, t))
  {
    TotalPut(jobs[t.job].tasks, t.uid, t);
    SumCovers(shares[t.job], jobs[t.job].tasks, Share, jobs[t.job].tasks[t.uid]);
  }

  /** A change of status or place that the charge does not depend on. */
  lemma ShareUnmoved(shares: map<JobId, Resource>, jobs: JobMap, t: Task)
    requires SharesMatch(shares, jobs) && t.job in jobs && t.uid in jobs[t.job].tasks
    requires var stored := jobs[t.job].tasks[t.uid];
             Counts(Share, stored.status) == Counts(Share, t.status) && stored.resreq == t.resreq
    ensures SharesMatch(shares, PutTask(jobs, t))
  {
    TotalPut(jobs[t.job].tasks, t.uid, t);
  }

  predicate InJob(s: Snap, t: Task) {
    t.job in s.jobs && t.uid in s.jobs[t.job].tasks
  }

  function Stored(s: Snap, t: Task): Task
    requires InJob(s, t)
  {
    s.jobs[t.job].tasks[t.uid]
  }

  predicate OnNode(s: Snap, n: NodeName, u: TaskId) {
    n in s.nodes && u in s.nodes[n].tasks
  }

  /** The same task, possibly seen in another status. */
  predicate SameTask(t: Task, t': Task) {
    t.(status := t'.status) == t'
  }

  /** Idle plus releasing minus pipelined, recomputed. */
  ghost function Future(node: NodeState, d: Dim): int {
    Get(node.allocatable, d) - Total(node.tasks, Used, d) + Total(node.tasks, ReleasingR, d) - Total(node.tasks, PipelinedR, d)
  }

  /** One call of the cache's AddBindTask: the task and its job at that moment. */
  datatype BindRequest = BindRequest(task: Task, job: JobState)

  class Session {
    const Jobs: map<JobId, JobInfo>
    const Nodes: map<NodeName, NodeInfo>
    /** drf's jobAttrs: what each job is charged for. */
    var Shares: map<JobId, Resource>
    /** The calls of AddBindTask so far. */
    var Bound: seq<BindRequest>

    /** Every job is valid and stored under its own name. */
    ghost predicate JobsOk()
      reads Jobs.Values
    {
      (forall j | j in Jobs :: Jobs[j].Valid() && Jobs[j].UID == j)
    }

    ghost predicate NodesOk()
      reads Nodes.Values
    {
      (forall n | n in Nodes :: Nodes[n].Valid() && Nodes[n].Name == n && n != "" && Nodes[n].Node.Some?)
    }

    ghost function JobsView(): JobMap
      reads Jobs.Values
    {
      map j | j in Jobs :: Jobs[j].State()
    }

    ghost function NodesView(): NodeMap
      reads Nodes.Values
    {
      map n | n in Nodes :: NodeState(Nodes[n].Allocatable, Nodes[n].Tasks)
    }

    ghost function View(): Snap
      reads Jobs.Values, Nodes.Values
    {
      Snap(JobsView(), NodesView())
    }

    /** Every ledger, and every job's share, agrees with its recomputation. */
    ghost predicate Valid()
      reads this, Jobs.Values, Nodes.Values
    {
      JobsOk() && NodesOk() && SharesMatch(Shares, JobsView())
    }

    /** A session over cloned jobs and nodes; the shares are those that OnSessionOpen adds up. */
    constructor (jobs: map<JobId, JobInfo>, nodes: map<NodeName, NodeInfo>, shares: map<JobId, Resource>)
      requires forall j | j in jobs :: jobs[j].Valid() && jobs[j].UID == j
      requires forall n | n in nodes :: nodes[n].Valid() && nodes[n].Name == n && n != "" && nodes[n].Node.Some?
      requires forall j | j in jobs :: j in shares && SumsTo(shares[j], jobs[j].Tasks, Share)
      ensures Valid() && Jobs == jobs && Nodes == nodes && Bound == []
    {
      Jobs, Nodes, Shares, Bound := jobs, nodes, shares, [];
    }

    // ----- the steps that Session and Statement operations are made of

    /** `job.UpdateTaskStatus(task, status)` for a job of the session. */
    method SetStatus(t: Task, status: Status) returns (t': Task)
      requires JobsOk() && t.job in Jobs && NonNegative(t.resreq)
      modifies Jobs[t.job]
      ensures JobsOk() && t' == t.(status := status) && JobsView() == PutTask(old(JobsView()), t')
    {
      hide JobInfo.Valid;
      t' := Jobs[t.job].UpdateTaskStatus(t, status);
      assert forall j | j in Jobs && j != t.job :: Jobs[j].State() == old(Jobs[j].State());
    }

    /** `task.NodeName = n`, seen by the job through its pointer. */
    method SetNodeName(t: Task, n: NodeName) returns (t': Task)
      requires JobsOk() && t.job in Jobs && t.uid in JobsView()[t.job].tasks && JobsView()[t.job].tasks[t.uid] == t
      modifies Jobs[t.job]
      ensures JobsOk() && t' == t.(node := n) && JobsView() == PutTask(old(JobsView()), t')
    {
      hide JobInfo.Valid;
      t' := Jobs[t.job].SetNodeName(t, n);
      assert forall j | j in Jobs && j != t.job :: Jobs[j].State() == old(Jobs[j].State());
    }

    method UpdateOnNode(t: Task)
      requires NodesOk() && NonNegative(t.resreq) && !t.status.Pipelined?
      requires t.node in NodesView() ==>
                 var here := NodesView()[t.node].tasks;
                 t.uid in here && here[t.uid].resreq == t.resreq && !here[t.uid].status.Pipelined?
      modifies if t.node in Nodes then {Nodes[t.node]} else {}
      ensures NodesOk() && NodesView() == PutOn(old(NodesView()), t.node, t)
    {
      hide NodeInfo.Valid;
      if t.node in Nodes {
        Nodes[t.node].UpdateTask(t);
        assert t.(node := t.node) == t;
      }
    }

    method RemoveFromNode(t: Task)
      requires NodesOk()
      modifies if t.node in Nodes then {Nodes[t.node]} else {}
      ensures NodesOk() && NodesView() == DropFrom(old(NodesView()), t.node, t.uid)
    {
      hide NodeInfo.Valid;
      if t.node in Nodes {
        Nodes[t.node].RemoveTask(t);
      }
    }

    method AddToNode(t: Task) returns (added: bool)
      requires NodesOk() && t.node in Nodes && NonNegative(t.resreq)
      modifies Nodes[t.node]
      ensures NodesOk()
      ensures added <==> t.uid !in old(NodesView())[t.node].tasks && (t.status.Pipelined? || LessEqual(t.resreq, old(Nodes[t.node].Idle)))
      ensures NodesView() == if added then PutOn(old(NodesView()), t.node, t) else old(NodesView())
    {
      hide NodeInfo.Valid;
      var r := Nodes[t.node].AddTask(t);
      added := r.Added?;
      assert t.(node := t.node) == t;
    }

    /** The plugins' AllocateFunc: charges the job. */
    method AllocateFunc(t: Task)
      requires t.job in Shares
      modifies this`Shares
      ensures Shares == old(Shares)[t.job := Add(old(Shares)[t.job], t.resreq)]
    {
      Shares := Shares[t.job := Add(Shares[t.job], t.resreq)];
    }

    /** The plugins' DeallocateFunc; the precondition is the assertion inside Sub. */
    method DeallocateFunc(t: Task)
      requires t.job in Shares && LessEqual(t.resreq, Shares[t.job])
      modifies this`Shares
      ensures Shares == old(Shares)[t.job := Sub(old(Shares)[t.job], t.resreq)]
    {
      Shares := Shares[t.job := Sub(Shares[t.job], t.resreq)];
    }

    lemma TasksWellFormed(j: JobId)
      requires JobsOk() && j in Jobs
      ensures j in JobsView() && WellFormed(JobsView()[j].tasks)
    {
    }

    lemma Keys()
      ensures JobsView().Keys == Jobs.Keys && NodesView().Keys == Nodes.Keys
      ensures View().jobs.Keys == Jobs.Keys && View().nodes.Keys == Nodes.Keys
    {
    }

    /** AddBindTask, whose answer is `accepted`, and the move to Binding that follows it. */
    method BindTask(t: Task, accepted: bool)
      requires Valid() && InJob(View(), t) && Stored(View(), t) == t && t.status.Allocated?
      modifies this`Bound, Jobs.Values
      ensures Valid() && NodesView() == old(NodesView())
      ensures JobsView() == if accepted then PutTask(old(JobsView()), t.(status := Binding)) else old(JobsView())
      ensures Bound == old(Bound) + [BindRequest(t, old(JobsView())[t.job])]
    {
      hide JobsOk, NodesOk, JobsView, NodesView, SharesMatch, WellFormed, NonNegative, Get;
      Keys();
      JobStateIs(t.job);
      Bound := Bound + [BindRequest(t, Jobs[t.job].State())];
      if accepted {
        TasksNonNegative(t);
        ShareUnmoved(Shares, JobsView(), t.(status := Binding));
        var _ := SetStatus(t, Binding);
      }
    }

    lemma JobStateIs(j: JobId)
      requires j in Jobs
      ensures j in JobsView() && Jobs[j].State() == JobsView()[j]
    {
    }

    lemma QueueIs(j: JobId)
      requires j in Jobs
      ensures j in View().jobs && View().jobs[j].queue == Jobs[j].Queue
    {
    }

    /** JobReady with gang among the voters; `others` is what the remaining voters say. */
    method JobReady(j: JobId, others: bool) returns (ready: bool)
      requires Valid() && j in Jobs
      ensures j in JobsView() && ready == (GangReady(JobsView()[j]) && others)
    {
      hide JobInfo.Valid, GangReady;
      JobStateIs(j);
      ready := Jobs[j].JobReadyFn();
      ready := ready && others;
    }

    /**
     JobPipelined: `heard` says whether gang's vote counts, which an earlier tier or a configuration without
     gang may prevent, and `others` what the remaining voters come to.
     */
    method JobPipelined(j: JobId, heard: bool, others: bool) returns (pipelined: bool)
      requires Valid() && j in Jobs
      ensures j in JobsView() && pipelined == ((heard ==> GangPipelined(JobsView()[j])) && others)
    {
      hide JobInfo.Valid, GangPipelined;
      JobStateIs(j);
      pipelined := Jobs[j].PipelinedFn();
      pipelined := (!heard || pipelined) && others;
    }

    // ----- Session operations

    /** Evicts at once; `accepted` is the answer of the cache. */
    method Evict(t: Task, accepted: bool) returns (ok: bool)
      requires Valid() && CanEvict(View(), t)
      modifies this`Shares, Jobs.Values, Nodes.Values
      ensures Valid() && ok == accepted
      ensures View() == if accepted then Evicted(old(View()), t) else old(View())
    {
      hide JobsOk, NodesOk, JobsView, NodesView, SharesMatch, PutOn, Get, Add, Sub;
      if !accepted {
        return false;
      }
      Keys();
      TasksWellFormed(t.job);
      ShareAfterRefund(Shares, JobsView(), t.(status := Releasing));
      var t' := SetStatus(t, Releasing);
      UpdateOnNode(t');
      DeallocateFunc(t');
      return true;
    }

    /** The part that every placement shares: the job moves the task, then the node takes it, or not. */
    method Place(t: Task, n: NodeName, status: Status) returns (added: bool)
      requires JobsOk() && NodesOk() && CanPlace(View(), t)
      modifies Jobs.Values, Nodes.Values
      ensures JobsOk() && JobsView() == PutTask(old(JobsView()), t.(status := status, node := n))
      ensures NodesOk()
      ensures NodesView() == if added then PutOn(old(NodesView()), n, t.(status := status, node := n)) else old(NodesView())
      ensures added <==> n in Nodes && !OnNode(old(View()), n, t.uid) && (status.Pipelined? || LessEqual(t.resreq, old(Nodes[n].Idle)))
    {
      hide JobsOk, NodesOk, JobsView, NodesView, PutOn, WellFormed, NonNegative, Get, LessEqual;
      Keys();
      TasksNonNegative(t);
      var t' := SetStatus(t, status);
      t' := SetNodeName(t', n);
      PutTwice(old(JobsView()), t.(status := status), t');
      if n !in Nodes {
        return false;
      }
      added := AddToNode(t');
    }

    lemma TasksNonNegative(t: Task)
      requires JobsOk() && InJob(View(), t) && SameTask(Stored(View(), t), t)
      ensures NonNegative(t.resreq)
    {
    }

    /** Reserves for `t` on node `n` what will be released there. */
    method Pipeline(t: Task, n: NodeName) returns (ok: bool)
      requires Valid() && CanPlace(View(), t)
      modifies this`Shares, Jobs.Values, Nodes.Values
      ensures ok == (n in Nodes && !OnNode(old(View()), n, t.uid))
      ensures ok ==> Valid() && View() == Placed(old(View()), t, n, Pipelined)
      ensures !ok ==> JobsOk() && NodesOk() && NodesView() == old(NodesView()) && Shares == old(Shares)
      ensures !ok ==> JobsView() == PutTask(old(JobsView()), t.(status := Pipelined, node := n))
    {
      hide JobsOk, NodesOk, JobsView, NodesView, SharesMatch, PutTask, PutOn, Get, Add, LessEqual;
      Keys();
      ShareAfterCharge(Shares, JobsView(), t.(status := Pipelined, node := n));
      ok := Place(t, n, Pipelined);
      if ok {
        AllocateFunc(t);
      }
    }

    /**
     Allocates at once and, when that makes the job ready, dispatches all its allocated tasks. Any answer of
     AddBindTask that is a refusal ends the dispatching. When the node does not take the task, the job has
     already moved it, and is not charged.
     */
    method Allocate(t: Task, n: NodeName, volumes: bool, others: bool) returns (ok: bool)
      requires Valid() && CanPlace(View(), t)
      modifies this, Jobs.Values, Nodes.Values
      ensures !volumes ==> !ok && Valid() && View() == old(View()) && Bound == old(Bound)
      ensures var fits := n in Nodes && !OnNode(old(View()), n, t.uid) && LessEqual(t.resreq, old(Nodes[n].Idle));
              (volumes && !fits ==>
                 !ok && JobsOk() && NodesOk() && NodesView() == old(NodesView()) && Shares == old(Shares) && Bound == old(Bound) &&
                 JobsView() == PutTask(old(JobsView()), t.(status := Status.Allocated, node := n))) &&
              (volumes && fits ==>
                 Valid() && OnlyBound(Placed(old(View()), t, n, Status.Allocated), View()) &&
                 SameExcept(old(JobsView()), JobsView(), t.job))
      ensures AllReady(old(Bound), Bound, t.job)
    {
      hide JobsOk, NodesOk, JobsView, NodesView, SharesMatch, PutTask, PutOn, GangReady, AllReady, OnlyBoundJobs, SameExcept, Get, Add, LessEqual;
      NoneBound(Bound, t.job);
      if !volumes {
        return false;
      }
      Keys();
      ShareAfterCharge(Shares, JobsView(), t.(status := Status.Allocated, node := n));
      var added := Place(t, n, Status.Allocated);
      if !added {
        return false;
      }
      AllocateFunc(t);
      Keys();
      OnlyBoundAtFirst(JobsView());
      OnlyPut(old(JobsView()), t.(status := Status.Allocated, node := n));
      var ready := JobReady(t.job, others);
      if !ready {
        return true;
      }
      ghost var placed := JobsView();
      ok := Dispatch(t.job);
      SameTwice(old(JobsView()), placed, JobsView(), t.job);
    }

    /** Dispatches every allocated task of a ready job, and touches no other job. */
    method Dispatch(j: JobId) returns (ok: bool)
      requires Valid() && j in JobsView() && GangReady(JobsView()[j])
      modifies this`Bound, Jobs.Values
      ensures Valid() && NodesView() == old(NodesView()) && OnlyBoundJobs(old(JobsView()), JobsView())
      ensures SameExcept(old(JobsView()), JobsView(), j)
      ensures AllReady(old(Bound), Bound, j)
      ensures ok ==> j in JobsView() && WithStatus(JobsView()[j].tasks, Status.Allocated) == {}
    {
      hide Valid, JobsOk, NodesOk, JobsView, NodesView, PutTask, GangReady, OnlyBoundJobs, AllReady, SameExcept;
      Keys();
      AllocatedBucket(j);
      var todo := Jobs[j].Bucket(Status.Allocated);
      OnlyBoundAtFirst(JobsView());
      NoneBound(Bound, j);
      while todo != {}
        invariant Valid() && NodesView() == old(NodesView()) && j in JobsView() && OnlyBoundJobs(old(JobsView()), JobsView())
        invariant SameExcept(old(JobsView()), JobsView(), j)
        invariant StillAllocated(JobsView()[j], todo)
        invariant AllReady(old(Bound), Bound, j)
        decreases todo
      {
        var u :| u in todo;
        var accepted: bool := *;
        TaskOf(j, u);
        var task := Jobs[j].Tasks[u];
        OneMoreBound(old(JobsView()), JobsView(), task);
        OneMoreReady(old(Bound), Bound, BindRequest(task, JobsView()[j]), j);
        StillAllocatedAfter(JobsView(), task, todo);
        OnlyPut(JobsView(), task.(status := Binding));
        SameTwice(old(JobsView()), JobsView(), PutTask(JobsView(), task.(status := Binding)), j);
        BindTask(task, accepted);
        Keys();
        if !accepted {
          return false;
        }
        todo := todo - {u};
      }
      return true;
    }

    lemma AllocatedBucket(j: JobId)
      requires Valid() && j in Jobs
      ensures j in JobsView() && StillAllocated(JobsView()[j], Jobs[j].Bucket(Status.Allocated))
    {
      Jobs[j].BucketIs(Status.Allocated);
    }

    lemma TaskOf(j: JobId, u: TaskId)
      requires Valid() && j in Jobs && j in JobsView() && u in JobsView()[j].tasks
      ensures u in Jobs[j].Tasks && Jobs[j].Tasks[u] == JobsView()[j].tasks[u]
      ensures Jobs[j].Tasks[u].job == j && Jobs[j].Tasks[u].uid == u
    {
    }
  }

  ghost predicate StillAllocated(j: JobState, todo: set<TaskId>) {
    todo == WithStatus(j.tasks, Status.Allocated)
  }

  lemma StillAllocatedAfter(jobs: JobMap, t: Task, todo: set<TaskId>)
    requires t.job in jobs && StillAllocated(jobs[t.job], todo)
    ensures StillAllocated(PutTask(jobs, t.(status := Binding))[t.job], todo - {t.uid})
  {
  }

  /** Every new bind request is for a task of job `j`, at a moment when its gang is ready. */
  ghost predicate AllReady(before: seq<BindRequest>, after: seq<BindRequest>, j: JobId) {
    before <= after &&
    forall k | |before| <= k < |after| :: after[k].task.job == j && GangReady(after[k].job)
  }

  /** The tasks of the bind requests, in order. */
  function Requested(bound: seq<BindRequest>): seq<Task> {
    seq(|bound|, i requires 0 <= i < |bound| => bound[i].task)
  }

  lemma NoneBound(bound: seq<BindRequest>, j: JobId)
    ensures AllReady(bound, bound, j)
  {
  }

  lemma OneMoreReady(before: seq<BindRequest>, after: seq<BindRequest>, r: BindRequest, j: JobId)
    requires AllReady(before, after, j) && r.task.job == j && GangReady(r.job)
    ensures AllReady(before, after + [r], j)
  {
  }

  lemma OnlyBoundAtFirst(jobs: JobMap)
    ensures OnlyBoundJobs(jobs, jobs) && forall j :: SameExcept(jobs, jobs, j)
  {
  }

  lemma OnlyPut(jobs: JobMap, t: Task)
    requires t.job in jobs
    ensures SameExcept(jobs, PutTask(jobs, t), t.job)
  {
  }

  lemma SameTwice(jobs: JobMap, jobs': JobMap, jobs'': JobMap, j: JobId)
    requires SameExcept(jobs, jobs', j) && SameExcept(jobs', jobs'', j)
    ensures SameExcept(jobs, jobs'', j)
  {
  }

  lemma PutTwice(jobs: JobMap, t: Task, t': Task)
    requires t.job in jobs && t.job == t'.job && t.uid == t'.uid
    ensures PutTask(PutTask(jobs, t), t') == PutTask(jobs, t')
  {
    assert jobs[t.job].tasks[t.uid := t][t.uid := t'] == jobs[t.job].tasks[t.uid := t'];
  }

  /** Some allocated tasks have gone on to Binding; nothing else has changed. */
  ghost predicate OnlyBoundJob(j: JobState, j': JobState) {
    j' == j.(tasks := j'.tasks) && j'.tasks.Keys == j.tasks.Keys &&
    forall u | u in j.tasks :: j'.tasks[u] == j.tasks[u] ||
                               (j.tasks[u].status.Allocated? && j'.tasks[u] == j.tasks[u].(status := Binding))
  }

  ghost predicate OnlyBoundJobs(jobs: JobMap, jobs': JobMap) {
    jobs'.Keys == jobs.Keys && forall j | j in jobs :: OnlyBoundJob(jobs[j], jobs'[j])
  }

  /** At most job `j` has changed. */
  ghost predicate SameExcept(jobs: JobMap, jobs': JobMap, j: JobId) {
    jobs'.Keys == jobs.Keys && forall i | i in jobs && i != j :: jobs'[i] == jobs[i]
  }

  ghost predicate OnlyBound(s: Snap, s': Snap) {
    s'.nodes == s.nodes && OnlyBoundJobs(s.jobs, s'.jobs)
  }

  /** Binding takes no task away from a gang. */
  lemma GangReadyAfterBinding(j: JobState, j': JobState)
    requires OnlyBoundJob(j, j')
    ensures GangReady(j) <==> GangReady(j')
    ensures GangPipelined(j) <==> GangPipelined(j')
  {
    hide GangReady, GangPipelined, OnlyBoundJob;
    SameOccupants(j, j', false);
    SameOccupants(j, j', true);
    SameGang(j, j');
  }

  lemma SameOccupants(j: JobState, j': JobState, withPipelined: bool)
    requires OnlyBoundJob(j, j')
    ensures OccupiedSet(j.tasks, withPipelined) == OccupiedSet(j'.tasks, withPipelined)
    ensures forall spec :: OccupiedOf(j.tasks, spec, withPipelined) == OccupiedOf(j'.tasks, spec, withPipelined)
    ensures j' == j.(tasks := j'.tasks)
  {
    forall u | u in j.tasks
      ensures Occupies(j.tasks[u], withPipelined) == Occupies(j'.tasks[u], withPipelined) && j.tasks[u].spec == j'.tasks[u].spec
    {
    }
  }

  lemma SameGang(j: JobState, j': JobState)
    requires j' == j.(tasks := j'.tasks)
    requires forall p :: OccupiedSet(j.tasks, p) == OccupiedSet(j'.tasks, p)
    requires forall p, spec :: OccupiedOf(j.tasks, spec, p) == OccupiedOf(j'.tasks, spec, p)
    ensures (GangReady(j) <==> GangReady(j')) && (GangPipelined(j) <==> GangPipelined(j'))
  {
    hide OccupiedSet, OccupiedOf;
  }

  lemma OneMoreBound(jobs: JobMap, jobs': JobMap, t: Task)
    requires OnlyBoundJobs(jobs, jobs') && t.job in jobs' && t.uid in jobs'[t.job].tasks
    requires jobs'[t.job].tasks[t.uid] == t && t.status.Allocated?
    ensures OnlyBoundJobs(jobs, PutTask(jobs', t.(status := Binding)))
    ensures t.job in jobs && GangReady(jobs[t.job]) ==> GangReady(jobs'[t.job])
  {
    GangReadyAfterBinding(jobs[t.job], jobs'[t.job]);
  }

  /** The drf charge of the task can be taken back, and its node knows it. */
  ghost predicate CanEvict(s: Snap, t: Task) {
    InJob(s, t) && SameTask(Stored(s, t), t) && AllocatedStatus(Stored(s, t).status) &&
    (t.node in s.nodes ==>
       t.uid in s.nodes[t.node].tasks && SameTask(s.nodes[t.node].tasks[t.uid], t) &&
       !s.nodes[t.node].tasks[t.uid].status.Pipelined?)
  }

  function Evicted(s: Snap, t: Task): Snap
    requires t.job in s.jobs
  {
    var t' := t.(status := Releasing);
    Snap(PutTask(s.jobs, t'), PutOn(s.nodes, t.node, t'))
  }

  /** The task is known and nothing is charged for it yet. */
  ghost predicate CanPlace(s: Snap, t: Task) {
    InJob(s, t) && SameTask(Stored(s, t), t) && !Counts(Share, Stored(s, t).status)
  }

  function Placed(s: Snap, t: Task, n: NodeName, status: Status): Snap
    requires t.job in s.jobs
  {
    var t' := t.(status := status, node := n);
    Snap(PutTask(s.jobs, t'), PutOn(s.nodes, n, t'))
  }
}
