/**
 What every scheduling action keeps: jobs and nodes tell the same story, and no node promises more than
 will be idle in the future (pkg/scheduler/api/node_info.go, FutureIdle).
 */
module Promises {
  import opened Resources
  import opened Tasks
  import opened Jobs
  import opened Nodes
  import opened Sessions
  import opened Statements

  /** A node's copy of a task agrees with the job's, except that only the job hears of Binding. */
  predicate Matches(original: Task, copy: Task) {
    SameTask(original, copy) &&
    (original.status == copy.status || (original.status.Binding? && copy.status.Allocated?))
  }

  /** Tasks are stored under their own job and identifier, in one job only; a pending task has no node. */
  ghost predicate JobsKeyed(jobs: JobMap) {
    (forall j, u | j in jobs && u in jobs[j].tasks :: Keyed(j, u, jobs[j].tasks[u])) &&
    (forall i, j, u | i in jobs && j in jobs && u in jobs[i].tasks && u in jobs[j].tasks :: i == j)
  }

  ghost predicate Keyed(j: JobId, u: TaskId, t: Task) {
    t.job == j && t.uid == u && NonNegative(t.resreq) && (t.status.Pending? ==> t.node == "")
  }

  /** A task that a node holds is known to its job, if that is in the session, and is on that node. */
  ghost predicate NodesMatch(s: Snap) {
    forall n, u | n in s.nodes && u in s.nodes[n].tasks :: EntryMatches(s.jobs, n, u, s.nodes[n].tasks[u])
  }

  ghost predicate EntryMatches(jobs: JobMap, n: NodeName, u: TaskId, copy: Task) {
    copy.uid == u && (copy.job in jobs ==> u in jobs[copy.job].tasks) &&
    forall j | j in jobs && u in jobs[j].tasks :: jobs[j].tasks[u].node == n && Matches(jobs[j].tasks[u], copy)
  }

  ghost predicate Linked(s: Snap) {
    JobsKeyed(s.jobs) && NodesMatch(s) && "" !in s.nodes
  }

  lemma KeyedAfterPut(jobs: JobMap, t: Task)
    requires JobsKeyed(jobs) && t.job in jobs && t.uid in jobs[t.job].tasks && Keyed(t.job, t.uid, t)
    ensures JobsKeyed(PutTask(jobs, t))
  {
    var jobs' := PutTask(jobs, t);
    assert forall j | j in jobs :: jobs'[j].tasks.Keys == jobs[j].tasks.Keys;
  }

  /** No dimension of any node is promised beyond what will be idle. */
  ghost predicate Kept(s: Snap) {
    forall n, d | n in s.nodes :: Future(s.nodes[n], d) >= 0
  }

  ghost predicate Sound(s: Snap) {
    Linked(s) && Kept(s)
  }

  /** A pending task is on no node. */
  lemma PendingIsNowhere(s: Snap, t: Task)
    requires Linked(s) && InJob(s, t) && Stored(s, t) == t && t.status.Pending?
    ensures t.node == "" && forall n :: !OnNode(s, n, t.uid)
  {
  }

  ghost predicate FutureMoves(node: NodeState, node': NodeState, t: Task, d: Dim) {
    Future(node', d) == Future(node, d) - Promise(t, d) + (if t.uid in node.tasks then Promise(node.tasks[t.uid], d) else 0)
  }

  /** What a task takes from the future of its node. */
  function Promise(t: Task, d: Dim): int {
    Weight(t, Used, d) - Weight(t, ReleasingR, d) + Weight(t, PipelinedR, d)
  }

  /** The four terms of Future after a node stores `t`. */
  lemma FutureAfterPut(node: NodeState, node': NodeState, t: Task)
    requires node' == node.(tasks := node.tasks[t.uid := t])
    ensures forall d :: FutureMoves(node, node', t, d)
  {
    TotalPut(node.tasks, t.uid, t);
  }

  ghost predicate Fits(s: Snap, n: NodeName, r: Resource)
    requires n in s.nodes
  {
    forall d :: Get(r, d) <= Future(s.nodes[n], d)
  }

  /** Placing a pending task within a node's future idle resource is sound. */
  lemma PlaceKeeps(s: Snap, t: Task, n: NodeName, status: Status)
    requires Sound(s) && InJob(s, t) && Stored(s, t) == t && t.status.Pending?
    requires n in s.nodes && Fits(s, n, t.resreq)
    requires status.Allocated? || status.Pipelined?
    ensures Sound(Placed(s, t, n, status))
  {
    PlacedLinked(s, t, n, status);
    PendingIsNowhere(s, t);
    PlacedKept(s, t, n, status);
  }

  lemma PlacedKept(s: Snap, t: Task, n: NodeName, status: Status)
    requires Kept(s) && t.job in s.jobs && n in s.nodes && !OnNode(s, n, t.uid) && Fits(s, n, t.resreq)
    requires status.Allocated? || status.Pipelined?
    ensures Kept(Placed(s, t, n, status))
  {
    var t', s' := t.(status := status, node := n), Placed(s, t, n, status);
    FutureAfterPut(s.nodes[n], s'.nodes[n], t');
    forall m, d | m in s.nodes
      ensures Future(s'.nodes[m], d) >= 0
    {
      assert Future(s.nodes[m], d) >= 0;
      assert FutureMoves(s.nodes[n], s'.nodes[n], t', d) && Promise(t', d) == Get(t.resreq, d);
    }
  }

  lemma PlacedLinked(s: Snap, t: Task, n: NodeName, status: Status)
    requires Linked(s) && InJob(s, t) && Stored(s, t) == t && t.status.Pending?
    requires n in s.nodes && !status.Pending?
    ensures Linked(Placed(s, t, n, status))
  {
    var s', t' := Placed(s, t, n, status), t.(status := status, node := n);
    PendingIsNowhere(s, t);
    KeyedAfterPut(s.jobs, t');
    forall m, u | m in s'.nodes && u in s'.nodes[m].tasks
      ensures EntryMatches(s'.jobs, m, u, s'.nodes[m].tasks[u])
    {
      if u == t.uid {
        assert !OnNode(s, m, u);
        assert m == n && s'.nodes[m].tasks[u] == t';
        OwnEntry(s.jobs, n, t');
      } else {
        assert u in s.nodes[m].tasks;
        OtherEntry(s.jobs, m, u, s.nodes[m].tasks[u], t');
      }
    }
  }

  /** The entry of the task that was moved, and of any other task. */
  lemma OwnEntry(jobs: JobMap, n: NodeName, t': Task)
    requires JobsKeyed(jobs) && t'.job in jobs && t'.uid in jobs[t'.job].tasks && t'.node == n
    ensures EntryMatches(PutTask(jobs, t'), n, t'.uid, t')
  {
  }

  lemma OtherEntry(jobs: JobMap, n: NodeName, u: TaskId, copy: Task, t': Task)
    requires EntryMatches(jobs, n, u, copy) && t'.job in jobs && t'.uid != u
    ensures EntryMatches(PutTask(jobs, t'), n, u, copy)
  {
  }

  /** Evicting a running task is sound and frees its request in the node's future. */
  lemma EvictKeeps(s: Snap, t: Task)
    requires Sound(s) && CanEvict(s, t) && Stored(s, t).status.Running? && t.node in s.nodes && t.status.Running?
    ensures Sound(Evicted(s, t))
    ensures forall d :: Future(Evicted(s, t).nodes[t.node], d) == Future(s.nodes[t.node], d) + Get(t.resreq, d)
    ensures forall n | n in s.nodes && n != t.node :: Evicted(s, t).nodes[n] == s.nodes[n]
  {
    EvictedLinked(s, t);
    var t' := t.(status := Releasing);
    FutureAfterPut(s.nodes[t.node], Evicted(s, t).nodes[t.node], t');
    assert EntryMatches(s.jobs, t.node, t.uid, s.nodes[t.node].tasks[t.uid]);
    assert Matches(Stored(s, t), s.nodes[t.node].tasks[t.uid]);
    forall d
      ensures Future(Evicted(s, t).nodes[t.node], d) == Future(s.nodes[t.node], d) + Get(t.resreq, d)
      ensures Get(t.resreq, d) >= 0
    {
      assert FutureMoves(s.nodes[t.node], Evicted(s, t).nodes[t.node], t', d);
    }
    forall m, d | m in s.nodes
      ensures Future(Evicted(s, t).nodes[m], d) >= 0
    {
      assert Future(s.nodes[m], d) >= 0;
    }
  }

  lemma EvictedLinked(s: Snap, t: Task)
    requires Linked(s) && CanEvict(s, t) && Stored(s, t).status.Running? && t.node in s.nodes
    ensures Linked(Evicted(s, t))
  {
    var s', t' := Evicted(s, t), t.(status := Releasing);
    assert Keyed(t.job, t.uid, Stored(s, t));
    KeyedAfterPut(s.jobs, t');
    EvictedMatch(s, t);
  }

  lemma EvictedMatch(s: Snap, t: Task)
    requires JobsKeyed(s.jobs) && NodesMatch(s) && CanEvict(s, t) && t.node in s.nodes
    ensures NodesMatch(Evicted(s, t))
  {
    var s', t' := Evicted(s, t), t.(status := Releasing);
    assert EntryMatches(s.jobs, t.node, t.uid, s.nodes[t.node].tasks[t.uid]);
    forall m, u | m in s'.nodes && u in s'.nodes[m].tasks
      ensures EntryMatches(s'.jobs, m, u, s'.nodes[m].tasks[u])
    {
      assert u in s.nodes[m].tasks;
      assert EntryMatches(s.jobs, m, u, s.nodes[m].tasks[u]);
      if u == t.uid {
        assert m == t.node;
        OwnEntry(s.jobs, m, t');
      } else {
        OtherEntry(s.jobs, m, u, s.nodes[m].tasks[u], t');
      }
    }
  }

  lemma BindKeeps(s: Snap, s': Snap)
    requires Sound(s) && OnlyBound(s, s')
    ensures Sound(s')
  {
    forall n, u | n in s'.nodes && u in s'.nodes[n].tasks
      ensures EntryMatches(s'.jobs, n, u, s'.nodes[n].tasks[u])
    {
      assert EntryMatches(s.jobs, n, u, s.nodes[n].tasks[u]);
      BoundEntry(s.jobs, s'.jobs, n, u, s.nodes[n].tasks[u]);
    }
    BoundKeyed(s.jobs, s'.jobs);
  }

  lemma BoundEntry(jobs: JobMap, jobs': JobMap, n: NodeName, u: TaskId, copy: Task)
    requires EntryMatches(jobs, n, u, copy) && OnlyBoundJobs(jobs, jobs')
    ensures EntryMatches(jobs', n, u, copy)
  {
    forall j | j in jobs' && u in jobs'[j].tasks
      ensures jobs'[j].tasks[u].node == n && Matches(jobs'[j].tasks[u], copy)
    {
      assert OnlyBoundJob(jobs[j], jobs'[j]);
      assert Matches(jobs[j].tasks[u], copy);
    }
  }

  lemma BoundKeyed(jobs: JobMap, jobs': JobMap)
    requires JobsKeyed(jobs) && OnlyBoundJobs(jobs, jobs')
    ensures JobsKeyed(jobs')
  {
  }

  /** The assertion inside FutureIdle holds, and FutureIdle is the future of the node. */
  lemma FutureIdleIs(ssn: Session, n: NodeName)
    requires ssn.Valid() && Kept(ssn.View()) && n in ssn.Nodes
    ensures LessEqual(ssn.Nodes[n].Pipelined, Add(ssn.Nodes[n].Idle, ssn.Nodes[n].Releasing))
    ensures n in ssn.NodesView()
    ensures forall d :: Get(ssn.Nodes[n].FutureIdle(), d) == Future(ssn.NodesView()[n], d)
    ensures NonNegative(ssn.Nodes[n].FutureIdle())
    ensures n in ssn.View().nodes && forall r :: LessEqual(r, ssn.Nodes[n].FutureIdle()) ==> Fits(ssn.View(), n, r)
  {
    var node := ssn.Nodes[n];
    TotalNonNegative(node.Tasks);
    forall d
      ensures 0 <= Get(node.Pipelined, d) <= Get(Add(node.Idle, node.Releasing), d)
      ensures Get(node.Idle, d) + Get(node.Releasing, d) - Get(node.Pipelined, d) == Future(ssn.NodesView()[n], d)
    {
      assert Future(ssn.View().nodes[n], d) >= 0;
      assert Total(node.Tasks, PipelinedR, d) >= 0;
    }
    LessEqualFromDimensions(node.Pipelined, Add(node.Idle, node.Releasing));
    forall r | LessEqual(r, node.FutureIdle())
      ensures Fits(ssn.View(), n, r)
    {
      LessEqualIsPerDimension(r, node.FutureIdle());
    }
  }

  /** The idle resource of the node, recomputed, covers the request. */
  ghost predicate IdleCovers(s: Snap, n: NodeName, r: Resource)
    requires n in s.nodes
  {
    forall d :: Get(r, d) <= Get(s.nodes[n].allocatable, d) - Total(s.nodes[n].tasks, Used, d)
  }

  lemma IdleIs(ssn: Session, n: NodeName, r: Resource)
    requires ssn.Valid() && n in ssn.Nodes
    ensures n in ssn.View().nodes && (LessEqual(r, ssn.Nodes[n].Idle) <==> IdleCovers(ssn.View(), n, r))
  {
    var node := ssn.Nodes[n];
    LessEqualIsPerDimension(r, node.Idle);
    assert forall d :: Get(node.Idle, d) + Get(node.Used, d) == Get(node.Allocatable, d);
  }

  /** The task is pipelined on node `n`, in its job and on the node. In a sound session it was within n's future idle then. */
  ghost predicate PipelinedAt(s: Snap, t: Task, n: NodeName) {
    InJob(s, t) && Stored(s, t) == t.(status := Pipelined, node := n) &&
    OnNode(s, n, t.uid) && s.nodes[n].tasks[t.uid] == t.(status := Pipelined, node := n)
  }

  lemma JustPlaced(s: Snap, t: Task, n: NodeName)
    requires InJob(s, t) && n in s.nodes
    ensures t.job in s.jobs && PipelinedAt(Placed(s, t, n, Pipelined), t, n)
  {
  }

  /** What fits in the future of a node passes the comparison with its FutureIdle. */
  lemma FitsFutureIdle(ssn: Session, n: NodeName, r: Resource)
    requires ssn.Valid() && Kept(ssn.View()) && n in ssn.Nodes && n in ssn.View().nodes && Fits(ssn.View(), n, r)
    ensures LessEqual(ssn.Nodes[n].Pipelined, Add(ssn.Nodes[n].Idle, ssn.Nodes[n].Releasing)) && LessEqual(r, ssn.Nodes[n].FutureIdle())
  {
    FutureIdleIs(ssn, n);
    LessEqualFromDimensions(r, ssn.Nodes[n].FutureIdle());
  }

  /** Passing the comparison with a node's FutureIdle is fitting in its future. */
  lemma FitsIff(ssn: Session, n: NodeName, r: Resource)
    requires ssn.Valid() && Kept(ssn.View()) && n in ssn.Nodes
    ensures n in ssn.View().nodes && LessEqual(ssn.Nodes[n].Pipelined, Add(ssn.Nodes[n].Idle, ssn.Nodes[n].Releasing))
    ensures LessEqual(r, ssn.Nodes[n].FutureIdle()) <==> Fits(ssn.View(), n, r)
  {
    hide Session.Valid, Session.View, Kept;
    FutureIdleIs(ssn, n);
    if Fits(ssn.View(), n, r) {
      FitsFutureIdle(ssn, n, r);
    }
  }

  /** A session starts sound: nothing is pipelined yet, so a node's future is at least what is idle. */
  lemma StartsKept(ssn: Session)
    requires ssn.Valid()
    requires forall n, u | n in ssn.NodesView() && u in ssn.NodesView()[n].tasks :: !ssn.NodesView()[n].tasks[u].status.Pipelined?
    ensures Kept(ssn.View())
  {
    forall n, d | n in ssn.View().nodes
      ensures Future(ssn.View().nodes[n], d) >= 0
    {
      var node := ssn.Nodes[n];
      TotalNonNegative(node.Tasks);
      NonePipelined(node.Tasks, d);
      assert Get(node.Idle, d) >= 0 && Get(node.Idle, d) + Get(node.Used, d) == Get(node.Allocatable, d);
    }
  }

  lemma {:induction false} NonePipelined(tasks: TaskMap, d: Dim)
    requires forall u | u in tasks :: !tasks[u].status.Pipelined?
    ensures Total(tasks, PipelinedR, d) == 0
    decreases |tasks|
  {
    if tasks == map[] {
      assert Weights(tasks, PipelinedR, d) == map[];
    } else {
      var u :| u in tasks;
      NonePipelined(tasks - {u}, d);
      TotalRemove(tasks, u);
    }
  }

  /** A statement in progress: the session is sound, and discarding leads back to `start`. */
  ghost predicate Undoing(start: Snap, s: Snap, ops: seq<Operation>) {
    Sound(s) && Undoable(s, ops) && UndoAll(s, ops) == start && Current(s, ops)
  }

  lemma UndoingStarts(s: Snap)
    requires Sound(s)
    ensures Undoing(s, s, [])
  {
  }

  /** What the guards of the actions establish: a running victim, or a pending task within a node's future. */
  ghost predicate Guarded(s: Snap, step: Step) {
    InJob(s, step.task) && Stored(s, step.task) == step.task &&
    match step
    case StepEvict(t) => t.status.Running? && t.node in s.nodes && NodeHolds(s, t.node, t)
    case _ => step.task.status.Pending? && step.node in s.nodes && Fits(s, step.node, step.task.resreq)
  }

  /** A guarded step is accepted, keeps the session sound, and is undone exactly. */
  lemma GuardedStep(s: Snap, step: Step)
    requires Sound(s) && Guarded(s, step)
    ensures step.task.job in s.jobs && Accepts(s, step) && Sound(Apply(s, step))
    ensures step.StepEvict? || !OnNode(s, step.node, step.task.uid)
    ensures CanUndo(Apply(s, step), OperationOf(step)) && Undo(Apply(s, step), OperationOf(step)) == s
  {
    hide Kept, Fits, Undo, CanUndo, Placed, Evicted;
    if step.StepEvict? {
      EvictKeeps(s, step.task);
    } else {
      PendingIsNowhere(s, step.task);
      PlaceKeeps(s, step.task, step.node, if step.StepAllocate? then Status.Allocated else Pipelined);
    }
    UndoneExactly(s, step);
  }

  /** A guarded step takes a statement in progress further. */
  lemma StepExtends(start: Snap, s: Snap, ops: seq<Operation>, step: Step)
    requires Undoing(start, s, ops) && Guarded(s, step)
    ensures Accepts(s, step) && (step.StepEvict? || !OnNode(s, step.node, step.task.uid))
    ensures Undoing(start, Apply(s, step), ops + [OperationOf(step)])
  {
    hide Sound, Guarded, Undoable, UndoAll, Undo, CanUndo, Apply, Current, Accepts;
    GuardedStep(s, step);
    StillCurrentAfter(s, ops, step);
    OneMore(s, ops, Apply(s, step), OperationOf(step));
  }

  /** The step's task is still running or pending, so it is not the task of an earlier operation. */
  lemma StillCurrentAfter(s: Snap, ops: seq<Operation>, step: Step)
    requires Sound(s) && Current(s, ops) && Guarded(s, step)
    requires CanUndo(Apply(s, step), OperationOf(step))
    ensures Current(Apply(s, step), ops + [OperationOf(step)])
  {
    forall i | 0 <= i < |ops|
      ensures ops[i].task.uid != step.task.uid && CanUndo(Apply(s, step), ops[i])
    {
      assert CanUndo(s, ops[i]);
      OtherTask(s, ops[i], step);
    }
    hide CanUndo, Apply;
  }

  lemma OtherTask(s: Snap, op: Operation, step: Step)
    requires Sound(s) && CanUndo(s, op) && Guarded(s, step)
    ensures op.task.uid != step.task.uid && CanUndo(Apply(s, step), op)
  {
    hide Kept, NodesMatch;
    assert Keyed(step.task.job, step.task.uid, step.task);
    assert op.task.uid == step.task.uid ==> op.task.job == step.task.job;
  }

  /** The tasks of a heap: they all wait, pending, in job `j`. */
  ghost predicate Waiting(jobs: JobMap, j: JobId, left: set<TaskId>) {
    j in jobs && forall u | u in left :: u in jobs[j].tasks && jobs[j].tasks[u].status.Pending?
  }

  /** All heaps hold pending tasks of their own job. */
  ghost predicate AllWaiting(jobs: JobMap, pending: map<JobId, set<TaskId>>) {
    forall j | j in pending :: Waiting(jobs, j, pending[j])
  }

  lemma WaitingIn(jobs: JobMap, pending: map<JobId, set<TaskId>>, j: JobId)
    requires AllWaiting(jobs, pending) && j in pending
    ensures Waiting(jobs, j, pending[j])
    ensures forall u | u in pending[j] :: Waiting(jobs, j, {u})
  {
  }

  /** A popped task as the session holds it. */
  method InspectTask(ssn: Session, j: JobId, u: TaskId) returns (t: Task)
    requires ssn.Valid() && Sound(ssn.View()) && Waiting(ssn.View().jobs, j, {u})
    ensures t.uid == u && t.job == j && InJob(ssn.View(), t) && Stored(ssn.View(), t) == t && t.status.Pending?
  {
    t := ssn.Jobs[j].Tasks[u];
  }

  /** Tasks that wait still wait, except possibly `mover`. */
  ghost predicate KeepsWaiting(s: Snap, s': Snap, mover: Task) {
    s'.jobs.Keys == s.jobs.Keys && s'.nodes.Keys == s.nodes.Keys &&
    forall j, u | j in s.jobs && u in s.jobs[j].tasks && s.jobs[j].tasks[u].status.Pending? && u != mover.uid ::
      u in s'.jobs[j].tasks && s'.jobs[j].tasks[u] == s.jobs[j].tasks[u]
  }

  /** Every heap, less the task that moved, still waits. */
  lemma SparedHeaps(s: Snap, s': Snap, mover: Task, heaps: map<JobId, set<TaskId>>, j: JobId)
    requires KeepsWaiting(s, s', mover) && AllWaiting(s.jobs, heaps) && j in heaps && JobsKeyed(s.jobs)
    requires mover.job == j && InJob(s, mover)
    ensures AllWaiting(s'.jobs, heaps[j := heaps[j] - {mover.uid}])
  {
  }
}
