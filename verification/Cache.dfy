/**
 The scheduler cache under pod events, bindings and evictions (pkg/scheduler/cache/event_handlers.go and
 cache.go). A pod is represented by the task that NewTaskInfo makes of it.
 */
module PodCache {
  import opened Options
  import opened Resources
  import opened Tasks
  import opened Jobs
  import opened Nodes

  /** Who is filed where: the tasks of every job and of every node. */
  datatype Books = Books(jobs: map<JobId, TaskMap>, nodes: map<NodeName, TaskMap>)

  /** The pods that exist, each as the informer delivered it last. */
  type Pods = map<TaskId, Task>

  predicate Terminated(s: Status) {
    s.Succeeded? || s.Failed?
  }

  /** The task holds its request on the node it names. */
  predicate Holds(t: Task) {
    t.node != "" && !Terminated(t.status)
  }

  predicate IsCached(b: Books, pod: Task) {
    pod.job in b.jobs && pod.uid in b.jobs[pod.job]
  }

  predicate IsOn(b: Books, n: NodeName, u: TaskId) {
    n in b.nodes && u in b.nodes[n]
  }

  /** The cache's version of a pod: a job's task, or else the pod itself. */
  function Cached(b: Books, pod: Task): Task {
    if IsCached(b, pod) then b.jobs[pod.job][pod.uid] else pod
  }

  predicate IsIn(b: Books, j: JobId, u: TaskId) {
    j in b.jobs && u in b.jobs[j]
  }

  /** A cached task is on the node it names exactly when it holds its request, and on no other. */
  ghost predicate JobEntry(b: Books, pods: Pods, j: JobId, u: TaskId) {
    IsIn(b, j, u) ==>
      var t := b.jobs[j][u];
      t.uid == u && t.job == j && u in pods && pods[u].job == j && !t.status.Pipelined? && (t.status.Pending? ==> t.node == "") &&
      (Holds(t) ==> t.node in b.nodes) &&
      forall n :: IsOn(b, n, u) <==> n == t.node && Holds(t)
  }

  /** Whatever is on a node is a cached task in its current version, or a pod without a job that names the node. */
  ghost predicate NodeEntry(b: Books, pods: Pods, n: NodeName, u: TaskId) {
    IsOn(b, n, u) ==>
      var t := b.nodes[n][u];
      t.uid == u && t.node == n && !t.status.Pipelined? && u in pods && pods[u].job == t.job &&
      if t.job == "" then pods[u].node == n else IsIn(b, t.job, u) && b.jobs[t.job][u] == t
  }

  ghost predicate Charged(b: Books, pods: Pods) {
    "" !in b.nodes && "" !in b.jobs &&
    (forall j, u :: JobEntry(b, pods, j, u)) && (forall n, u :: NodeEntry(b, pods, n, u)) && forall u | u in pods :: pods[u].uid == u
  }

  /** Every pod is charged to at most one node. */
  lemma ChargedOnce(b: Books, pods: Pods, u: TaskId, n: NodeName, m: NodeName)
    requires Charged(b, pods) && IsOn(b, n, u) && IsOn(b, m, u)
    ensures n == m
  {
    assert NodeEntry(b, pods, n, u) && NodeEntry(b, pods, m, u);
    var t := b.nodes[n][u];
    if t.job != "" {
      assert JobEntry(b, pods, t.job, u);
    }
  }

  /** A pod of a job is on a node exactly when its cached task names that node, is placed and is not terminated. */
  lemma OnNodeIffHolding(b: Books, pods: Pods, pod: Task, n: NodeName)
    requires Charged(b, pods) && IsCached(b, pod)
    ensures IsOn(b, n, pod.uid) <==> Cached(b, pod).node == n && Holds(Cached(b, pod))
    ensures IsOn(b, n, pod.uid) ==> b.nodes[n][pod.uid] == Cached(b, pod)
  {
    assert JobEntry(b, pods, pod.job, pod.uid) && NodeEntry(b, pods, n, pod.uid);
    if IsOn(b, n, pod.uid) {
      var t := b.nodes[n][pod.uid];
      assert pods[pod.uid].job == t.job == pod.job;
    }
  }

  // ----- what the operations do to the books

  /** A node first heard of through a pod gets an entry. */
  function WithNode(b: Books, n: NodeName): Books {
    if n == "" || n in b.nodes then b else b.(nodes := b.nodes[n := map[]])
  }

  function TasksOf(b: Books, j: JobId): TaskMap {
    if j in b.jobs then b.jobs[j] else map[]
  }

  /** After a successful addTask. */
  function Filed(b: Books, t: Task): Books {
    var b' := WithNode(b, t.node);
    Books(if t.job == "" then b'.jobs else b'.jobs[t.job := TasksOf(b', t.job)[t.uid := t]],
          if Holds(t) && t.node in b'.nodes then b'.nodes[t.node := b'.nodes[t.node][t.uid := t]] else b'.nodes)
  }

  /** After deleteTask. */
  function Unfiled(b: Books, t: Task): Books {
    Books(if t.job != "" && t.job in b.jobs then b.jobs[t.job := b.jobs[t.job] - {t.uid}] else b.jobs,
          if t.node in b.nodes then b.nodes[t.node := b.nodes[t.node] - {t.uid}] else b.nodes)
  }

  /** The books have this version of the pod, in its job and, if it holds its request there, on its node. */
  predicate Shows(b: Books, pod: Task) {
    (pod.job != "" ==> IsCached(b, pod) && Cached(b, pod) == pod) && (Holds(pod) ==> IsOn(b, pod.node, pod.uid) && b.nodes[pod.node][pod.uid] == pod)
  }

  lemma FiledShows(b: Books, t: Task)
    ensures Shows(Filed(b, t), t)
  {
  }

  /** A cached task becomes `t` in its job and on node `n`. */
  function Moved(b: Books, t: Task, n: NodeName): Books
    requires t.job in b.jobs && n in b.nodes
  {
    Books(b.jobs[t.job := b.jobs[t.job][t.uid := t]], b.nodes[n := b.nodes[n][t.uid := t]])
  }

  /** A pod the informer has not delivered is nowhere. */
  lemma UnknownPodIsNowhere(b: Books, pods: Pods, u: TaskId)
    requires Charged(b, pods) && u !in pods
    ensures forall j :: !IsIn(b, j, u)
    ensures forall n :: !IsOn(b, n, u)
  {
    forall j ensures !IsIn(b, j, u) { assert JobEntry(b, pods, j, u); }
    forall n ensures !IsOn(b, n, u) { assert NodeEntry(b, pods, n, u); }
  }

  lemma WithNodeKeeps(b: Books, pods: Pods, n: NodeName)
    requires Charged(b, pods)
    ensures Charged(WithNode(b, n), pods)
  {
    var b' := WithNode(b, n);
    assert forall m, u :: IsOn(b', m, u) <==> IsOn(b, m, u);
    forall j, u ensures JobEntry(b', pods, j, u) {
      assert JobEntry(b, pods, j, u);
    }
    forall m, u ensures NodeEntry(b', pods, m, u) {
      assert NodeEntry(b, pods, m, u);
    }
  }

  lemma FiledKeeps(b: Books, pods: Pods, t: Task)
    requires Charged(b, pods) && t.uid !in pods && !t.status.Pipelined? && (t.status.Pending? ==> t.node == "")
    ensures Charged(Filed(b, t), pods[t.uid := t])
  {
    hide Charged;
    WithNodeKeeps(b, pods, t.node);
    FiledInWithNode(WithNode(b, t.node), pods, t);
  }

  lemma FiledInWithNode(b: Books, pods: Pods, t: Task)
    requires Charged(b, pods) && t.uid !in pods && !t.status.Pipelined? && (t.status.Pending? ==> t.node == "") && (t.node == "" || t.node in b.nodes)
    ensures Charged(Filed(b, t), pods[t.uid := t])
  {
    UnknownPodIsNowhere(b, pods, t.uid);
    var b', pods' := Filed(b, t), pods[t.uid := t];
    FiledIs(b, t);
    forall j, u ensures JobEntry(b', pods', j, u) {
      assert JobEntry(b, pods, j, u);
    }
    forall n, u ensures NodeEntry(b', pods', n, u) {
      assert NodeEntry(b, pods, n, u);
    }
  }

  lemma FiledIs(b: Books, t: Task)
    requires t.node == "" || t.node in b.nodes
    ensures forall n, u :: IsOn(Filed(b, t), n, u) <==> IsOn(b, n, u) || (u == t.uid && n == t.node && n in b.nodes && Holds(t))
    ensures forall j, u :: IsIn(Filed(b, t), j, u) <==> IsIn(b, j, u) || (u == t.uid && j == t.job && t.job != "")
    ensures Filed(b, t).nodes.Keys == b.nodes.Keys && Filed(b, t).jobs.Keys == b.jobs.Keys + if t.job == "" then {} else {t.job}
  {
  }

  /** A pod that could not be charged is known to the informer and to nobody else. */
  lemma RefusedKeeps(b: Books, pods: Pods, t: Task)
    requires Charged(b, pods) && t.uid !in pods
    ensures Charged(WithNode(b, t.node), pods[t.uid := t])
  {
    WithNodeKeeps(b, pods, t.node);
    var b', pods' := WithNode(b, t.node), pods[t.uid := t];
    UnknownPodIsNowhere(b', pods, t.uid);
    forall j, u ensures JobEntry(b', pods', j, u) {
      assert JobEntry(b', pods, j, u);
    }
    forall n, u ensures NodeEntry(b', pods', n, u) {
      assert NodeEntry(b', pods, n, u);
    }
  }

  lemma UnfiledKeeps(b: Books, pods: Pods, pod: Task)
    requires Charged(b, pods) && pod.uid in pods && pods[pod.uid] == pod
    ensures Charged(Unfiled(b, Cached(b, pod)), pods - {pod.uid})
  {
    var t := Cached(b, pod);
    var b', pods' := Unfiled(b, t), pods - {pod.uid};
    CachedIsAll(b, pods, pod);
    UnfiledIs(b, t);
    forall j, u ensures JobEntry(b', pods', j, u) {
      assert JobEntry(b, pods, j, u);
    }
    forall n, u ensures NodeEntry(b', pods', n, u) {
      assert NodeEntry(b, pods, n, u);
    }
  }

  /** A delivered pod is nowhere but where its cached version says. */
  lemma CachedIsAll(b: Books, pods: Pods, pod: Task)
    requires Charged(b, pods) && pod.uid in pods && pods[pod.uid] == pod
    ensures var t := Cached(b, pod);
            t.uid == pod.uid && t.job == pod.job && (forall n | IsOn(b, n, pod.uid) :: n == t.node) &&
            forall j | IsIn(b, j, pod.uid) :: j == t.job && t.job != ""
  {
    var t := Cached(b, pod);
    assert JobEntry(b, pods, pod.job, pod.uid);
    forall n | IsOn(b, n, pod.uid) ensures n == t.node {
      assert NodeEntry(b, pods, n, pod.uid);
    }
    forall j | IsIn(b, j, pod.uid) ensures j == t.job && t.job != "" {
      assert JobEntry(b, pods, j, pod.uid);
    }
  }

  lemma UnfiledIs(b: Books, t: Task)
    ensures forall n, u :: IsOn(Unfiled(b, t), n, u) <==> IsOn(b, n, u) && !(n == t.node && u == t.uid)
    ensures forall j, u :: IsIn(Unfiled(b, t), j, u) <==> IsIn(b, j, u) && !(j == t.job && u == t.uid && t.job != "")
    ensures Unfiled(b, t).nodes.Keys == b.nodes.Keys && Unfiled(b, t).jobs.Keys == b.jobs.Keys
    ensures forall n, u | IsOn(Unfiled(b, t), n, u) :: Unfiled(b, t).nodes[n][u] == b.nodes[n][u]
    ensures forall j, u | IsIn(Unfiled(b, t), j, u) :: Unfiled(b, t).jobs[j][u] == b.jobs[j][u]
  {
  }

  /** A cached task that takes a new status, or a place if it held none, stays charged once. */
  lemma MovedKeeps(b: Books, pods: Pods, t: Task, t': Task)
    requires Charged(b, pods) && IsCached(b, t) && Cached(b, t) == t
    requires t'.uid == t.uid && t'.job == t.job && Holds(t') && !t'.status.Pipelined? && !t'.status.Pending? && t'.node in b.nodes && (Holds(t) ==> t.node == t'.node)
    ensures Charged(Moved(b, t', t'.node), pods)
  {
    assert JobEntry(b, pods, t.job, t.uid);
    var b' := Moved(b, t', t'.node);
    MovedIs(b, t', t'.node);
    assert forall n :: IsOn(b, n, t.uid) <==> n == t.node && Holds(t);
    forall j, u ensures JobEntry(b', pods, j, u) {
      assert JobEntry(b, pods, j, u);
    }
    forall n, u ensures NodeEntry(b', pods, n, u) {
      assert NodeEntry(b, pods, n, u);
    }
  }

  lemma MovedIs(b: Books, t: Task, m: NodeName)
    requires t.job in b.jobs && m in b.nodes
    ensures forall n, u :: IsOn(Moved(b, t, m), n, u) <==> IsOn(b, n, u) || (n == m && u == t.uid)
    ensures forall j, u :: IsIn(Moved(b, t, m), j, u) <==> IsIn(b, j, u) || (j == t.job && u == t.uid)
    ensures Moved(b, t, m).nodes.Keys == b.nodes.Keys && Moved(b, t, m).jobs.Keys == b.jobs.Keys
  {
  }

  /** An update that is ignored changes what the informer has delivered, and nothing else. */
  lemma IgnoredKeeps(b: Books, pods: Pods, pod: Task)
    requires Charged(b, pods) && IsCached(b, pod)
    ensures Charged(b, pods[pod.uid := pod])
  {
    var pods' := pods[pod.uid := pod];
    assert JobEntry(b, pods, pod.job, pod.uid);
    forall j, u ensures JobEntry(b, pods', j, u) {
      assert JobEntry(b, pods, j, u);
    }
    forall n, u ensures NodeEntry(b, pods', n, u) {
      assert NodeEntry(b, pods, n, u);
    }
  }

  // ----- the cache

  /** What NewTaskInfo makes of a pod: statuses that only the scheduler gives do not occur, and a placed pod is not pending. */
  ghost predicate FromPod(pod: Task) {
    NonNegative(pod.resreq) && (pod.status.Pending? ==> pod.node == "") && !pod.status.Pipelined? && !pod.status.Allocated? && !pod.status.Binding?
  }

  /** Filing the task leaves its job's sums right. */
  ghost predicate Clean(jobs: map<JobId, TaskMap>, t: Task) {
    t.job != "" && t.job in jobs ==> AddsCleanly(jobs[t.job], t)
  }

  lemma NewIsClean(b: Books, t: Task)
    requires !IsIn(b, t.job, t.uid)
    ensures Clean(b.jobs, t)
  {
  }

  /** The task's request fits beside the tasks of the node it names. */
  ghost predicate Room(offers: map<NodeName, (Option<KubeNode>, Resource)>, nodes: map<NodeName, TaskMap>, t: Task) {
    t.node in offers && t.node in nodes && offers[t.node].0.Some? ==>
      forall d :: Get(t.resreq, d) + Total(nodes[t.node], Used, d) <= Get(offers[t.node].1, d)
  }

  class SchedulerCache {
    var Jobs: map<JobId, JobInfo>
    var Nodes: map<NodeName, NodeInfo>
    /** The pods as the informer delivered them. */
    ghost var Pods: Pods

    ghost predicate JobsOk()
      reads this`Jobs, Jobs.Values
    {
      (forall j | j in Jobs :: Jobs[j].Valid() && Jobs[j].UID == j)
    }

    ghost predicate NodesOk()
      reads this`Nodes, Nodes.Values
    {
      (forall n | n in Nodes :: Nodes[n].Valid() && Nodes[n].Name == n)
    }

    ghost function JobTasks(): map<JobId, TaskMap>
      reads this`Jobs, Jobs.Values
    {
      map j | j in Jobs :: Jobs[j].Tasks
    }

    ghost function NodeTasks(): map<NodeName, TaskMap>
      reads this`Nodes, Nodes.Values
    {
      map n | n in Nodes :: Nodes[n].Tasks
    }

    ghost function View(): Books
      reads this`Jobs, this`Nodes, Jobs.Values, Nodes.Values
    {
      Books(JobTasks(), NodeTasks())
    }

    /** Every ledger agrees with its recomputation, and every pod is charged once. */
    ghost predicate Valid()
      reads this, Jobs.Values, Nodes.Values
    {
      JobsOk() && NodesOk() && Charged(View(), Pods)
    }

    constructor (nodes: map<NodeName, NodeInfo>)
      requires forall n | n in nodes :: nodes[n].Valid() && nodes[n].Name == n && n != "" && nodes[n].Tasks == map[]
      ensures Valid() && Nodes == nodes && Jobs == map[] && Pods == map[]
    {
      Jobs, Nodes, Pods := map[], nodes, map[];
      new;
      assert forall n, u :: NodeEntry(View(), Pods, n, u);
      assert forall j, u :: JobEntry(View(), Pods, j, u);
    }

    // ----- steps on one job or one node

    /** A node of which only the name is known. */
    method NewNode(n: NodeName) returns (node: NodeInfo)
      ensures fresh(node) && node.Valid() && node.Name == n && node.Node.None? && node.Tasks == map[]
    {
      node := new NodeInfo(None);
      node.Name := n;
    }

    /** Makes sure that the named node has an entry. */
    method EnsureNode(n: NodeName)
      requires NodesOk()
      modifies this`Nodes
      ensures NodesOk()
      ensures NodeTasks() == if n == "" || n in old(Nodes) then old(NodeTasks()) else old(NodeTasks())[n := map[]]
      ensures if n == "" || n in old(Nodes) then Nodes == old(Nodes)
              else n in Nodes && fresh(Nodes[n]) && Nodes == old(Nodes)[n := Nodes[n]] && Nodes[n].Node.None?
    {
      hide NodeInfo.Valid;
      if n != "" && n !in Nodes {
        var node := NewNode(n);
        Nodes := Nodes[n := node];
        assert forall m | m in Nodes && m != n :: Nodes[m] == old(Nodes)[m] && Nodes[m].Tasks == old(Nodes[m].Tasks);
      }
    }

    /** node.AddTask, of a task that names the node. */
    method ChargeNode(t: Task) returns (r: AddResult)
      requires NodesOk() && t.node in Nodes && t.node != "" && NonNegative(t.resreq)
      modifies Nodes[t.node]
      ensures NodesOk() && !r.OnDifferentNode?
      ensures r.AlreadyOnNode? <==> t.uid in old(NodeTasks())[t.node]
      ensures r.Added? <==> t.uid !in old(NodeTasks())[t.node] && (old(Nodes[t.node].Node).None? || t.status.Pipelined? || LessEqual(t.resreq, old(Nodes[t.node].Idle)))
      ensures NodeTasks() == if r.Added? then old(NodeTasks())[t.node := old(NodeTasks())[t.node][t.uid := t]] else old(NodeTasks())
    {
      hide NodeInfo.Valid;
      r := Nodes[t.node].AddTask(t);
      assert t.(node := t.node) == t;
      assert forall n | n in Nodes && n != t.node :: Nodes[n].Tasks == old(Nodes[n].Tasks);
    }

    /** A node that lacks the resources for a pod it should run is out of sync. */
    method MarkOutOfSync(n: NodeName)
      requires NodesOk() && n in Nodes
      modifies Nodes[n]
      ensures NodesOk() && NodeTasks() == old(NodeTasks()) && Nodes[n].State == OutOfSync
    {
      Nodes[n].State := OutOfSync;
    }

    method ReleaseNode(t: Task)
      requires NodesOk()
      modifies if t.node in Nodes then {Nodes[t.node]} else {}
      ensures NodesOk()
      ensures NodeTasks() == Unfiled(Books(map[], old(NodeTasks())), t).nodes && Offers() == old(Offers())
    {
      hide NodeInfo.Valid;
      if t.node in Nodes {
        Nodes[t.node].RemoveTask(t);
      }
    }

    method GetOrCreateJob(j: JobId)
      requires JobsOk()
      modifies this`Jobs
      ensures JobsOk()
      ensures if j == "" || j in old(Jobs) then Jobs == old(Jobs)
              else j in Jobs && fresh(Jobs[j]) && Jobs == old(Jobs)[j := Jobs[j]] && Jobs[j].Tasks == map[]
      ensures JobTasks() == if j == "" || j in old(Jobs) then old(JobTasks()) else old(JobTasks())[j := map[]]
    {
      hide JobInfo.Valid;
      if j != "" && j !in Jobs {
        var job := new JobInfo(j, "", 0, map[], 0);
        Jobs := Jobs[j := job];
      }
    }

    method AddToJob(t: Task)
      requires JobsOk() && t.job in Jobs && NonNegative(t.resreq)
      modifies Jobs[t.job]
      ensures JobsOk() <==> AddsCleanly(old(JobTasks())[t.job], t)
      ensures JobTasks() == old(JobTasks())[t.job := old(JobTasks())[t.job][t.uid := t]]
    {
      hide JobInfo.Valid;
      Jobs[t.job].AddTaskInfo(t);
      assert forall j | j in Jobs && j != t.job :: Jobs[j].Tasks == old(Jobs[j].Tasks);
    }

    method DeleteFromJob(t: Task)
      requires JobsOk()
      modifies if t.job in Jobs then {Jobs[t.job]} else {}
      ensures JobsOk() && JobTasks() == if t.job != "" && t.job in Jobs then old(JobTasks())[t.job := old(JobTasks())[t.job] - {t.uid}] else old(JobTasks())
    {
      hide JobInfo.Valid;
      if t.job != "" && t.job in Jobs {
        var _ := Jobs[t.job].DeleteTaskInfo(t);
        assert forall j | j in Jobs && j != t.job :: Jobs[j].Tasks == old(Jobs[j].Tasks);
      }
    }

    method SetStatus(t: Task, status: Status) returns (t': Task)
      requires JobsOk() && t.job in Jobs && NonNegative(t.resreq)
      modifies Jobs[t.job]
      ensures JobsOk() && t' == t.(status := status)
      ensures JobTasks() == old(JobTasks())[t.job := old(JobTasks())[t.job][t.uid := t']]
    {
      hide JobInfo.Valid;
      t' := Jobs[t.job].UpdateTaskStatus(t, status);
      assert forall j | j in Jobs && j != t.job :: Jobs[j].Tasks == old(Jobs[j].Tasks);
    }

    // ----- the informer's events

    /** The node named by `t`, if there is one, can take it. */
    ghost predicate Takes(t: Task)
      reads this`Nodes, Nodes.Values
    {
      t.node in Nodes && Nodes[t.node].Node.Some? && !t.status.Pipelined? ==> LessEqual(t.resreq, Nodes[t.node].Idle)
    }

    /** Kubernetes' side of the nodes, which pod events leave alone. */
    ghost function Offers(): map<NodeName, (Option<KubeNode>, Resource)>
      reads this`Nodes, Nodes.Values
    {
      map n | n in Nodes :: (Nodes[n].Node, Nodes[n].Allocatable)
    }

    /** A node that is right takes a task exactly if its request fits beside those of the tasks that are there. */
    lemma TakesIffRoom(t: Task)
      requires NodesOk() && !t.status.Pipelined? && NonNegative(t.resreq)
      ensures Takes(t) <==> Room(Offers(), NodeTasks(), t)
    {
      if t.node in Nodes && Nodes[t.node].Node.Some? {
        var node := Nodes[t.node];
        assert node.Valid();
        forall d ensures Get(node.Idle, d) + Total(node.Tasks, Used, d) == Get(node.Allocatable, d) && Get(node.Idle, d) >= 0 {
          assert Get(node.Used, d) == Total(node.Tasks, Used, d);
        }
        LessEqualIsPerDimension(t.resreq, node.Idle);
      }
    }

    /** The first half of addTask. */
    method ChargePod(pi: Task) returns (ok: bool)
      requires NodesOk() && NonNegative(pi.resreq)
      modifies this`Nodes, Nodes.Values
      ensures NodesOk()
      ensures ok <==> (Holds(pi) ==> !IsOn(Books(map[], old(NodeTasks())), pi.node, pi.uid) && old(Takes(pi)))
      ensures NodeTasks() == if ok then Filed(Books(map[], old(NodeTasks())), pi).nodes else WithNode(Books(map[], old(NodeTasks())), pi.node).nodes
    {
      hide NodesOk, LessEqual, NonNegative;
      NodeKeys();
      EnsureNode(pi.node);
      ok := true;
      if pi.node != "" && !Terminated(pi.status) {
        var r := ChargeNode(pi);
        ok := r.Added?;
        if r.CannotAllocate? {
          MarkOutOfSync(pi.node);
        }
      }
    }

    lemma ViewNodes()
      ensures View().nodes == NodeTasks()
    {
    }

    lemma NodeKeys()
      ensures NodeTasks().Keys == Nodes.Keys
    {
    }

    lemma JobKeys()
      ensures JobTasks().Keys == Jobs.Keys
      ensures forall j | j in Jobs :: JobTasks()[j] == Jobs[j].Tasks
    {
    }

    /** The second half of addTask. */
    method FilePod(pi: Task)
      requires JobsOk() && NonNegative(pi.resreq)
      modifies this`Jobs, Jobs.Values
      ensures JobsOk() <==> Clean(old(JobTasks()), pi)
      ensures JobTasks() == Filed(Books(old(JobTasks()), map[]), pi).jobs
    {
      hide JobsOk, NonNegative;
      JobKeys();
      GetOrCreateJob(pi.job);
      if pi.job != "" {
        JobKeys();
        AddToJob(pi);
      }
    }

    /**
     addTask: charges the node, then files the task in its job; a refused task is filed nowhere. A task that
     is filed already leaves its job's sums right only as AddTaskInfo says.
     */
    method AddTask(pi: Task) returns (ok: bool)
      requires JobsOk() && NodesOk() && NonNegative(pi.resreq)
      modifies this`Jobs, this`Nodes, Jobs.Values, Nodes.Values
      ensures JobsOk() <==> !ok || Clean(old(View()).jobs, pi)
      ensures NodesOk() && View() == if ok then Filed(old(View()), pi) else WithNode(old(View()), pi.node)
      ensures ok <==> (Holds(pi) ==> !IsOn(old(View()), pi.node, pi.uid) && old(Takes(pi)))
    {
      hide JobsOk, NodesOk, LessEqual, NonNegative, JobTasks, NodeTasks, Clean;
      ok := ChargePod(pi);
      if ok {
        FilePod(pi);
      }
    }

    /** deleteTask: takes the task out of its job and off the node it names. */
    method DeleteTask(pi: Task)
      requires JobsOk() && NodesOk()
      modifies Jobs.Values, Nodes.Values
      ensures JobsOk() && NodesOk() && View() == Unfiled(old(View()), pi) && Offers() == old(Offers())
    {
      hide JobsOk, NodesOk, JobTasks, NodeTasks, Offers;
      JobKeys();
      DeleteFromJob(pi);
      ReleaseNode(pi);
    }

    /** addPod, for a pod the informer has not delivered before. */
    method AddPod(pod: Task) returns (ok: bool)
      requires Valid() && FromPod(pod) && pod.uid !in Pods
      modifies this, Jobs.Values, Nodes.Values
      ensures Valid() && Pods == old(Pods)[pod.uid := pod]
      ensures View() == if ok then Filed(old(View()), pod) else WithNode(old(View()), pod.node)
      ensures ok <==> (Holds(pod) ==> old(Takes(pod)))
    {
      hide JobsOk, NodesOk, View, LessEqual, NonNegative, Charged, Clean;
      UnknownPodIsNowhere(View(), Pods, pod.uid);
      NewIsClean(View(), pod);
      FiledKeeps(View(), Pods, pod);
      RefusedKeeps(View(), Pods, pod);
      ok := AddTask(pod);
      Pods := Pods[pod.uid := pod];
    }

    /** The cached version of a pod. */
    method CachedTask(pod: Task) returns (task: Task, found: bool)
      requires JobsOk()
      ensures found == IsCached(View(), pod) && task == Cached(View(), pod)
    {
      if pod.job in Jobs && pod.uid in Jobs[pod.job].Tasks {
        return Jobs[pod.job].Tasks[pod.uid], true;
      }
      return pod, false;
    }

    /** deletePod: takes out the cached version, which knows of bindings the pod does not show. */
    method DeletePod(pod: Task)
      requires Valid() && pod.uid in Pods && Pods[pod.uid] == pod
      modifies this`Pods, Jobs.Values, Nodes.Values
      ensures Valid() && Pods == old(Pods) - {pod.uid}
      ensures View() == Unfiled(old(View()), Cached(old(View()), pod)) && Offers() == old(Offers())
    {
      hide JobsOk, NodesOk, View, Charged, Offers;
      UnfiledKeeps(View(), Pods, pod);
      var task, _ := CachedTask(pod);
      DeleteTask(task);
      Pods := Pods - {pod.uid};
    }

    /** updatePod: ignored while the cache has bound the pod and the pod does not show it; else deleted and added. */
    method UpdatePod(oldPod: Task, newPod: Task) returns (ok: bool)
      requires Valid() && oldPod.uid in Pods && Pods[oldPod.uid] == oldPod
      requires FromPod(newPod) && (newPod.uid == oldPod.uid || newPod.uid !in Pods)
      modifies this, Jobs.Values, Nodes.Values
      ensures Valid() && Pods == (old(Pods) - {oldPod.uid})[newPod.uid := newPod]
      ensures if Ignored(old(View()), newPod) then ok && View() == old(View())
              else var without := Unfiled(old(View()), Cached(old(View()), oldPod));
                   ok == (Holds(newPod) ==> Room(old(Offers()), without.nodes, newPod)) &&
                   View() == if ok then Filed(without, newPod) else WithNode(without, newPod.node)
      ensures ok && (newPod.node != "" || !AllocatedStatus(Cached(old(View()), newPod).status)) ==> Shows(View(), newPod)
    {
      hide JobsOk, NodesOk, View, Charged, NonNegative, Takes, Room, Offers, Shows;
      if newPod.uid !in Pods {
        UnknownPodIsNowhere(View(), Pods, newPod.uid);
      }
      var task, found := CachedTask(newPod);
      if found && AllocatedStatus(task.status) && newPod.node == "" {
        CachedFacts(newPod);
        IgnoredKeeps(View(), Pods, newPod);
        Pods := Pods[newPod.uid := newPod];
        assert Pods == (old(Pods) - {oldPod.uid})[newPod.uid := newPod];
        assert Cached(old(View()), newPod) == task;
        return true;
      }
      DeletePod(oldPod);
      FiledShows(View(), newPod);
      TakesIffRoom(newPod);
      ViewNodes();
      ok := AddPod(newPod);
    }

    // ----- the scheduler's own steps

    /** What is known of a cached task. */
    lemma CachedFacts(pod: Task)
      requires Valid() && IsCached(View(), pod)
      ensures var t := Cached(View(), pod);
              pod.uid in Pods && t.uid == pod.uid && t.job == pod.job && t.job in Jobs && NonNegative(t.resreq) && !t.status.Pipelined? &&
              IsCached(View(), t) && Cached(View(), t) == t && "" !in Nodes &&
              (Holds(t) ==> t.node in Nodes && IsOn(View(), t.node, t.uid) && NodeTasks()[t.node][t.uid] == t) &&
              forall n :: IsOn(View(), n, t.uid) <==> n == t.node && Holds(t)
    {
      assert JobEntry(View(), Pods, pod.job, pod.uid);
      assert Jobs[pod.job].Valid();
      OnNodeIffHolding(View(), Pods, pod, Cached(View(), pod).node);
    }

    /** Filing a task twice leaves the later version. */
    lemma Overwritten(jobs: map<JobId, TaskMap>, t: Task, t': Task, t'': Task)
      requires t.job in jobs && t.uid in jobs[t.job] && jobs[t.job][t.uid] == t && t'.uid == t.uid && t'.job == t.job && t''.uid == t.uid
      ensures var jobs' := jobs[t.job := jobs[t.job][t.uid := t']];
              jobs'[t.job := jobs'[t.job][t.uid := t]] == jobs &&
              jobs'[t.job := jobs'[t.job][t.uid := t'']] == jobs[t.job := jobs[t.job][t.uid := t'']]
    {
      assert jobs[t.job][t.uid := t'][t.uid := t] == jobs[t.job];
      assert jobs[t.job][t.uid := t'][t.uid := t''] == jobs[t.job][t.uid := t''];
    }

    /** node.UpdateTask of a cached task. */
    method UpdateOnNode(t: Task)
      requires NodesOk() && NonNegative(t.resreq) && t.node in Nodes && !t.status.Pipelined?
      requires Takes(t) || (t.uid in NodeTasks()[t.node] && NodeTasks()[t.node][t.uid].resreq == t.resreq && !NodeTasks()[t.node][t.uid].status.Pipelined?)
      modifies Nodes[t.node]
      ensures NodesOk() && NodeTasks() == old(NodeTasks())[t.node := old(NodeTasks())[t.node][t.uid := t]]
    {
      hide NodeInfo.Valid;
      Nodes[t.node].UpdateTask(t);
      assert t.(node := t.node) == t;
      assert forall n | n in Nodes && n != t.node :: Nodes[n].Tasks == old(Nodes[n].Tasks);
    }

    /** node.AddTask of a job's task, which then names the node. */
    method BindToNode(task: Task, n: NodeName) returns (ok: bool)
      requires JobsOk() && NodesOk() && n in Nodes && n != "" && NonNegative(task.resreq) && !task.status.Pipelined?
      requires IsCached(View(), task) && Cached(View(), task) == task
      modifies Jobs[task.job], Nodes[n]
      ensures JobsOk() && NodesOk()
      ensures ok <==> (task.node == "" || task.node == n) && !IsOn(old(View()), n, task.uid) && old(Takes(task.(node := n)))
      ensures View() == if ok then Moved(old(View()), task.(node := n), n) else old(View())
    {
      hide JobsOk, NodesOk, NonNegative;
      JobKeys();
      ok := AddBound(task, n);
      if ok {
        NameNode(task, n);
      }
    }

    method AddBound(task: Task, n: NodeName) returns (ok: bool)
      requires NodesOk() && n in Nodes && n != "" && NonNegative(task.resreq) && !task.status.Pipelined?
      modifies Nodes[n]
      ensures NodesOk()
      ensures ok <==> (task.node == "" || task.node == n) && task.uid !in old(NodeTasks())[n] && old(Takes(task.(node := n)))
      ensures NodeTasks() == if ok then old(NodeTasks())[n := old(NodeTasks())[n][task.uid := task.(node := n)]] else old(NodeTasks())
    {
      hide NodeInfo.Valid;
      var r := Nodes[n].AddTask(task);
      ok := r.Added?;
      assert forall m | m in Nodes && m != n :: Nodes[m].Tasks == old(Nodes[m].Tasks);
    }

    method NameNode(task: Task, n: NodeName)
      requires JobsOk() && task.job in Jobs && task.uid in Jobs[task.job].Tasks && Jobs[task.job].Tasks[task.uid] == task
      modifies Jobs[task.job]
      ensures JobsOk() && JobTasks() == old(JobTasks())[task.job := old(JobTasks())[task.job][task.uid := task.(node := n)]]
    {
      hide JobInfo.Valid;
      var _ := Jobs[task.job].SetNodeName(task, n);
      assert forall j | j in Jobs && j != task.job :: Jobs[j].Tasks == old(Jobs[j].Tasks);
    }

    /** Evict: the cached task becomes releasing on its node. The source ends the process if a finished task no longer fits there. */
    method Evict(taskInfo: Task) returns (ok: bool)
      requires Valid()
      requires IsCached(View(), taskInfo) && Terminated(Cached(View(), taskInfo).status) ==> Takes(Cached(View(), taskInfo))
      modifies Jobs.Values, Nodes.Values
      ensures Valid()
      ensures var t := Cached(old(View()), taskInfo);
              ok == (IsCached(old(View()), taskInfo) && t.node in Nodes) &&
              View() == if ok then Moved(old(View()), t.(status := Releasing), t.node) else old(View())
    {
      hide JobsOk, NodesOk, JobTasks, NodeTasks, Charged, NonNegative;
      JobKeys();
      NodeKeys();
      var task, found := CachedTask(taskInfo);
      if !found {
        return false;
      }
      if task.node !in Nodes {
        return false;
      }
      CachedFacts(taskInfo);
      MovedKeeps(View(), Pods, task, task.(status := Releasing));
      task := SetStatus(task, Releasing);
      UpdateOnNode(task);
      return true;
    }

    /** AddBindTask: the cached task becomes binding on the chosen node; on failure nothing has changed. */
    method AddBindTask(taskInfo: Task) returns (ok: bool)
      requires Valid()
      modifies Jobs.Values, Nodes.Values
      ensures Valid()
      ensures var t := Cached(old(View()), taskInfo);
              var bound := t.(status := Binding, node := taskInfo.node);
              ok == (IsCached(old(View()), taskInfo) && taskInfo.node in Nodes && (t.node == "" || t.node == taskInfo.node) &&
                     !IsOn(old(View()), taskInfo.node, t.uid) && old(Takes(bound))) &&
              View() == if ok then Moved(old(View()), bound, taskInfo.node) else old(View())
    {
      hide JobsOk, NodesOk, JobTasks, NodeTasks, Charged, NonNegative;
      JobKeys();
      NodeKeys();
      var task, found := CachedTask(taskInfo);
      if !found {
        return false;
      }
      if taskInfo.node !in Nodes {
        return false;
      }
      CachedFacts(taskInfo);
      ghost var bound := task.(status := Binding, node := taskInfo.node);
      if task.node == "" || task.node == taskInfo.node {
        MovedKeeps(View(), Pods, task, bound);
      }
      ok := TryBind(task, taskInfo.node);
    }

    /** Moves the task to binding and charges the node; takes the move back if the node refuses. */
    method TryBind(cached: Task, n: NodeName) returns (ok: bool)
      requires JobsOk() && NodesOk() && n in Nodes && n != "" && NonNegative(cached.resreq)
      requires IsCached(View(), cached) && Cached(View(), cached) == cached
      modifies Jobs.Values, Nodes.Values
      ensures JobsOk() && NodesOk()
      ensures var bound := cached.(status := Binding, node := n);
              ok == ((cached.node == "" || cached.node == n) && !IsOn(old(View()), n, cached.uid) && old(Takes(bound))) &&
              View() == if ok then Moved(old(View()), bound, n) else old(View())
    {
      hide JobsOk, NodesOk, JobTasks, NodeTasks, NonNegative, Takes;
      JobKeys();
      Overwritten(JobTasks(), cached, cached.(status := Binding), cached.(status := Binding, node := n));
      var originalStatus := cached.status;
      var task := SetStatus(cached, Binding);
      ok := BindToNode(task, n);
      if !ok {
        task := SetStatus(task, originalStatus);
      }
    }
  }

  /** An update is ignored while the cache has given the pod a place that the pod does not show yet. */
  predicate Ignored(b: Books, pod: Task) {
    IsCached(b, pod) && AllocatedStatus(Cached(b, pod).status) && pod.node == ""
  }
}
