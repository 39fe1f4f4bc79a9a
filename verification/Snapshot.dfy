/**
 How a session opens over the cache: Snapshot (pkg/scheduler/cache/cache.go), openSession
 (pkg/scheduler/framework/session.go), and the shares drf adds up (pkg/scheduler/plugins/drf/drf.go).
 */
module Opening {
  import opened Resources
  import opened Tasks
  import opened Jobs
  import opened Nodes
  import opened Sessions
  import opened Promises
  import opened PodCache

  /** A clone of a node: its ledger is right, over the tasks the books have there. */
  ghost predicate ClonedNode(b: Books, n: NodeName, node: NodeInfo)
    reads node
  {
    n in b.nodes && node.Valid() && node.Name == n && node.Node.Some? && node.Tasks == b.nodes[n]
  }

  ghost predicate ClonedJob(b: Books, j: JobId, job: JobInfo)
    reads job
  {
    j in b.jobs && job.Valid() && job.UID == j && job.Tasks == b.jobs[j]
  }

  /** Cloning a node of the cache changes nothing there: its copies name it already. */
  method CloneNode(cache: SchedulerCache, n: NodeName) returns (node: NodeInfo)
    requires cache.Valid() && n in cache.Nodes && cache.Nodes[n].Node.Some?
    modifies cache.Nodes[n]
    ensures cache.Valid() && cache.View() == old(cache.View()) && cache.Nodes[n].Node == old(cache.Nodes[n].Node)
    ensures fresh(node) && ClonedNode(cache.View(), n, node)
  {
    hide NodeInfo.Valid, JobInfo.Valid, Charged;
    NamedAlready(cache, n);
    node := cache.Nodes[n].Clone();
    assert forall m | m in cache.Nodes && m != n :: cache.Nodes[m].Tasks == old(cache.Nodes[m].Tasks);
  }

  lemma NamedAlready(cache: SchedulerCache, n: NodeName)
    requires cache.Valid() && n in cache.Nodes
    ensures Named(cache.Nodes[n].Tasks, n) == cache.Nodes[n].Tasks
  {
    forall u | u in cache.Nodes[n].Tasks ensures cache.Nodes[n].Tasks[u].node == n {
      assert NodeEntry(cache.View(), cache.Pods, n, u);
      assert IsOn(cache.View(), n, u);
    }
  }

  /** Snapshot of the nodes: all that are ready. */
  method SnapshotNodes(cache: SchedulerCache) returns (nodes: map<NodeName, NodeInfo>)
    requires cache.Valid() && forall n | n in cache.Nodes && cache.Nodes[n].State.Ready? :: cache.Nodes[n].Node.Some?
    modifies cache.Nodes.Values
    ensures cache.Valid() && cache.View() == old(cache.View())
    ensures forall n | n in nodes :: fresh(nodes[n]) && ClonedNode(cache.View(), n, nodes[n])
    ensures nodes.Keys == set n | n in cache.Nodes && old(cache.Nodes[n].State.Ready?)
  {
    hide SchedulerCache.Valid, SchedulerCache.View, ClonedNode;
    var todo := set n | n in cache.Nodes && cache.Nodes[n].State.Ready?;
    ghost var ready := todo;
    nodes := map[];
    while todo != {}
      invariant todo <= ready && nodes.Keys == ready - todo
      invariant cache.Valid() && cache.View() == old(cache.View())
      invariant forall n | n in todo :: n in cache.Nodes && cache.Nodes[n].Node.Some?
      invariant forall n | n in nodes :: fresh(nodes[n]) && ClonedNode(cache.View(), n, nodes[n])
      decreases todo
    {
      var n :| n in todo;
      todo := todo - {n};
      var node := CloneNode(cache, n);
      nodes := nodes[n := node];
    }
  }

  /** Snapshot of the jobs: `wanted` are those with a pod group, a known queue and a positive validity check. */
  method SnapshotJobs(cache: SchedulerCache, wanted: set<JobId>) returns (jobs: map<JobId, JobInfo>)
    requires cache.Valid()
    ensures forall j | j in jobs :: fresh(jobs[j]) && ClonedJob(cache.View(), j, jobs[j])
    ensures jobs.Keys == wanted * cache.Jobs.Keys
  {
    hide JobInfo.Valid, NodeInfo.Valid, Charged;
    var todo := wanted * cache.Jobs.Keys;
    jobs := map[];
    while todo != {}
      invariant todo <= wanted * cache.Jobs.Keys && jobs.Keys == wanted * cache.Jobs.Keys - todo
      invariant forall j | j in jobs :: fresh(jobs[j]) && ClonedJob(cache.View(), j, jobs[j])
      decreases todo
    {
      var j :| j in todo;
      todo := todo - {j};
      var job := cache.Jobs[j].Clone();
      jobs := jobs[j := job];
    }
  }

  /** drf adds up the requests of a job's tasks in allocated statuses. */
  method ShareOf(job: JobInfo) returns (share: Resource)
    requires job.Valid() && forall u | u in job.Tasks :: !job.Tasks[u].status.Pipelined?
    ensures SumsTo(share, job.Tasks, Share)
  {
    hide Total, Get, Add;
    share := EMPTY;
    var todo := job.Tasks.Keys;
    NothingShared();
    assert Visited(job.Tasks, todo) == map[];
    while todo != {}
      invariant todo <= job.Tasks.Keys && SumsTo(share, Visited(job.Tasks, todo), Share)
      decreases todo
    {
      var u :| u in todo;
      VisitedOneMore(job.Tasks, todo, u);
      SumAfterAdd(share, Visited(job.Tasks, todo), Share, job.Tasks[u]);
      todo := todo - {u};
      if AllocatedStatus(job.Tasks[u].status) {
        share := Add(share, job.Tasks[u].resreq);
      }
    }
    assert Visited(job.Tasks, todo) == job.Tasks;
  }

  lemma NothingShared()
    ensures SumsTo(EMPTY, map[], Share)
  {
    TotalEmpty();
  }

  method SharesOf(jobs: map<JobId, JobInfo>) returns (shares: map<JobId, Resource>)
    requires forall j | j in jobs :: jobs[j].Valid() && forall u | u in jobs[j].Tasks :: !jobs[j].Tasks[u].status.Pipelined?
    ensures forall j | j in jobs :: j in shares && SumsTo(shares[j], jobs[j].Tasks, Share)
  {
    hide JobInfo.Valid, SumsTo;
    shares := map[];
    var todo := jobs.Keys;
    while todo != {}
      invariant todo <= jobs.Keys && shares.Keys == jobs.Keys - todo
      invariant forall j | j in shares :: SumsTo(shares[j], jobs[j].Tasks, Share)
      decreases todo
    {
      var j :| j in todo;
      todo := todo - {j};
      var share := ShareOf(jobs[j]);
      shares := shares[j := share];
    }
  }

  /**
   A session over the clones of a right cache is right and sound: jobs and nodes tell the same story, and
   nothing is promised beyond what will be idle.
   */
  method OpenSession(cache: SchedulerCache, wanted: set<JobId>) returns (ssn: Session)
    requires cache.Valid() && forall n | n in cache.Nodes && cache.Nodes[n].State.Ready? :: cache.Nodes[n].Node.Some?
    modifies cache.Nodes.Values
    ensures cache.Valid() && cache.View() == old(cache.View())
    ensures fresh(ssn) && ssn.Valid() && Sound(ssn.View()) && ssn.Bound == []
    ensures ssn.Jobs.Keys == wanted * cache.Jobs.Keys && ssn.Nodes.Keys == set n | n in cache.Nodes && old(cache.Nodes[n].State.Ready?)
  {
    hide JobInfo.Valid, NodeInfo.Valid, Charged, SumsTo, Sound, SchedulerCache.Valid, SchedulerCache.View, ClonedJob, ClonedNode, Session.Valid;
    var nodes := SnapshotNodes(cache);
    var jobs := SnapshotJobs(cache, wanted);
    ClonesAre(cache, jobs, nodes);
    var shares := SharesOf(jobs);
    ssn := new Session(jobs, nodes, shares);
    OpensSound(cache, ssn);
  }

  lemma ClonesAre(cache: SchedulerCache, jobs: map<JobId, JobInfo>, nodes: map<NodeName, NodeInfo>)
    requires cache.Valid()
    requires forall j | j in jobs :: ClonedJob(cache.View(), j, jobs[j])
    requires forall n | n in nodes :: ClonedNode(cache.View(), n, nodes[n])
    ensures forall j | j in jobs :: jobs[j].Valid() && jobs[j].UID == j && forall u | u in jobs[j].Tasks :: !jobs[j].Tasks[u].status.Pipelined?
    ensures forall n | n in nodes :: nodes[n].Valid() && nodes[n].Name == n && n != "" && nodes[n].Node.Some?
  {
    hide JobInfo.Valid, NodeInfo.Valid;
    forall j, u | j in jobs && u in jobs[j].Tasks ensures !jobs[j].Tasks[u].status.Pipelined? {
      assert JobEntry(cache.View(), cache.Pods, j, u) && IsIn(cache.View(), j, u);
    }
  }

  /** Why: a copy on a node is its job's task in the same version, and nothing is pipelined yet. */
  lemma OpensSound(cache: SchedulerCache, ssn: Session)
    requires cache.Valid() && ssn.Valid()
    requires forall j | j in ssn.Jobs :: ClonedJob(cache.View(), j, ssn.Jobs[j])
    requires forall n | n in ssn.Nodes :: ClonedNode(cache.View(), n, ssn.Nodes[n])
    ensures Sound(ssn.View())
  {
    hide JobInfo.Valid, NodeInfo.Valid, SharesMatch, JobEntry, NodeEntry, EntryMatches, JobsKeyed, NodesMatch, Kept;
    KeysOpen(cache, ssn);
    forall n, u | n in ssn.View().nodes && u in ssn.View().nodes[n].tasks
      ensures EntryMatches(ssn.View().jobs, n, u, ssn.View().nodes[n].tasks[u]) && !ssn.View().nodes[n].tasks[u].status.Pipelined?
    {
      EntryOpens(cache, ssn, n, u);
    }
    EntriesOpen(ssn.View());
    StartsKept(ssn);
  }

  lemma EntriesOpen(s: Snap)
    requires forall n, u | n in s.nodes && u in s.nodes[n].tasks :: EntryMatches(s.jobs, n, u, s.nodes[n].tasks[u])
    ensures NodesMatch(s)
  {
    hide EntryMatches;
  }

  lemma KeysOpen(cache: SchedulerCache, ssn: Session)
    requires cache.Valid() && ssn.Valid()
    requires forall j | j in ssn.Jobs :: ClonedJob(cache.View(), j, ssn.Jobs[j])
    ensures JobsKeyed(ssn.View().jobs) && "" !in ssn.View().nodes
  {
    hide NodeInfo.Valid, JobInfo.Valid, SharesMatch, JobsKeyed, Keyed;
    var jobs := ssn.JobsView();
    forall j, u | j in jobs && u in jobs[j].tasks ensures FiledRight(jobs, cache.Pods, j, u) {
      assert JobEntry(cache.View(), cache.Pods, j, u) && IsIn(cache.View(), j, u);
      KeyedIn(ssn.Jobs[j], u);
    }
    OneJobEach(jobs, cache.Pods);
  }

  lemma KeyedIn(job: JobInfo, u: TaskId)
    requires job.Valid() && u in job.Tasks && (job.Tasks[u].status.Pending? ==> job.Tasks[u].node == "")
    ensures Keyed(job.UID, u, job.Tasks[u])
  {
  }

  /** The task is keyed right, and its pod belongs to this job. */
  ghost predicate FiledRight(jobs: JobMap, pods: Pods, j: JobId, u: TaskId)
    requires j in jobs && u in jobs[j].tasks
  {
    Keyed(j, u, jobs[j].tasks[u]) && u in pods && pods[u].job == j
  }

  lemma OneJobEach(jobs: JobMap, pods: Pods)
    requires forall j, u | j in jobs && u in jobs[j].tasks :: FiledRight(jobs, pods, j, u)
    ensures JobsKeyed(jobs)
  {
    forall i, j, u | i in jobs && j in jobs && u in jobs[i].tasks && u in jobs[j].tasks ensures i == j {
      assert FiledRight(jobs, pods, i, u) && FiledRight(jobs, pods, j, u);
    }
  }

  lemma EntryOpens(cache: SchedulerCache, ssn: Session, n: NodeName, u: TaskId)
    requires cache.Valid() && n in ssn.Nodes && u in ssn.Nodes[n].Tasks && ClonedNode(cache.View(), n, ssn.Nodes[n])
    requires forall j | j in ssn.Jobs :: ClonedJob(cache.View(), j, ssn.Jobs[j])
    ensures EntryMatches(ssn.JobsView(), n, u, ssn.Nodes[n].Tasks[u]) && !ssn.Nodes[n].Tasks[u].status.Pipelined?
  {
    hide NodeInfo.Valid, JobInfo.Valid;
    var b, t := cache.View(), ssn.Nodes[n].Tasks[u];
    assert NodeEntry(b, cache.Pods, n, u) && IsOn(b, n, u);
    forall j | j in ssn.Jobs && u in ssn.Jobs[j].Tasks
      ensures ssn.Jobs[j].Tasks[u] == t && t.node == n
    {
      assert JobEntry(b, cache.Pods, j, u) && IsIn(b, j, u);
    }
    if t.job in ssn.Jobs {
      assert JobEntry(b, cache.Pods, t.job, u);
    }
  }
}
