/** A node's tasks and its resource ledger (pkg/scheduler/api/node_info.go). */
module Nodes {
  import opened Options
  import opened Resources
  import opened Sums
  import opened Tasks

  /** The parts of a Kubernetes node that the ledger reads; `ready` is its NodeReady condition. */
  datatype KubeNode = KubeNode(name: NodeName, allocatable: Resource, ready: bool)

  datatype Phase = Ready | UnInitialized | OutOfSync | NotReady

  datatype AddResult = Added | OnDifferentNode | AlreadyOnNode | CannotAllocate

  /** The node ledger recomputed: sums by status, and what is not used is idle. */
  ghost predicate Ledger(allocatable: Resource, idle: Resource, used: Resource, releasing: Resource,
                         pipelined: Resource, tasks: TaskMap)
  {
    SumsTo(used, tasks, Used) && SumsTo(releasing, tasks, ReleasingR) && SumsTo(pipelined, tasks, PipelinedR) &&
    (forall d :: Get(idle, d) + Get(used, d) == Get(allocatable, d)) &&
    NonNegative(idle)
  }

  lemma LedgerAfterAdd(allocatable: Resource, idle: Resource, used: Resource, releasing: Resource, pipelined: Resource,
                       tasks: TaskMap, t: Task)
    requires Ledger(allocatable, idle, used, releasing, pipelined, tasks)
    requires t.uid !in tasks && NonNegative(t.resreq)
    requires t.status.Pipelined? || LessEqual(t.resreq, idle)
    ensures var tasks' := tasks[t.uid := t];
            if t.status.Pipelined? then
              Ledger(allocatable, idle, used, releasing, Add(pipelined, t.resreq), tasks')
            else
              Ledger(allocatable, Sub(idle, t.resreq), Add(used, t.resreq),
                     if t.status.Releasing? then Add(releasing, t.resreq) else releasing, pipelined, tasks')
  {
    hide Total, Get, Add, LessEqual;
    SumAfterAdd(used, tasks, Used, t);
    SumAfterAdd(releasing, tasks, ReleasingR, t);
    SumAfterAdd(pipelined, tasks, PipelinedR, t);
    LessEqualIsPerDimension(t.resreq, idle);
  }

  lemma LedgerAfterRemove(allocatable: Resource, idle: Resource, used: Resource, releasing: Resource, pipelined: Resource,
                          tasks: TaskMap, t: Task)
    requires Ledger(allocatable, idle, used, releasing, pipelined, tasks)
    requires WellFormed(tasks) && t.uid in tasks && tasks[t.uid] == t
    ensures LessEqual(t.resreq, if t.status.Pipelined? then pipelined else used)
    ensures t.status.Releasing? ==> LessEqual(t.resreq, releasing)
    ensures var tasks' := tasks - {t.uid};
            if t.status.Pipelined? then
              Ledger(allocatable, idle, used, releasing, Sub(pipelined, t.resreq), tasks')
            else
              Ledger(allocatable, Add(idle, t.resreq), Sub(used, t.resreq),
                     if t.status.Releasing? then Sub(releasing, t.resreq) else releasing, pipelined, tasks')
  {
    hide Total, Get, Add, LessEqual;
    SumAfterRemove(used, tasks, Used, t);
    SumAfterRemove(releasing, tasks, ReleasingR, t);
    SumAfterRemove(pipelined, tasks, PipelinedR, t);
  }

  /** What setNode has rebuilt after some of the tasks; idle may go negative, or lack a scalar the node does not offer. */
  ghost predicate Rebuilt(allocatable: Resource, idle: Resource, used: Resource, releasing: Resource, pipelined: Resource,
                          tasks: TaskMap)
  {
    SumsTo(used, tasks, Used) && SumsTo(releasing, tasks, ReleasingR) && SumsTo(pipelined, tasks, PipelinedR) &&
    (idle.scalars == map[] <==> allocatable.scalars == map[]) &&
    forall d :: Get(idle, d) + Get(used, d) == Get(allocatable, d) ||
                (d.Scalar? && allocatable.scalars == map[] && Get(idle, d) == 0)
  }

  lemma RebuiltAfterAdd(allocatable: Resource, idle: Resource, used: Resource, releasing: Resource, pipelined: Resource,
                        tasks: TaskMap, t: Task)
    requires Rebuilt(allocatable, idle, used, releasing, pipelined, tasks)
    requires t.uid !in tasks && NonNegative(t.resreq)
    ensures var tasks' := tasks[t.uid := t];
            if t.status.Pipelined? then
              Rebuilt(allocatable, idle, used, releasing, Add(pipelined, t.resreq), tasks')
            else
              Rebuilt(allocatable, RawSub(idle, t.resreq), Add(used, t.resreq),
                      if t.status.Releasing? then Add(releasing, t.resreq) else releasing, pipelined, tasks')
  {
    hide Total, Add, NonNegative;
    SumAfterAdd(used, tasks, Used, t);
    SumAfterAdd(releasing, tasks, ReleasingR, t);
    SumAfterAdd(pipelined, tasks, PipelinedR, t);
  }

  lemma RebuiltSums(allocatable: Resource, idle: Resource, used: Resource, releasing: Resource, pipelined: Resource,
                    tasks: TaskMap)
    requires Rebuilt(allocatable, idle, used, releasing, pipelined, tasks)
    ensures SumsTo(used, tasks, Used)
  {
  }

  lemma RebuiltLedger(allocatable: Resource, idle: Resource, used: Resource, releasing: Resource, pipelined: Resource,
                      tasks: TaskMap)
    requires Rebuilt(allocatable, idle, used, releasing, pipelined, tasks)
    requires WellFormed(tasks) && NonNegative(allocatable) && LessEqual(used, allocatable)
    ensures Ledger(allocatable, idle, used, releasing, pipelined, tasks)
  {
    TotalNonNegative(tasks);
    LessEqualIsPerDimension(used, allocatable);
    forall d
      ensures Get(idle, d) >= 0 && Get(idle, d) + Get(used, d) == Get(allocatable, d)
    {
      assert Get(used, d) == Total(tasks, Used, d) >= 0 && Get(used, d) <= Get(allocatable, d);
    }
  }

  /** The submap that a loop over `tasks` has visited when `todo` is left. */
  ghost function Visited(tasks: TaskMap, todo: set<TaskId>): TaskMap {
    map u | u in tasks && u !in todo :: tasks[u]
  }

  lemma VisitedOneMore(tasks: TaskMap, todo: set<TaskId>, u: TaskId)
    requires WellFormed(tasks) && u in todo && u in tasks
    ensures u !in Visited(tasks, todo)
    ensures Visited(tasks, todo - {u}) == Visited(tasks, todo)[tasks[u].uid := tasks[u]]
  {
  }

  class NodeInfo {
    var Name: NodeName
    var Node: Option<KubeNode>
    var State: Phase
    var Allocatable: Resource
    var Idle: Resource
    var Used: Resource
    var Releasing: Resource
    var Pipelined: Resource
    var Tasks: TaskMap

    /** Without a Kubernetes node tasks are recorded but not accounted. */
    ghost predicate Valid()
      reads this
    {
      WellFormed(Tasks) && (forall u | u in Tasks :: Tasks[u].node == Name || Tasks[u].node == "") &&
      match Node
      case None => Same(Allocatable, EMPTY) && Same(Idle, EMPTY) && Same(Used, EMPTY) && Same(Releasing, EMPTY) && Same(Pipelined, EMPTY)
      case Some(k) => Name == k.name && Allocatable == k.allocatable && Ledger(Allocatable, Idle, Used, Releasing, Pipelined, Tasks)
    }

    /** A node made without a Kubernetes node has no name. */
    constructor (node: Option<KubeNode>)
      requires node.Some? ==> NonNegative(node.value.allocatable)
      ensures Valid() && Tasks == map[] && Node == node
      ensures Name == if node.Some? then node.value.name else ""
      ensures State == if node.None? then UnInitialized else if node.value.ready then Ready else NotReady
    {
      Name := if node.Some? then node.value.name else "";
      Node, Tasks := node, map[];
      Used, Releasing, Pipelined := EMPTY, EMPTY, EMPTY;
      Allocatable := if node.Some? then node.value.allocatable else EMPTY;
      Idle := if node.Some? then node.value.allocatable else EMPTY;
      State := UnInitialized;
      TotalEmpty();
      new;
      assert forall d :: Get(EMPTY, d) == 0;
      LessEqualFromDimensions(Used, Allocatable);
      SetNodeState(node);
    }

    /** Idle plus releasing minus pipelined; the precondition is the assertion inside Sub. */
    function FutureIdle(): (r: Resource)
      requires LessEqual(Pipelined, Add(Idle, Releasing))
      reads this
      ensures NonNegative(Pipelined) ==> forall d :: Get(r, d) == Get(Idle, d) + Get(Releasing, d) - Get(Pipelined, d)
    {
      Sub(Add(Idle, Releasing), Pipelined)
    }

    method SetNodeState(node: Option<KubeNode>)
      modifies this`State
      ensures State == if node.None? then UnInitialized
                       else if !LessEqual(Used, Allocatable) then OutOfSync
                       else if !node.value.ready then NotReady
                       else Ready
    {
      if node.None? {
        State := UnInitialized;
        return;
      }
      if !LessEqual(Used, Allocatable) {
        State := OutOfSync;
        return;
      }
      if !node.value.ready {
        State := NotReady;
        return;
      }
      State := Ready;
    }

    method AllocateIdleResource(ti: Task) returns (ok: bool)
      modifies this`Idle
      ensures ok == LessEqual(ti.resreq, old(Idle))
      ensures Idle == if ok then Sub(old(Idle), ti.resreq) else old(Idle)
    {
      if LessEqual(ti.resreq, Idle) {
        Idle := Sub(Idle, ti.resreq);
        return true;
      }
      return false;
    }

    /** Stores a copy of `task`; on an error nothing changes. */
    method AddTask(task: Task) returns (r: AddResult)
      requires Valid() && NonNegative(task.resreq)
      modifies this
      ensures Valid() && Name == old(Name) && Node == old(Node) && Allocatable == old(Allocatable) && State == old(State)
      ensures r == if task.node != "" && Name != "" && task.node != Name then OnDifferentNode
                   else if task.uid in old(Tasks) then AlreadyOnNode
                   else if Node.Some? && !task.status.Pipelined? && !LessEqual(task.resreq, old(Idle)) then CannotAllocate
                   else Added
      ensures r.Added? ==> Tasks == old(Tasks)[task.uid := task.(node := Name)]
      ensures !r.Added? ==> unchanged(this)
    {
      hide Ledger, Total, Get, Add, Sub, LessEqual;
      if task.node != "" && Name != "" && task.node != Name {
        return OnDifferentNode;
      }
      if task.uid in Tasks {
        return AlreadyOnNode;
      }
      var ti := task.(node := Name);
      if Node.Some? {
        if ti.status.Pipelined? || LessEqual(ti.resreq, Idle) {
          LedgerAfterAdd(Allocatable, Idle, Used, Releasing, Pipelined, Tasks, ti);
        }
        match ti.status {
          case Releasing =>
            var ok := AllocateIdleResource(ti);
            if !ok {
              return CannotAllocate;
            }
            Releasing := Add(Releasing, ti.resreq);
            Used := Add(Used, ti.resreq);
          case Pipelined =>
            Pipelined := Add(Pipelined, ti.resreq);
          case _ =>
            var ok := AllocateIdleResource(ti);
            if !ok {
              return CannotAllocate;
            }
            Used := Add(Used, ti.resreq);
        }
      }
      Tasks := Tasks[ti.uid := ti];
      return Added;
    }

    /** Only the identifier of `ti` matters; a task that is not here is no error. */
    method RemoveTask(ti: Task)
      requires Valid()
      modifies this
      ensures Valid() && Name == old(Name) && Node == old(Node) && Allocatable == old(Allocatable) && State == old(State)
      ensures Tasks == old(Tasks) - {ti.uid}
      ensures ti.uid !in old(Tasks) ==> unchanged(this)
    {
      hide Ledger, Same, NonNegative, Total, Get, Add, Sub, LessEqual;
      if ti.uid !in Tasks {
        MinusAbsent(Tasks, ti.uid);
        return;
      }
      var task := Tasks[ti.uid];
      if Node.Some? {
        LedgerAfterRemove(Allocatable, Idle, Used, Releasing, Pipelined, Tasks, task);
        match task.status {
          case Releasing =>
            Releasing := Sub(Releasing, task.resreq);
            Idle := Add(Idle, task.resreq);
            Used := Sub(Used, task.resreq);
          case Pipelined =>
            Pipelined := Sub(Pipelined, task.resreq);
          case _ =>
            Idle := Add(Idle, task.resreq);
            Used := Sub(Used, task.resreq);
        }
      }
      Tasks := Tasks - {ti.uid};
    }

    /**
     Replaces the task.  The source ends the process when the new version does not fit; with the
     same request as a version that is already accounted it always fits.
     */
    method UpdateTask(ti: Task)
      requires Valid() && NonNegative(ti.resreq)
      requires ti.node == "" || ti.node == Name
      requires Node.None? || ti.status.Pipelined? || LessEqual(ti.resreq, Idle) ||
               (ti.uid in Tasks && Tasks[ti.uid].resreq == ti.resreq && !Tasks[ti.uid].status.Pipelined?)
      modifies this
      ensures Valid() && Name == old(Name) && Node == old(Node) && Allocatable == old(Allocatable) && State == old(State)
      ensures Tasks == old(Tasks)[ti.uid := ti.(node := Name)]
    {
      ghost var tasks, idle := Tasks, Idle;
      LessEqualIsPerDimension(ti.resreq, Idle);
      if ti.uid in Tasks {
        TotalRemove(Tasks, ti.uid);
      }
      RemoveTask(ti);
      if Node.Some? && !ti.status.Pipelined? {
        IdleGrows(tasks, idle, ti);
      }
      var r := AddTask(ti);
      assert r.Added?;
      assert (tasks - {ti.uid})[ti.uid := ti.(node := Name)] == tasks[ti.uid := ti.(node := Name)];
    }

    lemma IdleGrows(tasks: TaskMap, idle: Resource, ti: Task)
      requires Valid() && Node.Some? && WellFormed(tasks) && NonNegative(ti.resreq) && NonNegative(idle)
      requires Tasks == tasks - {ti.uid}
      requires forall d :: Get(idle, d) + Total(tasks, Role.Used, d) == Get(Allocatable, d)
      requires LessEqual(ti.resreq, idle) || (ti.uid in tasks && tasks[ti.uid].resreq == ti.resreq && !tasks[ti.uid].status.Pipelined?)
      ensures LessEqual(ti.resreq, Idle)
    {
      if ti.uid in tasks {
        TotalRemove(tasks, ti.uid);
        TotalBounds(tasks, ti.uid);
      } else {
        assert Tasks == tasks;
      }
      LessEqualIsPerDimension(ti.resreq, idle);
      forall d
        ensures Get(ti.resreq, d) <= Get(Idle, d)
      {
        assert Get(Idle, d) + Total(Tasks, Role.Used, d) == Get(Allocatable, d);
        assert ti.uid in tasks ==> Total(Tasks, Role.Used, d) == Total(tasks, Role.Used, d) - Weight(tasks[ti.uid], Role.Used, d);
      }
      LessEqualFromDimensions(ti.resreq, Idle);
    }

    /** Rebuilds the ledger for `node` from the recorded tasks, without any assertion. */
    method ResetNode(node: KubeNode)
      requires Valid() && (node.name == Name || Name == "") && NonNegative(node.allocatable)
      modifies this
      ensures Name == node.name && Node == Some(node) && Tasks == old(Tasks) && State == old(State)
      ensures Allocatable == node.allocatable && SumsTo(Used, Tasks, Role.Used)
      ensures LessEqual(Used, Allocatable) ==> Valid()
    {
      Name, Node := node.name, Some(node);
      Allocatable := node.allocatable;
      Releasing, Pipelined, Idle, Used := EMPTY, EMPTY, node.allocatable, EMPTY;
      var todo := Tasks.Keys;
      TotalEmpty();
      assert Rebuilt(Allocatable, Idle, Used, Releasing, Pipelined, map[]);
      hide Rebuilt, Ledger, Total, Get, Add, RawSub, LessEqual;
      assert Visited(Tasks, todo) == map[];
      while todo != {}
        invariant todo <= Tasks.Keys
        invariant Tasks == old(Tasks) && Name == node.name && Node == Some(node) && State == old(State) && Allocatable == node.allocatable
        invariant Rebuilt(Allocatable, Idle, Used, Releasing, Pipelined, Visited(Tasks, todo))
        decreases todo
      {
        var u :| u in todo;
        var ti := Tasks[u];
        VisitedOneMore(Tasks, todo, u);
        RebuiltAfterAdd(Allocatable, Idle, Used, Releasing, Pipelined, Visited(Tasks, todo), ti);
        match ti.status {
          case Releasing =>
            Idle := RawSub(Idle, ti.resreq);
            Releasing := Add(Releasing, ti.resreq);
            Used := Add(Used, ti.resreq);
          case Pipelined =>
            Pipelined := Add(Pipelined, ti.resreq);
          case _ =>
            Idle := RawSub(Idle, ti.resreq);
            Used := Add(Used, ti.resreq);
        }
        todo := todo - {u};
      }
      assert Visited(Tasks, todo) == Tasks;
      assert SumsTo(Used, Tasks, Role.Used) by { RebuiltSums(Allocatable, Idle, Used, Releasing, Pipelined, Tasks); }
      if LessEqual(Used, Allocatable) {
        RebuiltLedger(Allocatable, Idle, Used, Releasing, Pipelined, Tasks);
      }
    }

    /**
     Adopts `node` exactly when it is ready and the recorded tasks fit on it; otherwise of the ledger only
     State changes. The dry run on a clone renames the recorded copies, as every Clone does.
     */
    method SetNode(node: KubeNode)
      requires Valid() && node.name == Name && NonNegative(node.allocatable)
      modifies this
      ensures Valid() && Name == old(Name)
      ensures var fits := forall d :: Total(old(Tasks), Role.Used, d) <= Get(node.allocatable, d);
              if node.ready && fits then
                State == Ready && Node == Some(node) && LessEqual(Used, Allocatable)
              else
                State != Ready && Node == old(Node) && Allocatable == old(Allocatable) && Idle == old(Idle) &&
                Used == old(Used) && Releasing == old(Releasing) && Pipelined == old(Pipelined)
      ensures Tasks == if node.ready then Named(old(Tasks), if old(Node).Some? then Name else "") else old(Tasks)
      ensures Tasks == old(Tasks) <==> !node.ready || forall u | u in old(Tasks) :: old(Tasks)[u].node == if old(Node).Some? then Name else ""
    {
      hide LessEqual, Ledger, Total, Get, WellFormed, NonNegative, Same;
      NamedSame(Tasks, if Node.Some? then Name else "");
      UsedFits();
      SetNodeState(Some(node));
      if State != Ready {
        return;
      }
      var copy := Clone();
      NamedTotals(old(Tasks), copy.Name);
      copy.ResetNode(node);
      copy.SetNodeState(Some(node));
      LessEqualIsPerDimension(copy.Used, node.allocatable);
      assert forall d :: Get(copy.Used, d) == Total(Tasks, Role.Used, d);
      if copy.State != Ready {
        State := copy.State;
        return;
      }
      ResetNode(node);
      LessEqualIsPerDimension(Used, node.allocatable);
    }

    lemma UsedFits()
      requires Valid()
      ensures LessEqual(Used, Allocatable)
    {
      LessEqualFromDimensions(Used, Allocatable);
    }

    /**
     Re-adds every task, in any order, to a node made afresh; no AddTask fails and the ledger is reproduced.
     AddTask writes the new node's name into the task it is given, which here is this node's own copy: the
     copies of a node without a Kubernetes node lose their node name.
     */
    method Clone() returns (res: NodeInfo)
      requires Valid()
      modifies this`Tasks
      ensures Valid() && fresh(res) && res.Valid() && res.Node == Node
      ensures res.Name == (if Node.Some? then Name else "") && res.Tasks == Named(old(Tasks), res.Name) && Tasks == res.Tasks
      ensures Same(res.Allocatable, Allocatable) && Same(res.Idle, Idle) && Same(res.Used, Used)
      ensures Same(res.Releasing, Releasing) && Same(res.Pipelined, Pipelined)
    {
      hide NodeInfo.Valid, Same, NonNegative, LessEqual, Total, WellFormed;
      AllocatableNonNegative();
      res := new NodeInfo(Node);
      ghost var tasks, named := Tasks, Named(Tasks, res.Name);
      RecordedWell();
      NamedTotals(tasks, res.Name);
      var todo := Tasks.Keys;
      assert Visited(named, todo) == map[];
      while todo != {}
        invariant todo <= tasks.Keys && Tasks.Keys == tasks.Keys
        invariant forall u | u in tasks :: Tasks[u] == if u in todo then tasks[u] else named[u]
        invariant forall role, d :: Total(named, role, d) == Total(Tasks, role, d)
        invariant fresh(res) && res.Valid() && res.Name == (if Node.Some? then Name else "") && res.Node == Node
        invariant res.Tasks == Visited(named, todo)
        invariant Valid() && unchanged(this`Name, this`Node)
        decreases todo
      {
        var u :| u in todo;
        VisitedOneMore(named, todo, u);
        StillFits(res, named, todo, u);
        CopyTo(res, u);
        todo := todo - {u};
      }
      assert Visited(named, todo) == named;
      assert Tasks == named;
      Agrees(res);
    }

    /** Right ledgers of one node over the same tasks agree. */
    lemma Agrees(other: NodeInfo)
      requires Valid() && other.Valid() && other.Node == Node && other.Tasks == Tasks
      ensures Same(other.Allocatable, Allocatable) && Same(other.Idle, Idle) && Same(other.Used, Used)
      ensures Same(other.Releasing, Releasing) && Same(other.Pipelined, Pipelined)
    {
    }

    /** res.AddTask of an own copy, which writes that node's name into it. */
    method CopyTo(res: NodeInfo, u: TaskId)
      requires Valid() && res.Valid() && res != this && u in Tasks && u !in res.Tasks && Tasks[u].uid == u && NonNegative(Tasks[u].resreq)
      requires res.Node == Node && res.Name == (if Node.Some? then Name else "")
      requires Tasks[u].node == "" || res.Name == "" || Tasks[u].node == res.Name
      requires Node.Some? && !Tasks[u].status.Pipelined? ==> LessEqual(Tasks[u].resreq, res.Idle)
      modifies this`Tasks, res
      ensures Valid() && Tasks == old(Tasks)[u := old(Tasks)[u].(node := res.Name)]
      ensures forall role, d :: Total(Tasks, role, d) == Total(old(Tasks), role, d)
      ensures res.Valid() && res.Name == old(res.Name) && res.Node == old(res.Node) && res.Tasks == old(res.Tasks)[u := Tasks[u]]
    {
      hide LessEqual, NonNegative, Total, Get;
      var r := res.AddTask(Tasks[u]);
      assert r.Added?;
      RenamedTotals(Tasks, u, res.Name);
      Tasks := Tasks[u := Tasks[u].(node := res.Name)];
    }

    /** A copy's node name is not part of any sum. */
    lemma RenamedTotals(tasks: TaskMap, u: TaskId, n: NodeName)
      requires u in tasks
      ensures forall role, d :: Total(tasks[u := tasks[u].(node := n)], role, d) == Total(tasks, role, d)
    {
      TotalPut(tasks, u, tasks[u].(node := n));
    }

    lemma RecordedWell()
      requires Valid()
      ensures WellFormed(Tasks)
    {
    }

    lemma AllocatableNonNegative()
      requires Valid()
      ensures Node.Some? ==> NonNegative(Allocatable) && NonNegative(Node.value.allocatable) && Node.value.name == Name
    {
      TotalNonNegative(Tasks);
      if Node.Some? {
        forall d
          ensures Get(Allocatable, d) >= 0
        {
          assert Get(Used, d) == Total(Tasks, Role.Used, d) && Get(Idle, d) >= 0;
        }
      }
    }

    /** The next copy is accepted by the clone. */
    lemma StillFits(res: NodeInfo, named: TaskMap, todo: set<TaskId>, u: TaskId)
      requires Valid() && res.Valid() && res.Node == Node && res.Name == (if Node.Some? then Name else "")
      requires WellFormed(named) && forall role, d :: Total(named, role, d) == Total(Tasks, role, d)
      requires u in todo && todo <= named.Keys && u in Tasks && Tasks[u].(node := named[u].node) == named[u] && res.Tasks == Visited(named, todo)
      ensures NonNegative(Tasks[u].resreq) && Tasks[u].uid == u && u !in res.Tasks
      ensures Tasks[u].node == "" || res.Name == "" || Tasks[u].node == res.Name
      ensures Node.Some? && !Tasks[u].status.Pipelined? ==> LessEqual(Tasks[u].resreq, res.Idle)
    {
      if Node.Some? && !Tasks[u].status.Pipelined? {
        PartBelowWhole(named, todo, u);
        forall d
          ensures Get(named[u].resreq, d) <= Get(res.Idle, d)
        {
          assert Total(res.Tasks, Role.Used, d) + Weight(named[u], Role.Used, d) <= Total(named, Role.Used, d);
          assert Get(res.Idle, d) + Total(res.Tasks, Role.Used, d) == Get(Allocatable, d);
          assert Get(Idle, d) + Total(Tasks, Role.Used, d) == Get(Allocatable, d);
        }
        LessEqualFromDimensions(named[u].resreq, res.Idle);
      }
    }
  }

  /** The tasks with another node's name. */
  function Named(tasks: TaskMap, n: NodeName): TaskMap {
    map u | u in tasks :: tasks[u].(node := n)
  }

  /** Renaming changes nothing exactly if every task names that node. */
  lemma NamedSame(tasks: TaskMap, n: NodeName)
    ensures Named(tasks, n) == tasks <==> forall u | u in tasks :: tasks[u].node == n
  {
    if Named(tasks, n) == tasks {
      forall u | u in tasks ensures tasks[u].node == n {
        assert Named(tasks, n)[u] == tasks[u];
      }
    }
  }

  /** A ready node without a Kubernetes node does not keep the names of its copies through a dry run. */
  lemma DryRunForgets(tasks: TaskMap, u: TaskId)
    requires u in tasks && tasks[u].node != ""
    ensures Named(tasks, "") != tasks
  {
    NamedSame(tasks, "");
  }

  lemma NamedTotals(tasks: TaskMap, n: NodeName)
    ensures forall role, d :: Total(Named(tasks, n), role, d) == Total(tasks, role, d)
    ensures WellFormed(tasks) ==> WellFormed(Named(tasks, n))
  {
    forall role, d ensures Total(Named(tasks, n), role, d) == Total(tasks, role, d) {
      assert Weights(Named(tasks, n), role, d) == Weights(tasks, role, d);
    }
  }

  /** What a loop has visited, and the next task, never sum to more than all tasks. */
  lemma {:induction false} PartBelowWhole(tasks: TaskMap, todo: set<TaskId>, u: TaskId)
    requires WellFormed(tasks) && u in todo && todo <= tasks.Keys
    ensures forall role, d :: Total(Visited(tasks, todo), role, d) + Weight(tasks[u], role, d) <= Total(tasks, role, d)
    decreases todo
  {
    VisitedOneMore(tasks, todo, u);
    TotalPut(Visited(tasks, todo), u, tasks[u]);
    if todo == {u} {
      assert Visited(tasks, todo - {u}) == tasks;
    } else {
      assert todo - {u} != {};
      var v :| v in todo - {u};
      PartBelowWhole(tasks, todo - {u}, v);
      TotalBounds(tasks, v);
    }
  }
}
