/** Statements: session changes that are committed, or undone in reverse order (pkg/scheduler/framework/statement.go). */
module Statements {
  import opened Resources
  import opened Tasks
  import opened Jobs
  import opened Nodes
  import opened Sessions

  datatype Kind = Evict | Pipeline | Allocate

  /** A recorded operation; `task` is the task object as the operation left it. */
  datatype Operation = Operation(kind: Kind, task: Task)

  /** What unevict, unpipeline and unallocate do to the session. */
  function Undo(s: Snap, op: Operation): Snap
    requires op.task.job in s.jobs
  {
    match op.kind
    case Evict =>
      var t := op.task.(status := Running);
      Snap(PutTask(s.jobs, t), PutOn(s.nodes, t.node, t))
    case _ =>
      Snap(PutTask(s.jobs, op.task.(status := Pending, node := "")), DropFrom(s.nodes, op.task.node, op.task.uid))
  }

  /** The session still holds the task as the operation left it. */
  predicate CanUndo(s: Snap, op: Operation) {
    InJob(s, op.task) && Stored(s, op.task) == op.task &&
    match op.kind
    case Evict => op.task.status.Releasing? && (op.task.node in s.nodes ==> NodeHolds(s, op.task.node, op.task))
    case Pipeline => op.task.status.Pipelined?
    case Allocate => op.task.status.Allocated?
  }

  predicate NodeHolds(s: Snap, n: NodeName, t: Task) {
    OnNode(s, n, t.uid) && s.nodes[n].tasks[t.uid] == t
  }

  /** Every operation can be undone once the later ones have been. */
  predicate Undoable(s: Snap, ops: seq<Operation>)
    decreases |ops|
  {
    ops == [] ||
    (CanUndo(s, ops[|ops| - 1]) && Undoable(Undo(s, ops[|ops| - 1]), ops[..|ops| - 1]))
  }

  /** Undoing all operations, last first. */
  function UndoAll(s: Snap, ops: seq<Operation>): Snap
    requires Undoable(s, ops)
    decreases |ops|
  {
    if ops == [] then s else UndoAll(Undo(s, ops[|ops| - 1]), ops[..|ops| - 1])
  }

  /** One statement operation on a session, as its caller asks for it. */
  datatype Step =
    | StepEvict(task: Task)
    | StepPipeline(task: Task, node: NodeName)
    | StepAllocate(task: Task, node: NodeName)

  function OperationOf(step: Step): Operation {
    match step
    case StepEvict(t) => Operation(Evict, t.(status := Releasing))
    case StepPipeline(t, n) => Operation(Pipeline, t.(status := Pipelined, node := n))
    case StepAllocate(t, n) => Operation(Allocate, t.(status := Status.Allocated, node := n))
  }

  function Apply(s: Snap, step: Step): Snap
    requires step.task.job in s.jobs
  {
    match step
    case StepEvict(t) => Evicted(s, t)
    case StepPipeline(t, n) => Placed(s, t, n, Pipelined)
    case StepAllocate(t, n) => Placed(s, t, n, Status.Allocated)
  }

  /** The step is accepted: nothing that the session keeps contradicts it. */
  ghost predicate Accepts(s: Snap, step: Step) {
    if step.StepEvict? then CanEvict(s, step.task) else CanPlace(s, step.task)
  }

  /** Evicts a task that is running, or places one that is pending on no node. */
  ghost predicate Reversible(s: Snap, step: Step)
    requires Accepts(s, step)
  {
    var t := step.task;
    match step
    case StepEvict(_) =>
      Stored(s, t).status == Running && (t.node in s.nodes ==> s.nodes[t.node].tasks[t.uid].status == Running)
    case _ =>
      Stored(s, t).status == Pending && t.node == "" && !OnNode(s, step.node, t.uid)
  }

  /** A single operation is undone exactly if its task was running, or was pending on no node. */
  lemma UndoneExactly(s: Snap, step: Step)
    requires Accepts(s, step)
    ensures CanUndo(Apply(s, step), OperationOf(step))
    ensures Undo(Apply(s, step), OperationOf(step)) == s <==> Reversible(s, step)
  {
    var t, op, s' := step.task, OperationOf(step), Apply(s, step);
    var back := Undo(s', op);
    var tasks := s.jobs[t.job].tasks;
    var t' := if step.StepEvict? then t.(status := Running) else t.(status := Pending, node := "");
    RestoredJob(s.jobs, op.task, t');
    assert back.jobs == PutTask(s.jobs, t');
    if step.StepEvict? {
      RestoredNode(s.nodes, t.node, op.task, t');
    } else {
      DroppedNode(s.nodes, step.node, op.task);
    }
  }

  lemma RestoredJob(jobs: JobMap, t: Task, t': Task)
    requires t.job in jobs && t'.job == t.job && t.uid == t'.uid && t.uid in jobs[t.job].tasks
    ensures PutTask(PutTask(jobs, t), t') == PutTask(jobs, t')
    ensures PutTask(jobs, t') == jobs <==> jobs[t.job].tasks[t.uid] == t'
  {
    PutTwice(jobs, t, t');
    var tasks := jobs[t.job].tasks;
    assert tasks[t.uid := t'] == tasks <==> tasks[t.uid] == t' by {
      assert tasks[t.uid := t'][t.uid] == t';
    }
    assert PutTask(jobs, t')[t.job].tasks == tasks[t.uid := t'];
  }

  lemma RestoredNode(nodes: NodeMap, n: NodeName, t: Task, t': Task)
    requires t.uid == t'.uid && (n in nodes ==> t.uid in nodes[n].tasks)
    ensures PutOn(PutOn(nodes, n, t), n, t') == PutOn(nodes, n, t')
    ensures PutOn(nodes, n, t') == nodes <==> (n in nodes ==> nodes[n].tasks[t.uid] == t')
  {
    if n in nodes {
      var tasks := nodes[n].tasks;
      assert tasks[t.uid := t][t.uid := t'] == tasks[t.uid := t'];
      assert tasks[t.uid := t'] == tasks <==> tasks[t.uid] == t' by {
        assert tasks[t.uid := t'][t.uid] == t';
      }
      assert PutOn(nodes, n, t')[n].tasks == tasks[t.uid := t'];
    }
  }

  lemma DroppedNode(nodes: NodeMap, n: NodeName, t: Task)
    ensures DropFrom(PutOn(nodes, n, t), n, t.uid) == nodes <==> !(n in nodes && t.uid in nodes[n].tasks)
  {
    if n in nodes {
      var tasks := nodes[n].tasks;
      var back := DropFrom(PutOn(nodes, n, t), n, t.uid);
      assert back[n].tasks == tasks[t.uid := t] - {t.uid};
      if t.uid !in tasks {
        assert tasks[t.uid := t] - {t.uid} == tasks;
        assert back[n] == nodes[n];
      } else {
        assert t.uid !in back[n].tasks;
      }
    }
  }

  /** Any steps, each accepted and reversible when it is made. */
  ghost predicate ReversibleRun(s: Snap, steps: seq<Step>)
    decreases |steps|
  {
    steps == [] ||
    (Accepts(s, steps[0]) && Reversible(s, steps[0]) && ReversibleRun(Apply(s, steps[0]), steps[1..]))
  }

  ghost function Run(s: Snap, steps: seq<Step>): Snap
    requires ReversibleRun(s, steps)
    decreases |steps|
  {
    if steps == [] then s else Run(Apply(s, steps[0]), steps[1..])
  }

  function Operations(steps: seq<Step>): seq<Operation> {
    seq(|steps|, i requires 0 <= i < |steps| => OperationOf(steps[i]))
  }

  /** Discard is the exact inverse of any run of reversible steps. */
  lemma {:induction false} DiscardIsInverse(s: Snap, steps: seq<Step>)
    requires ReversibleRun(s, steps)
    ensures Undoable(Run(s, steps), Operations(steps))
    ensures UndoAll(Run(s, steps), Operations(steps)) == s
    decreases |steps|
  {
    if steps != [] {
      var s' := Apply(s, steps[0]);
      DiscardIsInverse(s', steps[1..]);
      UndoneExactly(s, steps[0]);
      assert Operations(steps) == [OperationOf(steps[0])] + Operations(steps[1..]);
      UndoFirst(Run(s', steps[1..]), OperationOf(steps[0]), Operations(steps[1..]));
    }
  }

  /** The operation made first is undone last. */
  lemma {:induction false} UndoFirst(s: Snap, first: Operation, rest: seq<Operation>)
    requires Undoable(s, rest) && CanUndo(UndoAll(s, rest), first)
    ensures Undoable(s, [first] + rest) && UndoAll(s, [first] + rest) == Undo(UndoAll(s, rest), first)
    decreases |rest|
  {
    var ops := [first] + rest;
    if rest == [] {
      assert ops[..|ops| - 1] == [];
    } else {
      assert ops[|ops| - 1] == rest[|rest| - 1] && ops[..|ops| - 1] == [first] + rest[..|rest| - 1];
      UndoFirst(Undo(s, rest[|rest| - 1]), first, rest[..|rest| - 1]);
    }
  }

  /** A further reversible step leads back to the same start. */
  lemma OneMore(s: Snap, ops: seq<Operation>, s': Snap, op: Operation)
    requires Undoable(s, ops) && CanUndo(s', op) && Undo(s', op) == s
    ensures Undoable(s', ops + [op]) && UndoAll(s', ops + [op]) == UndoAll(s, ops)
  {
  }

  class Statement {
    const ssn: Session
    var operations: seq<Operation>

    constructor (s: Session)
      ensures ssn == s && operations == []
    {
      ssn, operations := s, [];
    }

    method Evict(reclaimee: Task)
      requires ssn.Valid() && CanEvict(ssn.View(), reclaimee)
      modifies this, ssn`Shares, ssn.Jobs.Values, ssn.Nodes.Values
      ensures ssn.Valid() && ssn.View() == Apply(old(ssn.View()), StepEvict(reclaimee))
      ensures operations == old(operations) + [OperationOf(StepEvict(reclaimee))]
    {
      hide Session.Valid, CanEvict, PutTask, PutOn;
      var _ := ssn.Evict(reclaimee, true);
      operations := operations + [Operation(Kind.Evict, reclaimee.(status := Releasing))];
    }

    /** A failing AddTask is only logged; the operation is recorded all the same. */
    method Pipeline(t: Task, n: NodeName)
      requires ssn.Valid() && CanPlace(ssn.View(), t)
      modifies this, ssn`Shares, ssn.Jobs.Values, ssn.Nodes.Values
      ensures ssn.Valid()
      ensures var placed := Apply(old(ssn.View()), StepPipeline(t, n));
              ssn.View() == if OnNode(old(ssn.View()), n, t.uid) then placed.(nodes := old(ssn.View()).nodes) else placed
      ensures operations == old(operations) + [OperationOf(StepPipeline(t, n))]
    {
      hide Session.JobsOk, Session.NodesOk, Session.JobsView, Session.NodesView, SharesMatch, PutTask, Get, Add, LessEqual;
      ssn.Keys();
      ShareAfterCharge(ssn.Shares, ssn.JobsView(), t.(status := Pipelined, node := n));
      var _ := ssn.Place(t, n, Pipelined);
      ssn.AllocateFunc(t);
      operations := operations + [Operation(Kind.Pipeline, t.(status := Pipelined, node := n))];
    }

    /**
     `volumes` is the answer of GetPodVolumes and AllocateVolumes.  When the node does not take the task,
     the job has already moved it: such an error leaves the job's share behind.  On a node with enough
     idle resource, which is what every caller checks, this does not happen.
     */
    method Allocate(t: Task, n: NodeName, volumes: bool) returns (ok: bool)
      requires ssn.Valid() && CanPlace(ssn.View(), t)
      modifies this, ssn`Shares, ssn.Jobs.Values, ssn.Nodes.Values
      ensures var fits := n in ssn.Nodes && !OnNode(old(ssn.View()), n, t.uid) && LessEqual(t.resreq, old(ssn.Nodes[n].Idle));
              ok == (volumes && fits)
      ensures ok ==> ssn.Valid() && ssn.View() == Apply(old(ssn.View()), StepAllocate(t, n))
      ensures ok ==> operations == old(operations) + [OperationOf(StepAllocate(t, n))]
      ensures !ok ==> operations == old(operations) && ssn.Shares == old(ssn.Shares)
      ensures !volumes ==> ssn.Valid() && ssn.View() == old(ssn.View())
      ensures volumes && !ok ==>
                ssn.JobsOk() && ssn.NodesOk() && ssn.NodesView() == old(ssn.NodesView()) &&
                ssn.JobsView() == PutTask(old(ssn.JobsView()), t.(status := Status.Allocated, node := n))
    {
      hide Session.JobsOk, Session.NodesOk, Session.JobsView, Session.NodesView, SharesMatch, PutTask, PutOn, Get, Add, LessEqual;
      ssn.Keys();
      if !volumes {
        return false;
      }
      ShareAfterCharge(ssn.Shares, ssn.JobsView(), t.(status := Status.Allocated, node := n));
      ok := ssn.Place(t, n, Status.Allocated);
      if ok {
        ssn.AllocateFunc(t);
        operations := operations + [Operation(Kind.Allocate, t.(status := Status.Allocated, node := n))];
      }
    }

    method Unevict(op: Operation)
      requires ssn.Valid() && op.kind.Evict? && CanUndo(ssn.View(), op)
      modifies ssn`Shares, ssn.Jobs.Values, ssn.Nodes.Values
      ensures ssn.Valid() && ssn.View() == Undo(old(ssn.View()), op)
    {
      hide Session.JobsOk, Session.NodesOk, Session.JobsView, Session.NodesView, SharesMatch, Get, Add, Sub, WellFormed, NonNegative, PutOn;
      ssn.Keys();
      ssn.TasksWellFormed(op.task.job);
      ShareAfterCharge(ssn.Shares, ssn.JobsView(), op.task.(status := Running));
      var t' := ssn.SetStatus(op.task, Running);
      ssn.UpdateOnNode(t');
      ssn.AllocateFunc(t');
    }

    /** unpipeline and unallocate; the latter also reverts the task's volumes. */
    method Unplace(op: Operation)
      requires ssn.Valid() && !op.kind.Evict? && CanUndo(ssn.View(), op)
      modifies ssn`Shares, ssn.Jobs.Values, ssn.Nodes.Values
      ensures ssn.Valid() && ssn.View() == Undo(old(ssn.View()), op)
    {
      hide Session.JobsOk, Session.NodesOk, Session.JobsView, Session.NodesView, SharesMatch, Get, Add, Sub, WellFormed, NonNegative, PutOn;
      ssn.Keys();
      ssn.TasksWellFormed(op.task.job);
      ShareAfterRefund(ssn.Shares, ssn.JobsView(), op.task.(status := Pending, node := ""));
      var t' := ssn.SetStatus(op.task, Pending);
      ssn.RemoveFromNode(t');
      ssn.DeallocateFunc(t');
      t' := ssn.SetNodeName(t', "");
      PutTwice(old(ssn.JobsView()), op.task.(status := Pending), t');
    }

    /** Undoes everything, last operation first. */
    method Discard()
      requires ssn.Valid() && Undoable(ssn.View(), operations)
      modifies ssn`Shares, ssn.Jobs.Values, ssn.Nodes.Values
      ensures ssn.Valid() && ssn.View() == UndoAll(old(ssn.View()), operations)
    {
      hide Session.Valid, Session.View, Undo, CanUndo;
      var i := |operations| - 1;
      assert operations[..i + 1] == operations;
      while i >= 0
        invariant -1 <= i < |operations|
        invariant ssn.Valid() && Undoable(ssn.View(), operations[..i + 1])
        invariant UndoAll(ssn.View(), operations[..i + 1]) == UndoAll(old(ssn.View()), operations)
      {
        var op := operations[i];
        assert operations[..i + 1][..i] == operations[..i];
        match op.kind {
          case Evict => Unevict(op);
          case _ => Unplace(op);
        }
        i := i - 1;
      }
    }

    /**
     Commits the operations in order, and asks the cache to bind every allocated task.  An eviction that the
     cache refuses, which it does for the tasks in `refused`, is undone at once; a refused AddBindTask leaves
     the task allocated.
     */
    method Commit(refused: set<TaskId>) returns (allEvicted: bool)
      requires ssn.Valid() && Current(ssn.View(), operations)
      modifies ssn`Shares, ssn`Bound, ssn.Jobs.Values, ssn.Nodes.Values
      ensures ssn.Valid()
      ensures allEvicted <==> AllAccepted(operations, refused)
      ensures Requested(ssn.Bound) == Requested(old(ssn.Bound)) + ToBind(operations)
      ensures allEvicted ==> OnlyBound(old(ssn.View()), ssn.View())
      ensures NoEvictions(operations) ==> allEvicted
      ensures forall j | NoEvictions(operations) && OpsOf(operations, j) && j in old(ssn.JobsView()) && GangReady(old(ssn.JobsView())[j]) ::
                AllReady(old(ssn.Bound), ssn.Bound, j)
      ensures forall j | OpsOf(operations, j) :: SameExcept(old(ssn.JobsView()), ssn.JobsView(), j)
    {
      hide Session.Valid, Session.JobsView, Session.NodesView, OnlyBoundJobs, AllReady, GangReady, CanUndo, Committing, Current, Undo, PutTask, Requested, ToBind, AllAccepted;
      NothingDone(operations, refused);
      allEvicted := true;
      ghost var s0, bound0 := ssn.View(), ssn.Bound;
      CommitStarts(s0, bound0, operations);
      assert operations[0..] == operations;
      for i := 0 to |operations|
        invariant ssn.Valid() && Current(ssn.View(), operations[i..])
        invariant Committing(s0, bound0, ssn.View(), ssn.Bound, operations, allEvicted)
        invariant allEvicted <==> AllAccepted(operations[..i], refused)
        invariant Requested(ssn.Bound) == Requested(bound0) + ToBind(operations[..i])
      {
        var op := operations[i];
        OneMoreDone(operations, i, refused);
        assert operations[i..][1..] == operations[i + 1..];
        assert operations[i..][0] == op;
        StillCurrent(ssn.View(), operations[i..]);
        match op.kind {
          case Evict =>
            if op.task.uid in refused {
              CommitRefused(s0, bound0, ssn.View(), ssn.Bound, operations, allEvicted, op);
              allEvicted := false;
              Unevict(op);
            }
          case Pipeline =>
          case Allocate =>
            CurrentAllocated(ssn.View(), op);
            var accepted: bool := *;
            CommitBinds(s0, bound0, ssn.View(), ssn.Bound, operations, allEvicted, op);
            OneMoreRequest(ssn.Bound, BindRequest(op.task, ssn.View().jobs[op.task.job]));
            ssn.BindTask(op.task, accepted);
        }
      }
      assert operations[..|operations|] == operations;
      CommitEnds(s0, bound0, ssn.View(), ssn.Bound, operations, allEvicted);
    }
  }

  /** The cache refuses none of the evictions. */
  predicate AllAccepted(ops: seq<Operation>, refused: set<TaskId>) {
    forall i | 0 <= i < |ops| && ops[i].kind.Evict? :: ops[i].task.uid !in refused
  }

  /** The tasks that a commit asks the cache to bind, in order. */
  function ToBind(ops: seq<Operation>): seq<Task> {
    if ops == [] then []
    else ToBind(ops[..|ops| - 1]) + if ops[|ops| - 1].kind.Allocate? then [ops[|ops| - 1].task] else []
  }

  lemma NothingDone(ops: seq<Operation>, refused: set<TaskId>)
    ensures ops[..0] == [] && AllAccepted([], refused) && ToBind([]) == []
  {
  }

  lemma OneMoreDone(ops: seq<Operation>, i: nat, refused: set<TaskId>)
    requires i < |ops|
    ensures AllAccepted(ops[..i + 1], refused) <==> AllAccepted(ops[..i], refused) && (ops[i].kind.Evict? ==> ops[i].task.uid !in refused)
    ensures ToBind(ops[..i + 1]) == ToBind(ops[..i]) + if ops[i].kind.Allocate? then [ops[i].task] else []
  {
    var more := ops[..i + 1];
    assert more[..i] == ops[..i] && more[i] == ops[i];
  }

  lemma OneMoreRequest(bound: seq<BindRequest>, r: BindRequest)
    ensures Requested(bound + [r]) == Requested(bound) + [r.task]
  {
  }

  /** How far a commit has come since `s0`. */
  ghost predicate Committing(s0: Snap, bound0: seq<BindRequest>, s: Snap, bound: seq<BindRequest>, ops: seq<Operation>, allEvicted: bool) {
    (allEvicted ==> OnlyBound(s0, s)) && (NoEvictions(ops) ==> allEvicted) &&
    (forall j | NoEvictions(ops) && OpsOf(ops, j) && j in s0.jobs && GangReady(s0.jobs[j]) :: AllReady(bound0, bound, j)) &&
    (forall j | OpsOf(ops, j) :: SameExcept(s0.jobs, s.jobs, j))
  }

  lemma CommitStarts(s: Snap, bound: seq<BindRequest>, ops: seq<Operation>)
    ensures Committing(s, bound, s, bound, ops, true)
  {
  }

  lemma CommitEnds(s0: Snap, bound0: seq<BindRequest>, s: Snap, bound: seq<BindRequest>, ops: seq<Operation>, allEvicted: bool)
    requires Committing(s0, bound0, s, bound, ops, allEvicted)
    ensures (allEvicted ==> OnlyBound(s0, s)) && (NoEvictions(ops) ==> allEvicted)
    ensures forall j | NoEvictions(ops) && OpsOf(ops, j) && j in s0.jobs && GangReady(s0.jobs[j]) :: AllReady(bound0, bound, j)
    ensures forall j | OpsOf(ops, j) :: SameExcept(s0.jobs, s.jobs, j)
  {
  }

  lemma CommitRefused(s0: Snap, bound0: seq<BindRequest>, s: Snap, bound: seq<BindRequest>, ops: seq<Operation>, allEvicted: bool, op: Operation)
    requires Committing(s0, bound0, s, bound, ops, allEvicted) && op in ops && op.kind.Evict? && CanUndo(s, op)
    ensures Committing(s0, bound0, Undo(s, op), bound, ops, false)
  {
  }

  lemma CommitBinds(s0: Snap, bound0: seq<BindRequest>, s: Snap, bound: seq<BindRequest>, ops: seq<Operation>, allEvicted: bool, op: Operation)
    requires Committing(s0, bound0, s, bound, ops, allEvicted) && op in ops && CanUndo(s, op)
    requires InJob(s, op.task) && Stored(s, op.task) == op.task && op.task.status.Allocated?
    ensures var bound' := bound + [BindRequest(op.task, s.jobs[op.task.job])];
            Committing(s0, bound0, s.(jobs := PutTask(s.jobs, op.task.(status := Binding))), bound', ops, allEvicted) &&
            Committing(s0, bound0, s, bound', ops, allEvicted)
  {
    hide OnlyBoundJobs, AllReady, GangReady, CanUndo;
    if allEvicted {
      OneMoreBound(s0.jobs, s.jobs, op.task);
    }
    forall j | NoEvictions(ops) && OpsOf(ops, j) && j in s0.jobs && GangReady(s0.jobs[j])
      ensures AllReady(bound0, bound + [BindRequest(op.task, s.jobs[op.task.job])], j)
    {
      OneMoreReady(bound0, bound, BindRequest(op.task, s.jobs[op.task.job]), j);
    }
  }

  /** Every operation's task is as the operation left it, and no two operations are about one task. */
  ghost predicate Current(s: Snap, ops: seq<Operation>) {
    (forall i | 0 <= i < |ops| :: CanUndo(s, ops[i])) &&
    (forall i, k | 0 <= i < k < |ops| :: ops[i].task.uid != ops[k].task.uid)
  }

  predicate NoEvictions(ops: seq<Operation>) {
    forall i | 0 <= i < |ops| :: !ops[i].kind.Evict?
  }

  predicate OpsOf(ops: seq<Operation>, j: JobId) {
    forall i | 0 <= i < |ops| :: ops[i].task.job == j
  }

  lemma CurrentAllocated(s: Snap, op: Operation)
    requires CanUndo(s, op) && op.kind.Allocate?
    ensures InJob(s, op.task) && Stored(s, op.task) == op.task && op.task.status.Allocated?
  {
  }

  /** Binding or restoring the first operation's task leaves the other operations current. */
  lemma StillCurrent(s: Snap, ops: seq<Operation>)
    requires ops != [] && Current(s, ops)
    ensures CanUndo(s, ops[0]) && Current(s, ops[1..])
    ensures ops[0].kind.Allocate? ==> Current(s.(jobs := PutTask(s.jobs, ops[0].task.(status := Binding))), ops[1..])
    ensures ops[0].kind.Evict? ==> Current(Undo(s, ops[0]), ops[1..])
  {
  }

  /** Ledgers that are right about the same tasks are the same: what a Discard restores, it restores by value. */
  twostate lemma LedgersRestored(ssn: Session)
    requires old(ssn.Valid()) && ssn.Valid() && ssn.View() == old(ssn.View())
    ensures forall j | j in ssn.Jobs ::
      ssn.Jobs[j].Tasks == old(ssn.Jobs[j].Tasks) && ssn.Jobs[j].TaskStatusIndex == old(ssn.Jobs[j].TaskStatusIndex) &&
      Same(ssn.Jobs[j].Allocated, old(ssn.Jobs[j].Allocated)) && Same(ssn.Jobs[j].TotalRequest, old(ssn.Jobs[j].TotalRequest)) &&
      j in ssn.Shares && j in old(ssn.Shares) && Same(ssn.Shares[j], old(ssn.Shares[j]))
    ensures forall n | n in ssn.Nodes ::
      ssn.Nodes[n].Tasks == old(ssn.Nodes[n].Tasks) && Same(ssn.Nodes[n].Idle, old(ssn.Nodes[n].Idle)) &&
      Same(ssn.Nodes[n].Used, old(ssn.Nodes[n].Used)) && Same(ssn.Nodes[n].Releasing, old(ssn.Nodes[n].Releasing)) &&
      Same(ssn.Nodes[n].Pipelined, old(ssn.Nodes[n].Pipelined))
  {
    hide JobInfo.Valid, NodeInfo.Valid, SumsTo, Same, Total;
    forall j | j in ssn.Jobs
      ensures ssn.Jobs[j].Tasks == old(ssn.Jobs[j].Tasks) && ssn.Jobs[j].TaskStatusIndex == old(ssn.Jobs[j].TaskStatusIndex) &&
              Same(ssn.Jobs[j].Allocated, old(ssn.Jobs[j].Allocated)) && Same(ssn.Jobs[j].TotalRequest, old(ssn.Jobs[j].TotalRequest))
      ensures j in ssn.Shares && j in old(ssn.Shares) && Same(ssn.Shares[j], old(ssn.Shares[j]))
    {
      assert ssn.JobsView()[j].tasks == ssn.Jobs[j].Tasks && old(ssn.JobsView())[j].tasks == old(ssn.Jobs[j].Tasks);
      SumsAgree(ssn.Shares[j], old(ssn.Shares[j]), ssn.Jobs[j].Tasks, Share);
      JobRestored(ssn.Jobs[j]);
    }
    forall n | n in ssn.Nodes
      ensures ssn.Nodes[n].Tasks == old(ssn.Nodes[n].Tasks) && Same(ssn.Nodes[n].Idle, old(ssn.Nodes[n].Idle)) &&
              Same(ssn.Nodes[n].Used, old(ssn.Nodes[n].Used)) && Same(ssn.Nodes[n].Releasing, old(ssn.Nodes[n].Releasing)) &&
              Same(ssn.Nodes[n].Pipelined, old(ssn.Nodes[n].Pipelined))
    {
      assert ssn.NodesView()[n] == NodeState(ssn.Nodes[n].Allocatable, ssn.Nodes[n].Tasks);
      assert old(ssn.NodesView())[n] == NodeState(old(ssn.Nodes[n].Allocatable), old(ssn.Nodes[n].Tasks));
      NodeRestored(ssn.Nodes[n]);
    }
  }

  twostate lemma JobRestored(job: JobInfo)
    requires old(job.Valid()) && job.Valid() && job.Tasks == old(job.Tasks)
    ensures job.TaskStatusIndex == old(job.TaskStatusIndex) && Same(job.Allocated, old(job.Allocated)) && Same(job.TotalRequest, old(job.TotalRequest))
  {
  }

  twostate lemma NodeRestored(node: NodeInfo)
    requires old(node.Valid()) && node.Valid() && node.Tasks == old(node.Tasks) && node.Allocatable == old(node.Allocatable)
    requires node.Node.Some? && old(node.Node).Some?
    ensures Same(node.Idle, old(node.Idle)) && Same(node.Used, old(node.Used))
    ensures Same(node.Releasing, old(node.Releasing)) && Same(node.Pipelined, old(node.Pipelined))
  {
  }
}
