/**
 The allocate action (pkg/scheduler/actions/allocate/allocate.go).

 Priority queues are bags from which any element may be popped.  What the plugins answer is a parameter, and
 every claim holds for every answer.  A ghost log tells what the action did, entry by entry; which entry may
 follow which state is defined by `Happens`.
 */
module AllocateAction {
  import opened Resources
  import opened Tasks
  import opened Jobs
  import opened Sessions
  import opened Statements
  import opened Promises

  /** Where a turn of job `j` stands: its statement leads back to `start`, and touches nothing else. */
  ghost predicate Turning(start: Snap, s: Snap, ops: seq<Operation>, j: JobId, left: set<TaskId>) {
    Undoing(start, s, ops) && NoEvictions(ops) && OpsOf(ops, j) &&
    Waiting(s.jobs, j, left) && SameExcept(start.jobs, s.jobs, j)
  }

  lemma TurnStarts(s: Snap, j: JobId, left: set<TaskId>)
    requires Sound(s) && Waiting(s.jobs, j, left)
    ensures Turning(s, s, [], j, left)
  {
  }

  lemma TurnDrops(start: Snap, s: Snap, ops: seq<Operation>, j: JobId, left: set<TaskId>, u: TaskId)
    requires Turning(start, s, ops, j, left)
    ensures Turning(start, s, ops, j, left - {u})
  {
  }

  /** Placing a popped task within the future of a node is a further step of the turn. */
  lemma TurnPlaces(start: Snap, s: Snap, ops: seq<Operation>, j: JobId, left: set<TaskId>, step: Step)
    requires Turning(start, s, ops, j, left) && Guarded(s, step) && !step.StepEvict? && step.task.job == j
    ensures CanPlace(s, step.task) && !OnNode(s, step.node, step.task.uid)
    ensures Turning(start, Apply(s, step), ops + [OperationOf(step)], j, left - {step.task.uid})
  {
    hide Undoing, Guarded;
    StepExtends(start, s, ops, step);
  }

  /** When a turn ends ready, its commit binds tasks of `j` only. */
  lemma TurnCommits(start: Snap, s: Snap, ops: seq<Operation>, j: JobId, left: set<TaskId>, s': Snap)
    requires Turning(start, s, ops, j, left) && OnlyBound(s, s') && SameExcept(s.jobs, s'.jobs, j)
    ensures Sound(s') && Waiting(s'.jobs, j, left) && SameExcept(start.jobs, s'.jobs, j)
    ensures j in s.jobs && j in s'.jobs && (GangReady(s.jobs[j]) <==> GangReady(s'.jobs[j]))
  {
    hide GangReady;
    BindKeeps(s, s');
    assert OnlyBoundJob(s.jobs[j], s'.jobs[j]);
    GangReadyAfterBinding(s.jobs[j], s'.jobs[j]);
  }

  type QueueId = string

  /**
   What everybody else answers: whether a queue is overused when the k-th queue is popped; about a task, which
   is popped at most once; and, at the end of a turn, the votes of JobReady besides gang's, whether gang's vote
   of JobPipelined counts, and what the other votes come to.  `passes` is what the predicates and the error
   cache let through, `going` the other votes of JobReady just after the task was tried.
   */
  datatype Plugins = Plugins(
    overused: (nat, QueueId) -> bool,
    allocatable: Task -> bool, prePredicate: Task -> bool, passes: (Task, NodeName) -> bool, volumes: Task -> bool, going: Task -> bool,
    others: nat -> bool, heard: nat -> bool, rest: nat -> bool)

  /** A node that passes the predicates and whose future idle resource covers the task. */
  ghost predicate Candidate(p: Plugins, s: Snap, t: Task, n: NodeName) {
    n in s.nodes && Fits(s, n, t.resreq) && p.passes(t, n)
  }

  /** NextTask goes on with the next task, LeaveLoop ends the loop, Tried asks whether the job is ready now. */
  datatype Outcome = NextTask | LeaveLoop | Tried

  /** What became of one popped task. */
  datatype Try = Try(task: Task, outcome: Outcome, before: Snap, after: Snap, ops: seq<Operation>)

  /** The try left everything as it was. */
  predicate Unmoved(t: Try) {
    t.after == t.before && t.ops == []
  }

  /** The try took this step. */
  predicate Moves(t: Try, step: Step) {
    step.task.job in t.before.jobs && t.after == Apply(t.before, step) && t.ops == [OperationOf(step)]
  }

  /** Allocated if the node is idle enough, which only failing volumes prevent; pipelined otherwise. */
  ghost predicate TakesPlace(p: Plugins, t: Try, n: NodeName)
    requires n in t.before.nodes
  {
    if !IdleCovers(t.before, n, t.task.resreq) then Moves(t, StepPipeline(t.task, n))
    else if p.volumes(t.task) then Moves(t, StepAllocate(t.task, n))
    else Unmoved(t)
  }

  /** A popped task is passed over, ends the loop for want of a node, or takes a place on one of the nodes there are for it. */
  ghost predicate TryOk(p: Plugins, j: JobId, t: Try) {
    t.task.job == j && InJob(t.before, t.task) && Stored(t.before, t.task) == t.task && t.task.status.Pending? &&
    match t.outcome
    case NextTask => !p.allocatable(t.task) && Unmoved(t)
    case LeaveLoop =>
      p.allocatable(t.task) && Unmoved(t) && (p.prePredicate(t.task) ==> forall n | n in t.before.nodes :: !Candidate(p, t.before, t.task, n))
    case Tried =>
      p.allocatable(t.task) && p.prePredicate(t.task) && exists n | n in t.before.nodes :: Candidate(p, t.before, t.task, n) && TakesPlace(p, t, n)
  }

  /** The job is ready after this try. */
  ghost predicate ReadyAfter(p: Plugins, j: JobId, t: Try) {
    t.outcome.Tried? && j in t.after.jobs && GangReady(t.after.jobs[j]) && p.going(t.task)
  }

  ghost predicate Stops(p: Plugins, j: JobId, t: Try) {
    t.outcome.LeaveLoop? || ReadyAfter(p, j, t)
  }

  ghost function Reached(s: Snap, tries: seq<Try>): Snap {
    if tries == [] then s else tries[|tries| - 1].after
  }

  ghost function Operations(tries: seq<Try>): seq<Operation> {
    if tries == [] then [] else Operations(tries[..|tries| - 1]) + tries[|tries| - 1].ops
  }

  /** The tasks that are still in the heap. */
  ghost function Left(tasks: set<TaskId>, tries: seq<Try>): set<TaskId> {
    if tries == [] then tasks else Left(tasks, tries[..|tries| - 1]) - {tries[|tries| - 1].task.uid}
  }

  /** Tries of tasks in the heap, one after the other, none of them stopping the loop but perhaps the last. */
  ghost predicate Tries(p: Plugins, j: JobId, s: Snap, tasks: set<TaskId>, tries: seq<Try>) {
    tries == [] ||
    var before, t := tries[..|tries| - 1], tries[|tries| - 1];
    Tries(p, j, s, tasks, before) && (before != [] ==> !Stops(p, j, before[|before| - 1])) &&
    TryOk(p, j, t) && t.before == Reached(s, before) && t.task.uid in Left(tasks, before)
  }

  lemma OneMoreTry(p: Plugins, j: JobId, s: Snap, tasks: set<TaskId>, tries: seq<Try>, t: Try)
    requires Tries(p, j, s, tasks, tries) && (tries != [] ==> !Stops(p, j, tries[|tries| - 1]))
    requires TryOk(p, j, t) && t.before == Reached(s, tries) && t.task.uid in Left(tasks, tries)
    ensures Tries(p, j, s, tasks, tries + [t]) && Reached(s, tries + [t]) == t.after
    ensures Operations(tries + [t]) == Operations(tries) + t.ops && Left(tasks, tries + [t]) == Left(tasks, tries) - {t.task.uid}
  {
    hide TryOk, Stops;
    assert (tries + [t])[..|tries|] == tries;
  }

  /** A popped task for which there is a node, and whose volumes do not fail, is among the operations of the turn. */
  lemma {:induction false} PlacedIfPossible(p: Plugins, j: JobId, s: Snap, tasks: set<TaskId>, tries: seq<Try>, i: nat, n: NodeName)
    requires Tries(p, j, s, tasks, tries) && i < |tries|
    requires var t := tries[i];
             p.allocatable(t.task) && p.prePredicate(t.task) && Candidate(p, t.before, t.task, n) && p.volumes(t.task)
    ensures exists op :: op in Operations(tries) && op.task.uid == tries[i].task.uid && !op.kind.Evict?
    decreases |tries|
  {
    hide IdleCovers, Fits;
    if i < |tries| - 1 {
      PlacedIfPossible(p, j, s, tasks, tries[..|tries| - 1], i, n);
      var op :| op in Operations(tries[..|tries| - 1]) && op.task.uid == tries[i].task.uid && !op.kind.Evict?;
      assert op in Operations(tries);
    } else {
      assert Candidate(p, tries[i].before, tries[i].task, n);
      assert tries[i].ops[0] in Operations(tries);
    }
  }

  /** PredicateNodes and the candidate filter. */
  method FindNodes(ssn: Session, p: Plugins, t: Task) returns (candidates: set<NodeName>)
    requires ssn.Valid() && Kept(ssn.View())
    ensures candidates <= ssn.Nodes.Keys
    ensures forall n :: n in candidates <==> Candidate(p, ssn.View(), t, n)
  {
    hide Session.Valid, Kept, Fits, LessEqual;
    candidates := {};
    ssn.Keys();
    var todo := ssn.Nodes.Keys;
    while todo != {}
      invariant todo <= ssn.Nodes.Keys && candidates <= ssn.Nodes.Keys
      invariant forall n :: n in candidates <==> n !in todo && Candidate(p, ssn.View(), t, n)
      decreases todo
    {
      var n :| n in todo;
      todo := todo - {n};
      FitsIff(ssn, n, t.resreq);
      if LessEqual(t.resreq, ssn.Nodes[n].FutureIdle()) && p.passes(t, n) {
        candidates := candidates + {n};
      }
    }
  }

  /**
   Allocates the task if the node is idle enough, which only its volumes can prevent, and otherwise pipelines
   it on what the node will have.
   */
  method PlaceOne(ssn: Session, stmt: Statement, j: JobId, left: set<TaskId>, task: Task, n: NodeName, volumes: bool, ghost start: Snap)
    requires stmt.ssn == ssn && ssn.Valid() && Turning(start, ssn.View(), stmt.operations, j, left) && Kept(ssn.View())
    requires task.uid in left && InJob(ssn.View(), task) && Stored(ssn.View(), task) == task && task.job == j && task.status.Pending?
    requires n in ssn.Nodes && n in ssn.View().nodes && Fits(ssn.View(), n, task.resreq)
    modifies stmt, ssn`Shares, ssn.Jobs.Values, ssn.Nodes.Values
    ensures ssn.Valid() && Turning(start, ssn.View(), stmt.operations, j, left - {task.uid})
    ensures task.job in old(ssn.View()).jobs
    ensures var idle := IdleCovers(old(ssn.View()), n, task.resreq);
            var step := if idle then StepAllocate(task, n) else StepPipeline(task, n);
            if idle && !volumes then ssn.View() == old(ssn.View()) && stmt.operations == old(stmt.operations)
            else ssn.View() == Apply(old(ssn.View()), step) && stmt.operations == old(stmt.operations) + [OperationOf(step)]
  {
    hide Session.Valid, Session.JobsOk, Session.NodesOk, Session.JobsView, Session.NodesView, Session.View, Turning, Fits, LessEqual,
      Apply, InJob, Stored, Kept, OnNode, Guarded, OperationOf, CanPlace, Undoing, IdleCovers;
    PlacedJob(ssn.View(), task);
    ghost var s, ops := ssn.View(), stmt.operations;
    TurnDrops(start, s, ops, j, left, task.uid);
    FitsFutureIdle(ssn, n, task.resreq);
    IdleIs(ssn, n, task.resreq);
    if LessEqual(task.resreq, ssn.Nodes[n].Idle) {
      TurnPlaces(start, s, ops, j, left, StepAllocate(task, n));
      var ok := stmt.Allocate(task, n, volumes);
      assert ok == volumes;
    } else if LessEqual(task.resreq, ssn.Nodes[n].FutureIdle()) {
      TurnPlaces(start, s, ops, j, left, StepPipeline(task, n));
      stmt.Pipeline(task, n);
    }
  }

  lemma PlacedJob(s: Snap, t: Task)
    requires InJob(s, t) && Stored(s, t) == t && t.status.Pending?
    ensures t.job in s.jobs
    ensures forall n | n in s.nodes && Fits(s, n, t.resreq) :: Guarded(s, StepAllocate(t, n)) && Guarded(s, StepPipeline(t, n))
  {
  }

  /** What the loop does with one popped task, and how it goes on. */
  method TryTask(ssn: Session, stmt: Statement, p: Plugins, j: JobId, left: set<TaskId>, u: TaskId, ghost start: Snap)
    returns (outcome: Outcome, ghost t: Try, task: Task)
    requires stmt.ssn == ssn && ssn.Valid() && Turning(start, ssn.View(), stmt.operations, j, left) && u in left
    modifies stmt, ssn`Shares, ssn.Jobs.Values, ssn.Nodes.Values
    ensures ssn.Valid() && Turning(start, ssn.View(), stmt.operations, j, left - {u})
    ensures TryOk(p, j, t) && t.task == task && task.uid == u && t.outcome == outcome
    ensures t.before == old(ssn.View()) && t.after == ssn.View() && stmt.operations == old(stmt.operations) + t.ops
  {
    hide Session.Valid, Session.JobsOk, Session.NodesOk, Session.JobsView, Session.NodesView, Session.View, Turning, Waiting,
      GangReady, Sound, Kept, InJob, Stored, Fits, LessEqual, Apply, Current, SameExcept, Undoable, NoEvictions, OpsOf, IdleCovers, Candidate;
    ghost var s := ssn.View();
    TurnFacts(start, s, stmt.operations, j, left);
    TurnDrops(start, s, stmt.operations, j, left, u);
    task := InspectTask(ssn, j, u);
    if !p.allocatable(task) {
      t := Try(task, NextTask, s, s, []);
      return NextTask, t, task;
    }
    if !p.prePredicate(task) {
      t := Try(task, LeaveLoop, s, s, []);
      return LeaveLoop, t, task;
    }
    var candidates := FindNodes(ssn, p, task);
    if candidates == {} {
      t := Try(task, LeaveLoop, s, s, []);
      return LeaveLoop, t, task;
    }
    var n :| n in candidates;
    CandidateFits(p, s, task, n);
    ghost var ops := stmt.operations;
    PlaceOne(ssn, stmt, j, left, task, n, p.volumes(task), start);
    ghost var idle := IdleCovers(s, n, task.resreq);
    ghost var step := if idle then StepAllocate(task, n) else StepPipeline(task, n);
    t := Try(task, Tried, s, ssn.View(), if idle && !p.volumes(task) then [] else [OperationOf(step)]);
    return Tried, t, task;
  }

  lemma CandidateFits(p: Plugins, s: Snap, t: Task, n: NodeName)
    requires Candidate(p, s, t, n)
    ensures n in s.nodes && Fits(s, n, t.resreq)
  {
  }

  /**
   The task loop of a turn: it goes on until the heap is empty, a task finds no node, or the job is ready
   while tasks are left, for which it is then pushed back.
   */
  method PlaceTasks(ssn: Session, stmt: Statement, p: Plugins, j: JobId, tasks: set<TaskId>, ghost start: Snap)
    returns (left: set<TaskId>, pushBack: bool, ghost tries: seq<Try>)
    requires stmt.ssn == ssn && ssn.Valid() && Turning(start, ssn.View(), stmt.operations, j, tasks) && tasks != {}
    requires stmt.operations == []
    modifies stmt, ssn`Shares, ssn.Jobs.Values, ssn.Nodes.Values
    ensures ssn.Valid() && Turning(start, ssn.View(), stmt.operations, j, left) && left < tasks
    ensures Tries(p, j, old(ssn.View()), tasks, tries) && LoopEnds(p, j, tasks, tries, pushBack)
    ensures left == Left(tasks, tries) && ssn.View() == Reached(old(ssn.View()), tries) && stmt.operations == Operations(tries)
  {
    hide *;
    ghost var s := ssn.View();
    left, pushBack, tries := tasks, false, [];
    NoTries(p, j, s, tasks);
    while left != {}
      invariant ssn.Valid() && Turning(start, ssn.View(), stmt.operations, j, left)
      invariant left <= tasks && (tries == [] ==> left == tasks) && (tries != [] ==> left < tasks) && !pushBack
      invariant tries != [] ==> (pushBack <==> left != {} && ReadyAfter(p, j, tries[|tries| - 1]))
      invariant Tries(p, j, s, tasks, tries) && (tries != [] && left != {} ==> !Stops(p, j, tries[|tries| - 1]))
      invariant left == Left(tasks, tries) && ssn.View() == Reached(s, tries) && stmt.operations == Operations(tries)
      decreases left
    {
      var u :| u in left;
      var outcome, task;
      ghost var t;
      outcome, t, task := TryTask(ssn, stmt, p, j, left, u, start);
      OneMoreTry(p, j, s, tasks, tries, t);
      tries := tries + [t];
      left := left - {u};
      TryStops(p, j, t);
      if outcome.LeaveLoop? {
        break;
      }
      if outcome.NextTask? {
        continue;
      }
      TurnFacts(start, ssn.View(), stmt.operations, j, left);
      ssn.Keys();
      var ready := ssn.JobReady(j, p.going(task));
      ViewJobs(ssn);
      TryReady(p, j, t, ready);
      if ready && left != {} {
        pushBack := true;
        break;
      }
    }
    LoopEnded(p, j, tasks, tries, pushBack);
  }

  lemma TryStops(p: Plugins, j: JobId, t: Try)
    ensures t.outcome.LeaveLoop? ==> Stops(p, j, t) && !ReadyAfter(p, j, t)
    ensures t.outcome.NextTask? ==> !Stops(p, j, t) && !ReadyAfter(p, j, t)
    ensures t.outcome.Tried? ==> Stops(p, j, t) == ReadyAfter(p, j, t)
  {
  }

  lemma TryReady(p: Plugins, j: JobId, t: Try, ready: bool)
    requires t.outcome.Tried? && j in t.after.jobs && ready == (GangReady(t.after.jobs[j]) && p.going(t.task))
    ensures ready == ReadyAfter(p, j, t)
  {
  }

  lemma LoopEnded(p: Plugins, j: JobId, tasks: set<TaskId>, tries: seq<Try>, pushBack: bool)
    requires tries != [] && (Left(tasks, tries) == {} || Stops(p, j, tries[|tries| - 1]))
    requires pushBack <==> Left(tasks, tries) != {} && ReadyAfter(p, j, tries[|tries| - 1])
    ensures LoopEnds(p, j, tasks, tries, pushBack)
  {
  }

  lemma ViewJobs(ssn: Session)
    ensures ssn.View().jobs == ssn.JobsView()
  {
  }

  lemma NoTries(p: Plugins, j: JobId, s: Snap, tasks: set<TaskId>)
    ensures Tries(p, j, s, tasks, []) && Left(tasks, []) == tasks && Reached(s, []) == s && Operations([]) == []
  {
  }

  /** Why the loop ended after these tries, and whether the job is pushed back. */
  ghost predicate LoopEnds(p: Plugins, j: JobId, tasks: set<TaskId>, tries: seq<Try>, pushBack: bool) {
    tries != [] &&
    var last, left := tries[|tries| - 1], Left(tasks, tries);
    (left == {} || Stops(p, j, last)) && (pushBack <==> left != {} && ReadyAfter(p, j, last))
  }

  lemma TurnFacts(start: Snap, s: Snap, ops: seq<Operation>, j: JobId, left: set<TaskId>)
    requires Turning(start, s, ops, j, left)
    ensures Sound(s) && Kept(s) && Waiting(s.jobs, j, left) && SameExcept(start.jobs, s.jobs, j)
    ensures forall u | u in left :: Waiting(s.jobs, j, {u})
    ensures j in s.jobs && j in start.jobs
    ensures Current(s, ops) && NoEvictions(ops) && OpsOf(ops, j)
    ensures Undoable(s, ops) && UndoAll(s, ops) == start
  {
  }

  /**
   What a turn of job `j` did: its operations `ops` led to `tried`, from where discarding leads back. If the
   job was ready there, all its allocated tasks are handed to AddBindTask; if it was only pipelined, things
   stay as they are; and otherwise every job and node is as before the turn.
   */
  ghost predicate TurnEnds(start: Snap, tried: Snap, ops: seq<Operation>, end: Snap, bound0: seq<BindRequest>, bound: seq<BindRequest>,
                           j: JobId, ready: bool, pipelined: bool)
  {
    if ready then OnlyBound(tried, end) && Requested(bound) == Requested(bound0) + ToBind(ops)
    else bound == bound0 && end == if pipelined then tried else start
  }

  /** A turn: the tries, what the votes said then, and the states before and after. */
  datatype TurnRecord = TurnRecord(
    tries: seq<Try>, pushBack: bool, ready: bool, pipelined: bool,
    before: Snap, after: Snap, bound0: seq<BindRequest>, bound: seq<BindRequest>)

  /** The state that the tries of a turn led to. */
  ghost function TriedTo(t: TurnRecord): Snap {
    Reached(t.before, t.tries)
  }

  /** The k-th entry of the log is this turn of job `j` with a heap of `tasks`. */
  ghost predicate TurnOk(p: Plugins, k: nat, j: JobId, tasks: set<TaskId>, t: TurnRecord) {
    var tried, ops := TriedTo(t), Operations(t.tries);
    Tries(p, j, t.before, tasks, t.tries) && LoopEnds(p, j, tasks, t.tries, t.pushBack) &&
    Turning(t.before, tried, ops, j, Left(tasks, t.tries)) &&
    TurnEnds(t.before, tried, ops, t.after, t.bound0, t.bound, j, t.ready, t.pipelined) &&
    j in tried.jobs && t.ready == (GangReady(tried.jobs[j]) && p.others(k)) &&
    t.pipelined == (!t.ready && (p.heard(k) ==> GangPipelined(tried.jobs[j])) && p.rest(k))
  }

  /**
   One turn of job `j`, whose heap of pending tasks is `tasks`. Gang is a voter of JobReady, whose other votes
   come to `others`; in JobPipelined its vote counts if `heard`, and the other votes come to `rest`.
   */
  method Turn(ssn: Session, p: Plugins, k: nat, j: JobId, tasks: set<TaskId>)
    returns (left: set<TaskId>, pushBack: bool, ghost t: TurnRecord)
    requires ssn.Valid() && Sound(ssn.View()) && Waiting(ssn.View().jobs, j, tasks) && tasks != {}
    modifies ssn`Shares, ssn`Bound, ssn.Jobs.Values, ssn.Nodes.Values
    ensures ssn.Valid() && Sound(ssn.View()) && Waiting(ssn.View().jobs, j, left) && left < tasks
    ensures SameExcept(old(ssn.View()).jobs, ssn.View().jobs, j)
    ensures TurnOk(p, k, j, tasks, t) && t.pushBack == pushBack && left == Left(tasks, t.tries)
    ensures t.before == old(ssn.View()) && t.after == ssn.View() && t.bound0 == old(ssn.Bound) && t.bound == ssn.Bound
    ensures if t.ready then AllReady(old(ssn.Bound), ssn.Bound, j) else ssn.Bound == old(ssn.Bound)
    ensures j in ssn.View().jobs && (t.ready ==> GangReady(ssn.View().jobs[j])) && (p.heard(k) && t.pipelined ==> GangPipelined(ssn.View().jobs[j]))
    ensures p.heard(k) && !GangReady(ssn.View().jobs[j]) && !GangPipelined(ssn.View().jobs[j]) ==> ssn.View() == old(ssn.View())
  {
    hide *;
    ghost var start, bound := ssn.View(), ssn.Bound;
    var stmt := new Statement(ssn);
    TurnStarts(start, j, tasks);
    ghost var tries;
    left, pushBack, tries := PlaceTasks(ssn, stmt, p, j, tasks, start);
    ghost var tried := ssn.View();
    TurnFacts(start, tried, stmt.operations, j, left);
    WaitingStill(start.jobs, j, tasks, left);
    var ready, pipelined := Settle(ssn, stmt, p, k, j, left, start);
    t := TurnRecord(tries, pushBack, ready, pipelined, start, ssn.View(), bound, ssn.Bound);
    TurnIs(p, k, j, tasks, t, tried, stmt.operations, left);
  }

  /** The end of a turn: commits, keeps or discards what the tries did. */
  method Settle(ssn: Session, stmt: Statement, p: Plugins, k: nat, j: JobId, left: set<TaskId>, ghost start: Snap) returns (ready: bool, pipelined: bool)
    requires stmt.ssn == ssn && ssn.Valid() && Turning(start, ssn.View(), stmt.operations, j, left)
    requires Sound(start) && Waiting(start.jobs, j, left)
    modifies ssn`Shares, ssn`Bound, ssn.Jobs.Values, ssn.Nodes.Values
    ensures ssn.Valid() && Sound(ssn.View()) && Waiting(ssn.View().jobs, j, left) && SameExcept(start.jobs, ssn.View().jobs, j)
    ensures var tried := old(ssn.View());
            j in tried.jobs && ready == (GangReady(tried.jobs[j]) && p.others(k)) &&
            pipelined == (!ready && (p.heard(k) ==> GangPipelined(tried.jobs[j])) && p.rest(k))
    ensures if ready then OnlyBound(old(ssn.View()), ssn.View()) && Requested(ssn.Bound) == Requested(old(ssn.Bound)) + ToBind(stmt.operations)
            else ssn.Bound == old(ssn.Bound) && ssn.View() == if pipelined then old(ssn.View()) else start
    ensures j in ssn.View().jobs && (ready ==> GangReady(ssn.View().jobs[j]) && AllReady(old(ssn.Bound), ssn.Bound, j))
  {
    hide *;
    ghost var tried := ssn.View();
    TurnFacts(start, tried, stmt.operations, j, left);
    ssn.Keys();
    ViewJobs(ssn);
    pipelined := false;
    ready := ssn.JobReady(j, p.others(k));
    if ready {
      var _ := stmt.Commit({});
      ViewJobs(ssn);
      TurnCommits(start, tried, stmt.operations, j, left, ssn.View());
    } else {
      pipelined := ssn.JobPipelined(j, p.heard(k), p.rest(k));
      if !pipelined {
        stmt.Discard();
        WaitingStill(start.jobs, j, left, left);
      }
    }
  }

  lemma TurnIs(p: Plugins, k: nat, j: JobId, tasks: set<TaskId>, t: TurnRecord, tried: Snap, ops: seq<Operation>, left: set<TaskId>)
    requires Tries(p, j, t.before, tasks, t.tries) && LoopEnds(p, j, tasks, t.tries, t.pushBack) && Turning(t.before, tried, ops, j, left)
    requires tried == Reached(t.before, t.tries) && ops == Operations(t.tries) && left == Left(tasks, t.tries) && j in tried.jobs
    requires t.ready == (GangReady(tried.jobs[j]) && p.others(k))
    requires t.pipelined == (!t.ready && (p.heard(k) ==> GangPipelined(tried.jobs[j])) && p.rest(k))
    requires if t.ready then OnlyBound(tried, t.after) && Requested(t.bound) == Requested(t.bound0) + ToBind(ops)
             else t.bound == t.bound0 && t.after == if t.pipelined then tried else t.before
    ensures TurnOk(p, k, j, tasks, t)
    ensures !t.ready && t.pipelined && p.heard(k) ==> j in t.after.jobs && GangPipelined(t.after.jobs[j])
  {
    hide Tries, LoopEnds, Left, Reached, Operations, Turning, GangReady, GangPipelined, Requested, ToBind, OnlyBound;
  }

  lemma WaitingStill(jobs: JobMap, j: JobId, tasks: set<TaskId>, left: set<TaskId>)
    requires Waiting(jobs, j, tasks) && left <= tasks
    ensures Waiting(jobs, j, left) && SameExcept(jobs, jobs, j)
  {
  }

  // ----- the whole action, as a log

  /** Pending tasks that are not best-effort. */
  ghost function PendingTasks(j: JobState): set<TaskId> {
    set u | u in j.tasks && j.tasks[u].status.Pending? && !j.tasks[u].BestEffort()
  }

  /**
   Where the action stands: the session, the heaps, the jobs and queues that will still be popped.  The queue
   of a job never changes.
   */
  datatype Progress = Progress(state: Snap, bound: seq<BindRequest>, heaps: map<JobId, set<TaskId>>, jobs: set<JobId>, queues: set<QueueId>,
                               queueOf: map<JobId, QueueId>)

  /** What comes of popping a queue. */
  datatype Entry =
    | Overused(queue: QueueId)
    | NoJob(queue: QueueId)
    | NoTask(queue: QueueId, job: JobId)
    | Served(queue: QueueId, job: JobId, turn: TurnRecord)

  /** At first every eligible job of a known queue waits, with all its pending tasks that are not best-effort. */
  ghost function Begin(s: Snap, bound: seq<BindRequest>, eligible: set<JobId>, known: set<QueueId>): Progress {
    var jobs := set j | j in s.jobs && j in eligible && s.jobs[j].queue in known;
    Progress(s, bound, map j | j in jobs :: PendingTasks(s.jobs[j]), jobs, set j | j in jobs :: s.jobs[j].queue,
             map j | j in jobs :: s.jobs[j].queue)
  }

  ghost predicate Queued(g: Progress, q: QueueId, j: JobId) {
    j in g.jobs && j in g.queueOf && g.queueOf[j] == q && j in g.heaps
  }

  /** What the k-th pop of a queue may come to. */
  ghost predicate Happens(p: Plugins, k: nat, g: Progress, e: Entry) {
    e.queue in g.queues && (e.Overused? <==> p.overused(k, e.queue)) &&
    match e
    case Overused(_) => true
    case NoJob(q) => forall j | j in g.jobs :: !Queued(g, q, j)
    case NoTask(q, j) => Queued(g, q, j) && g.heaps[j] == {}
    case Served(q, j, t) => Queued(g, q, j) && g.heaps[j] != {} && TurnOk(p, k, j, g.heaps[j], t) && t.before == g.state && t.bound0 == g.bound
  }

  /** A queue is pushed back unless it is overused or has no job; a job only if its turn says so. */
  ghost function Next(g: Progress, e: Entry): Progress {
    match e
    case Overused(q) => g.(queues := g.queues - {q})
    case NoJob(q) => g.(queues := g.queues - {q})
    case NoTask(_, j) => g.(jobs := g.jobs - {j})
    case Served(_, j, t) =>
      var left := if j in g.heaps then Left(g.heaps[j], t.tries) else {};
      g.(state := t.after, bound := t.bound, heaps := g.heaps[j := left], jobs := if t.pushBack then g.jobs else g.jobs - {j})
  }

  ghost function At(g: Progress, log: seq<Entry>): Progress {
    if log == [] then g else Next(At(g, log[..|log| - 1]), log[|log| - 1])
  }

  /** The log of a run from `g`. */
  ghost predicate Log(p: Plugins, g: Progress, log: seq<Entry>) {
    log == [] ||
    var before := log[..|log| - 1];
    Log(p, g, before) && Happens(p, |before|, At(g, before), log[|log| - 1])
  }

  lemma OneMoreEntry(p: Plugins, g: Progress, log: seq<Entry>, e: Entry)
    requires Log(p, g, log) && Happens(p, |log|, At(g, log), e)
    ensures Log(p, g, log + [e]) && At(g, log + [e]) == Next(At(g, log), e)
  {
    hide Happens, Next;
    assert (log + [e])[..|log|] == log;
  }

  ghost predicate TurnsOf(log: seq<Entry>, k: nat, j: JobId) {
    k < |log| && log[k].Served? && log[k].job == j
  }

  ghost predicate LastTurn(log: seq<Entry>, k: nat, j: JobId) {
    TurnsOf(log, k, j) && forall i: nat | k < i < |log| :: !TurnsOf(log, i, j)
  }

  lemma LastTurnLater(log: seq<Entry>, e: Entry, j: JobId)
    ensures forall k: nat | k < |log| && !TurnsOf(log + [e], |log|, j) :: LastTurn(log, k, j) <==> LastTurn(log + [e], k, j)
    ensures TurnsOf(log + [e], |log|, j) ==> LastTurn(log + [e], |log|, j)
  {
    var more := log + [e];
    assert forall k: nat | k < |log| :: more[k] == log[k];
    forall k: nat | k < |log| && !TurnsOf(more, |log|, j)
      ensures LastTurn(log, k, j) <==> LastTurn(more, k, j)
    {
      if LastTurn(log, k, j) {
        forall i: nat | k < i < |more| ensures !TurnsOf(more, i, j) {
          assert i < |log| ==> !TurnsOf(log, i, j);
        }
      }
      if LastTurn(more, k, j) {
        forall i: nat | k < i < |log| ensures !TurnsOf(log, i, j) {
          assert !TurnsOf(more, i, j);
        }
      }
    }
  }

  /** The turn did not leave the job anything to come back for: its heap is empty by now, or a task found no node. */
  ghost predicate NothingToComeBackFor(g: Progress, e: Entry, j: JobId) {
    e.Served? && e.turn.tries != [] && j in g.heaps &&
    (g.heaps[j] == {} || e.turn.tries[|e.turn.tries| - 1].outcome.LeaveLoop?)
  }

  /** The job has had a turn, and its last one left nothing to come back for. */
  ghost predicate Finished(g: Progress, log: seq<Entry>, j: JobId) {
    exists k: nat | k < |log| :: LastTurn(log, k, j) && NothingToComeBackFor(g, log[k], j)
  }

  /** A job with tasks still waits with tasks left, or is finished. */
  ghost predicate JobAccounted(g: Progress, log: seq<Entry>, j: JobId) {
    j in g.heaps && if j in g.jobs then g.heaps[j] != {} else Finished(g, log, j)
  }

  lemma {:induction false} JobsAccounted(p: Plugins, g: Progress, log: seq<Entry>, j: JobId)
    requires Log(p, g, log) && j in g.jobs && j in g.heaps && g.heaps[j] != {}
    ensures JobAccounted(At(g, log), log, j)
    decreases |log|
  {
    hide Tries, Turning, TurnEnds, Left, Reached, Operations, Stops, LastTurn, ReadyAfter;
    if log != [] {
      var before, e := log[..|log| - 1], log[|log| - 1];
      assert before + [e] == log;
      JobsAccounted(p, g, before, j);
      LastTurnLater(before, e, j);
      AccountedNext(p, At(g, before), before, e, j);
    }
  }

  lemma AccountedNext(p: Plugins, g: Progress, log: seq<Entry>, e: Entry, j: JobId)
    requires JobAccounted(g, log, j) && Happens(p, |log|, g, e)
    requires forall k: nat | k < |log| && !TurnsOf(log + [e], |log|, j) :: LastTurn(log, k, j) <==> LastTurn(log + [e], k, j)
    requires TurnsOf(log + [e], |log|, j) ==> LastTurn(log + [e], |log|, j)
    ensures JobAccounted(Next(g, e), log + [e], j)
  {
    hide Tries, Turning, TurnEnds, Left, Reached, Operations, TryOk, ReadyAfter, LastTurn;
    var more := log + [e];
    assert more[|log|] == e && forall k: nat | k < |log| :: more[k] == log[k];
    if e.Served? && e.job == j {
      assert LastTurn(more, |log|, j);
    } else if j !in g.jobs {
      var k: nat :| k < |log| && LastTurn(log, k, j) && NothingToComeBackFor(g, log[k], j);
      LastTurnIn(log, k, j);
      assert LastTurn(more, k, j) && NothingToComeBackFor(Next(g, e), more[k], j);
    }
  }

  lemma LastTurnIn(log: seq<Entry>, k: nat, j: JobId)
    requires LastTurn(log, k, j)
    ensures k < |log| && log[k].Served? && log[k].job == j
  {
  }

  /** A queue that is never overused is popped until it has no job. */
  lemma {:induction false} QueuesAccounted(p: Plugins, g: Progress, log: seq<Entry>, q: QueueId)
    requires Log(p, g, log) && q in g.queues && forall k :: !p.overused(k, q)
    ensures var g' := At(g, log);
            g'.queueOf == g.queueOf && g'.heaps.Keys == g.heaps.Keys && (q in g'.queues || forall j | j in g'.jobs :: !Queued(g', q, j))
    decreases |log|
  {
    hide TurnOk, Left;
    if log != [] {
      QueuesAccounted(p, g, log[..|log| - 1], q);
    }
  }

  /** The job has pending tasks, and its queue is never overused. */
  ghost predicate Deserves(p: Plugins, g: Progress, j: JobId) {
    j in g.heaps && g.heaps[j] != {} && j in g.queueOf && g.queueOf[j] in g.queues && forall k :: !p.overused(k, g.queueOf[j])
  }

  /** Once all queues are gone, every such job is finished. */
  lemma AllServed(p: Plugins, g: Progress, log: seq<Entry>)
    requires Log(p, g, log) && At(g, log).queues == {}
    ensures forall j | j in g.jobs && Deserves(p, g, j) :: Finished(At(g, log), log, j)
  {
    hide Log, At, Finished;
    forall j | j in g.jobs && Deserves(p, g, j) ensures Finished(At(g, log), log, j) {
      JobsAccounted(p, g, log, j);
      QueuesAccounted(p, g, log, g.queueOf[j]);
      assert j !in At(g, log).jobs;
    }
  }

  /** Every task handed to AddBindTask since `before` belonged to a job whose gang was ready at that moment. */
  ghost predicate BoundWhenReady(before: seq<BindRequest>, after: seq<BindRequest>) {
    before <= after && forall k | |before| <= k < |after| :: GangReady(after[k].job)
  }

  lemma BoundAfterTurn(before: seq<BindRequest>, middle: seq<BindRequest>, after: seq<BindRequest>, j: JobId)
    requires BoundWhenReady(before, middle) && (after == middle || AllReady(middle, after, j))
    ensures BoundWhenReady(before, after)
  {
  }

  /** The heap of a job's pending tasks, made when the job is first popped; best-effort tasks are skipped. */
  method FillHeap(ssn: Session, j: JobId) returns (tasks: set<TaskId>)
    requires ssn.Valid() && j in ssn.Jobs
    ensures j in ssn.View().jobs && tasks == PendingTasks(ssn.View().jobs[j])
  {
    hide SharesMatch, Session.NodesOk;
    ssn.Jobs[j].BucketIs(Pending);
    tasks := set u | u in ssn.Jobs[j].Bucket(Pending) && !IsEmpty(ssn.Jobs[j].Tasks[u].resreq);
  }

  /** The queues' heaps hold the jobs that still wait. */
  ghost predicate JobsFiled(g: Progress, jobsMap: map<QueueId, set<JobId>>) {
    forall q, j :: (q in jobsMap && j in jobsMap[q]) <==> Queued(g, q, j)
  }

  /** Heaps that have been made, and those that will be. */
  ghost predicate HeapsFiled(g: Progress, pending: map<JobId, set<TaskId>>) {
    AllWaiting(g.state.jobs, g.heaps) &&
    (forall j | j in pending :: j in g.heaps && g.heaps[j] == pending[j]) &&
    forall j | j in g.heaps && j !in pending :: j in g.state.jobs && g.heaps[j] == PendingTasks(g.state.jobs[j])
  }

  /** What no heap has yielded yet. */
  ghost function Unpopped(heaps: map<JobId, set<TaskId>>): set<(JobId, TaskId)> {
    set j, u | j in heaps && u in heaps[j] :: (j, u)
  }

  lemma Refiled(g: Progress, e: Entry, jobsMap: map<QueueId, set<JobId>>)
    requires JobsFiled(g, jobsMap)
    ensures e.Overused? || e.NoJob? ==> JobsFiled(Next(g, e), jobsMap)
    ensures (e.NoTask? || (e.Served? && e.job in g.heaps)) && e.queue in jobsMap && Queued(g, e.queue, e.job) ==>
              JobsFiled(Next(g, e), if e.Served? && e.turn.pushBack then jobsMap else jobsMap[e.queue := jobsMap[e.queue] - {e.job}])
  {
    hide Left;
    if e.Overused? || e.NoJob? {
      assert forall q, j :: Queued(Next(g, e), q, j) <==> Queued(g, q, j);
    }
    if (e.NoTask? || (e.Served? && e.job in g.heaps)) && e.queue in jobsMap && Queued(g, e.queue, e.job) {
      var g', rest := Next(g, e), if e.Served? && e.turn.pushBack then jobsMap else jobsMap[e.queue := jobsMap[e.queue] - {e.job}];
      forall q, j ensures (q in rest && j in rest[q]) <==> Queued(g', q, j) {
        assert (q in jobsMap && j in jobsMap[q]) <==> Queued(g, q, j);
      }
    }
  }

  /** The heaps after a turn, of which there is less than before. */
  lemma TurnTaken(g: Progress, e: Entry, pending: map<JobId, set<TaskId>>, left: set<TaskId>)
    requires HeapsFiled(g, pending) && e.Served? && e.job in pending && left == Left(pending[e.job], e.turn.tries) && left < pending[e.job]
    requires SameExcept(g.state.jobs, e.turn.after.jobs, e.job) && Waiting(e.turn.after.jobs, e.job, left)
    ensures HeapsFiled(Next(g, e), pending[e.job := left])
    ensures Unpopped(Next(g, e).heaps) < Unpopped(g.heaps)
  {
    hide Left;
    var g' := Next(g, e);
    var u :| u in pending[e.job] && u !in left;
    assert (e.job, u) in Unpopped(g.heaps) && (e.job, u) !in Unpopped(g'.heaps);
  }

  lemma HeapFilled(g: Progress, pending: map<JobId, set<TaskId>>, j: JobId, tasks: set<TaskId>)
    requires HeapsFiled(g, pending) && j in g.heaps && j in g.state.jobs && tasks == PendingTasks(g.state.jobs[j]) && j !in pending
    ensures HeapsFiled(g, pending[j := tasks])
  {
  }

  lemma HeapIs(g: Progress, pending: map<JobId, set<TaskId>>, j: JobId)
    requires HeapsFiled(g, pending) && j in pending
    ensures j in g.heaps && g.heaps[j] == pending[j] && Waiting(g.state.jobs, j, pending[j])
  {
  }

  lemma InView(g: Progress, pending: map<JobId, set<TaskId>>, q: QueueId, j: JobId)
    requires HeapsFiled(g, pending) && Queued(g, q, j)
    ensures j in g.state.jobs && j in g.heaps && j in g.jobs
  {
  }

  lemma IsQueued(g: Progress, jobsMap: map<QueueId, set<JobId>>, q: QueueId)
    requires JobsFiled(g, jobsMap)
    ensures q in jobsMap ==> forall j | j in jobsMap[q] :: Queued(g, q, j)
    ensures q !in jobsMap || jobsMap[q] == {} ==> forall j | j in g.jobs :: !Queued(g, q, j)
  {
  }

  /** The jobs that take part, by queue; `known` are the queues the session knows. */
  method QueueJobs(ssn: Session, eligible: set<JobId>, known: set<QueueId>, ghost bound: seq<BindRequest>)
    returns (jobsMap: map<QueueId, set<JobId>>, queues: set<QueueId>)
    requires ssn.Valid()
    ensures var g := Begin(ssn.View(), bound, eligible, known); JobsFiled(g, jobsMap) && queues == g.queues
  {
    hide Session.Valid, Session.View, PendingTasks;
    jobsMap, queues := map[], {};
    var todo := ssn.Jobs.Keys;
    ssn.Keys();
    ghost var s := ssn.View();
    while todo != {}
      invariant todo <= ssn.Jobs.Keys
      invariant forall q, j :: (q in jobsMap && j in jobsMap[q]) <==> (j in s.jobs && j !in todo && j in eligible && q in known && s.jobs[j].queue == q)
      invariant forall q :: q in queues <==> q in jobsMap
      invariant forall q | q in jobsMap :: jobsMap[q] != {}
      decreases todo
    {
      var j :| j in todo;
      todo := todo - {j};
      ssn.QueueIs(j);
      var q := ssn.Jobs[j].Queue;
      if j in eligible && q in known {
        if q !in jobsMap {
          jobsMap := jobsMap[q := {}];
          queues := queues + {q};
        }
        jobsMap := jobsMap[q := jobsMap[q] + {j}];
      }
    }
    FiledFirst(s, bound, eligible, known, jobsMap, queues);
  }

  lemma FiledFirst(s: Snap, bound: seq<BindRequest>, eligible: set<JobId>, known: set<QueueId>, jobsMap: map<QueueId, set<JobId>>, queues: set<QueueId>)
    requires forall q, j :: (q in jobsMap && j in jobsMap[q]) <==> (j in s.jobs && j in eligible && q in known && s.jobs[j].queue == q)
    requires forall q :: q in queues <==> q in jobsMap
    requires forall q | q in jobsMap :: jobsMap[q] != {}
    ensures var g := Begin(s, bound, eligible, known); JobsFiled(g, jobsMap) && queues == g.queues
  {
    hide PendingTasks;
    var g := Begin(s, bound, eligible, known);
    forall q ensures q in queues <==> q in g.queues {
      if q in jobsMap {
        var j :| j in jobsMap[q];
        assert j in g.jobs && s.jobs[j].queue == q;
      }
      if q in g.queues {
        var j :| j in g.jobs && s.jobs[j].queue == q;
        assert q in jobsMap && j in jobsMap[q];
      }
    }
  }

  /** The variables of the action stand as the log says. */
  ghost predicate Standing(p: Plugins, g0: Progress, log: seq<Entry>, s: Snap, bound: seq<BindRequest>, queues: set<QueueId>,
                           jobsMap: map<QueueId, set<JobId>>, pending: map<JobId, set<TaskId>>)
  {
    var g := At(g0, log);
    Log(p, g0, log) && g.state == s && g.bound == bound && g.queues == queues && JobsFiled(g, jobsMap) && HeapsFiled(g, pending)
  }

  lemma BeginsWith(p: Plugins, s: Snap, bound: seq<BindRequest>, eligible: set<JobId>, known: set<QueueId>,
                   jobsMap: map<QueueId, set<JobId>>, queues: set<QueueId>)
    requires var g := Begin(s, bound, eligible, known); JobsFiled(g, jobsMap) && queues == g.queues
    ensures Standing(p, Begin(s, bound, eligible, known), [], s, bound, queues, jobsMap, map[]) && BoundWhenReady(bound, bound)
  {
    hide JobsFiled;
  }

  lemma EndsWith(p: Plugins, g0: Progress, log: seq<Entry>, s: Snap, bound: seq<BindRequest>,
                 jobsMap: map<QueueId, set<JobId>>, pending: map<JobId, set<TaskId>>)
    requires Standing(p, g0, log, s, bound, {}, jobsMap, pending)
    ensures Log(p, g0, log) && At(g0, log).queues == {} && At(g0, log).state == s && At(g0, log).bound == bound
    ensures forall j | j in g0.jobs && Deserves(p, g0, j) :: Finished(At(g0, log), log, j)
  {
    hide Log, At, Finished, Deserves, JobsFiled, HeapsFiled;
    AllServed(p, g0, log);
  }

  /** An overused queue, or one without jobs, is dropped. */
  lemma QueueDropped(p: Plugins, g0: Progress, log: seq<Entry>, s: Snap, bound: seq<BindRequest>, queues: set<QueueId>,
                     jobsMap: map<QueueId, set<JobId>>, pending: map<JobId, set<TaskId>>, q: QueueId)
    requires Standing(p, g0, log, s, bound, queues, jobsMap, pending) && q in queues
    requires p.overused(|log|, q) || q !in jobsMap || jobsMap[q] == {}
    ensures var log' := log + [if p.overused(|log|, q) then Overused(q) else NoJob(q)];
            Standing(p, g0, log', s, bound, queues - {q}, jobsMap, pending) &&
            At(g0, log').heaps == At(g0, log).heaps && At(g0, log').jobs == At(g0, log).jobs
  {
    hide Log, At, AllWaiting, PendingTasks;
    var e := if p.overused(|log|, q) then Overused(q) else NoJob(q);
    OneMoreEntry(p, g0, log, e);
    Refiled(At(g0, log), e, jobsMap);
  }

  /** A job whose heap is empty is dropped. */
  lemma JobDropped(p: Plugins, g0: Progress, log: seq<Entry>, s: Snap, bound: seq<BindRequest>, queues: set<QueueId>,
                   jobsMap: map<QueueId, set<JobId>>, pending: map<JobId, set<TaskId>>, q: QueueId, j: JobId)
    requires Standing(p, g0, log, s, bound, queues, jobsMap, pending) && q in queues && !p.overused(|log|, q)
    requires q in jobsMap && j in jobsMap[q] && j in pending && pending[j] == {}
    ensures var log' := log + [NoTask(q, j)];
            Standing(p, g0, log', s, bound, queues, jobsMap[q := jobsMap[q] - {j}], pending) &&
            At(g0, log').heaps == At(g0, log).heaps && At(g0, log').jobs < At(g0, log).jobs
  {
    hide Log, At, AllWaiting, PendingTasks;
    OneMoreEntry(p, g0, log, NoTask(q, j));
    Refiled(At(g0, log), NoTask(q, j), jobsMap);
  }

  /** After a turn there is less to do. */
  lemma TurnLogged(p: Plugins, g0: Progress, log: seq<Entry>, s: Snap, bound: seq<BindRequest>, queues: set<QueueId>,
                   jobsMap: map<QueueId, set<JobId>>, pending: map<JobId, set<TaskId>>, q: QueueId, j: JobId, t: TurnRecord)
    requires Standing(p, g0, log, s, bound, queues, jobsMap, pending) && q in queues && !p.overused(|log|, q)
    requires q in jobsMap && j in jobsMap[q] && j in pending && pending[j] != {}
    requires TurnOk(p, |log|, j, pending[j], t) && t.before == s && t.bound0 == bound
    requires var left := Left(pending[j], t.tries); left < pending[j] && Waiting(t.after.jobs, j, left)
    requires SameExcept(s.jobs, t.after.jobs, j)
    ensures var log' := log + [Served(q, j, t)];
            Standing(p, g0, log', t.after, t.bound, queues, if t.pushBack then jobsMap else jobsMap[q := jobsMap[q] - {j}],
                     pending[j := Left(pending[j], t.tries)]) &&
            Unpopped(At(g0, log').heaps) < Unpopped(At(g0, log).heaps)
  {
    hide Log, At, AllWaiting, PendingTasks, TurnOk, SameExcept, Waiting, Left, HeapsFiled, Unpopped, JobsFiled;
    var e := Served(q, j, t);
    HeapIs(At(g0, log), pending, j);
    IsQueued(At(g0, log), jobsMap, q);
    OneMoreEntry(p, g0, log, e);
    Refiled(At(g0, log), e, jobsMap);
    TurnTaken(At(g0, log), e, pending, Left(pending[j], t.tries));
  }

  /** A popped job is known; its heap can be made, and is then a heap of pending tasks. */
  lemma JobPopped(p: Plugins, g0: Progress, log: seq<Entry>, s: Snap, bound: seq<BindRequest>, queues: set<QueueId>,
                  jobsMap: map<QueueId, set<JobId>>, pending: map<JobId, set<TaskId>>, q: QueueId, j: JobId)
    requires Standing(p, g0, log, s, bound, queues, jobsMap, pending) && q in jobsMap && j in jobsMap[q]
    ensures j in s.jobs
    ensures j in pending ==> Waiting(s.jobs, j, pending[j])
    ensures j !in pending ==> Standing(p, g0, log, s, bound, queues, jobsMap, pending[j := PendingTasks(s.jobs[j])]) &&
                              Waiting(s.jobs, j, PendingTasks(s.jobs[j]))
  {
    hide Log, At, JobsFiled;
    IsQueued(At(g0, log), jobsMap, q);
    InView(At(g0, log), pending, q, j);
    if j in pending {
      HeapIs(At(g0, log), pending, j);
    } else {
      HeapFilled(At(g0, log), pending, j, PendingTasks(s.jobs[j]));
      HeapIs(At(g0, log), pending[j := PendingTasks(s.jobs[j])], j);
    }
  }

  /**
   The whole action, under any plugins.  It ends; it keeps every ledger right and every promise kept; a task
   reaches AddBindTask only while its job's gang is ready.  What it did is a log of pops of queues, each as
   `Happens` says, from the state at the beginning to that at the end, when no queue is left; and so every
   eligible job with pending tasks whose queue was never overused has had a turn, and its last one left
   nothing to come back for.
   */
  method Execute(ssn: Session, eligible: set<JobId>, known: set<QueueId>, p: Plugins) returns (ghost log: seq<Entry>)
    requires ssn.Valid() && Sound(ssn.View())
    modifies ssn`Shares, ssn`Bound, ssn.Jobs.Values, ssn.Nodes.Values
    ensures ssn.Valid() && Sound(ssn.View())
    ensures BoundWhenReady(old(ssn.Bound), ssn.Bound)
    ensures var g := Begin(old(ssn.View()), old(ssn.Bound), eligible, known);
            Log(p, g, log) && At(g, log).queues == {} && At(g, log).state == ssn.View() && At(g, log).bound == ssn.Bound &&
            forall j | j in g.jobs && Deserves(p, g, j) :: Finished(At(g, log), log, j)
  {
    hide *;
    ghost var g0 := Begin(ssn.View(), ssn.Bound, eligible, known);
    var jobsMap, queues := QueueJobs(ssn, eligible, known, ssn.Bound);
    var pending: map<JobId, set<TaskId>> := map[];
    var k := 0;
    log := [];
    BeginsWith(p, ssn.View(), ssn.Bound, eligible, known, jobsMap, queues);
    while queues != {}
      invariant ssn.Valid() && Sound(ssn.View())
      invariant BoundWhenReady(old(ssn.Bound), ssn.Bound)
      invariant |log| == k && Standing(p, g0, log, ssn.View(), ssn.Bound, queues, jobsMap, pending)
      decreases Unpopped(At(g0, log).heaps), At(g0, log).jobs, queues
    {
      var queue :| queue in queues;
      if p.overused(k, queue) || queue !in jobsMap || jobsMap[queue] == {} {
        QueueDropped(p, g0, log, ssn.View(), ssn.Bound, queues, jobsMap, pending, queue);
        log := log + [if p.overused(k, queue) then Overused(queue) else NoJob(queue)];
        queues := queues - {queue};
      } else {
        pending, jobsMap, log := ServeJob(ssn, p, k, queue, queues, jobsMap, pending, g0, log, old(ssn.Bound));
      }
      k := k + 1;
    }
    EndsWith(p, g0, log, ssn.View(), ssn.Bound, jobsMap, pending);
  }

  /** Pops a job of the queue, which stays in the heap of queues. */
  method ServeJob(ssn: Session, p: Plugins, k: nat, queue: QueueId, queues: set<QueueId>, jobsMap0: map<QueueId, set<JobId>>,
                  pending0: map<JobId, set<TaskId>>, ghost g0: Progress, ghost log0: seq<Entry>, ghost bound0: seq<BindRequest>)
    returns (pending: map<JobId, set<TaskId>>, jobsMap: map<QueueId, set<JobId>>, ghost log: seq<Entry>)
    requires ssn.Valid() && Sound(ssn.View()) && BoundWhenReady(bound0, ssn.Bound) && k == |log0|
    requires Standing(p, g0, log0, ssn.View(), ssn.Bound, queues, jobsMap0, pending0)
    requires queue in queues && !p.overused(k, queue) && queue in jobsMap0 && jobsMap0[queue] != {}
    modifies ssn`Shares, ssn`Bound, ssn.Jobs.Values, ssn.Nodes.Values
    ensures ssn.Valid() && Sound(ssn.View()) && BoundWhenReady(bound0, ssn.Bound) && |log| == k + 1
    ensures Standing(p, g0, log, ssn.View(), ssn.Bound, queues, jobsMap, pending)
    ensures Unpopped(At(g0, log).heaps) < Unpopped(At(g0, log0).heaps) ||
            (At(g0, log).heaps == At(g0, log0).heaps && At(g0, log).jobs < At(g0, log0).jobs)
  {
    hide *;
    pending, jobsMap := pending0, jobsMap0;
    ghost var bound := ssn.Bound;
    var j :| j in jobsMap[queue];
    JobPopped(p, g0, log0, ssn.View(), ssn.Bound, queues, jobsMap, pending, queue, j);
    ssn.Keys();
    if j !in pending {
      var tasks := FillHeap(ssn, j);
      pending := pending[j := tasks];
    }
    jobsMap := jobsMap[queue := jobsMap[queue] - {j}];
    if pending[j] == {} {
      JobDropped(p, g0, log0, ssn.View(), ssn.Bound, queues, jobsMap0, pending, queue, j);
      log := log0 + [NoTask(queue, j)];
      return;
    }
    var left, pushBack;
    ghost var t;
    left, pushBack, t := Turn(ssn, p, k, j, pending[j]);
    BoundAfterTurn(bound0, bound, ssn.Bound, j);
    TurnLogged(p, g0, log0, t.before, bound, queues, jobsMap0, pending, queue, j, t);
    log := log0 + [Served(queue, j, t)];
    pending := pending[j := left];
    if pushBack {
      jobsMap := jobsMap[queue := jobsMap[queue] + {j}];
      assert jobsMap[queue] == jobsMap0[queue];
      assert jobsMap == jobsMap0;
    }
  }
}
