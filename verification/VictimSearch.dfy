/**
 One preemptor's search for victims, node by node (the function preempt of
 pkg/scheduler/actions/preempt/preempt.go, ValidateVictims of pkg/scheduler/util/scheduler_helper.go).
 */
module VictimSearch {
  import opened Resources
  import opened Sums
  import opened Tasks
  import opened Jobs
  import opened Sessions
  import opened Statements
  import opened Promises
  import opened Takings
  import opened Gang
  import opened Votes

  /** The sum of the requests of some victims. */
  ghost function Requested(vs: set<Task>, d: Dim): int {
    Sum(map t | t in vs :: Get(t.resreq, d))
  }

  lemma RequestedTake(vs: set<Task>, v: Task)
    requires v in vs
    ensures forall d :: Requested(vs, d) == Get(v.resreq, d) + Requested(vs - {v}, d)
  {
    forall d
      ensures Requested(vs, d) == Get(v.resreq, d) + Requested(vs - {v}, d)
    {
      var m := map t | t in vs :: Get(t.resreq, d);
      SumAt(m, v);
      assert m - {v} == map t | t in vs - {v} :: Get(t.resreq, d);
    }
  }

  /** Victims on node `n`: running there, known to their jobs, each once. */
  ghost predicate VictimsOn(s: Snap, n: NodeName, vs: set<Task>) {
    (forall v | v in vs :: v.node == n && Guarded(s, StepEvict(v))) &&
    (forall v, w | v in vs && w in vs && v.uid == w.uid :: v == w)
  }

  /** Evicting one victim leaves the others in place. */
  lemma OtherVictims(s: Snap, n: NodeName, vs: set<Task>, v: Task)
    requires Linked(s) && VictimsOn(s, n, vs) && v in vs
    ensures VictimsOn(Apply(s, StepEvict(v)), n, vs - {v})
  {
    forall w | w in vs - {v}
      ensures w.node == n && Guarded(Apply(s, StepEvict(v)), StepEvict(w))
    {
      assert Guarded(s, StepEvict(w)) && Guarded(s, StepEvict(v));
      assert w.uid != v.uid;
    }
  }

  /**
   What a preemptor may change: tasks that wait still wait, except itself, and, where gang decides, every
   other job whose gang had its minimum still has it.
   */
  ghost predicate Spares(s: Snap, s': Snap, preemptor: Task, gang: bool) {
    KeepsWaiting(s, s', preemptor) &&
    (gang ==> forall j | j in s.jobs && j != preemptor.job && EnoughReady(s.jobs[j]) :: EnoughReady(s'.jobs[j]))
  }

  lemma SparesWaiting(s: Snap, s': Snap, preemptor: Task, gang: bool)
    requires Spares(s, s', preemptor, gang)
    ensures KeepsWaiting(s, s', preemptor)
  {
  }

  /** Every gang that had its minimum still has it, but perhaps those of the jobs in `but`. */
  ghost predicate GangsKept(s: Snap, s': Snap, but: set<JobId>) {
    forall j | j in s.jobs && j !in but && EnoughReady(s.jobs[j]) :: j in s'.jobs && EnoughReady(s'.jobs[j])
  }

  lemma SparesGangs(s: Snap, s': Snap, preemptor: Task)
    requires Spares(s, s', preemptor, true)
    ensures GangsKept(s, s', {preemptor.job})
  {
    hide EnoughReady;
  }

  lemma GangsKeptThen(s: Snap, s1: Snap, s2: Snap, first: set<JobId>, second: set<JobId>, but: set<JobId>)
    requires GangsKept(s, s1, first) && GangsKept(s1, s2, second) && first <= but && second <= but
    ensures GangsKept(s, s2, but)
  {
    hide EnoughReady;
  }

  lemma GangsKeptHere(s: Snap, but: set<JobId>)
    ensures GangsKept(s, s, but)
  {
  }

  lemma GangsKeptBound(s: Snap, s': Snap, but: set<JobId>)
    requires OnlyBound(s, s')
    ensures GangsKept(s, s', but)
  {
    forall j | j in s.jobs && EnoughReady(s.jobs[j]) ensures j in s'.jobs && EnoughReady(s'.jobs[j]) {
      assert OnlyBoundJob(s.jobs[j], s'.jobs[j]);
      SameOccupants(s.jobs[j], s'.jobs[j], false);
    }
  }

  lemma SparesAtFirst(s: Snap, preemptor: Task)
    ensures Spares(s, s, preemptor, true)
  {
  }

  lemma SparesAfterEvict(s0: Snap, s: Snap, preemptor: Task, vs: set<Task>, v: Task, gang: bool)
    requires Spares(s0, s, preemptor, gang) && (gang ==> Budgeted(s.jobs, vs)) && v in vs && Guarded(s, StepEvict(v))
    ensures v.job in s.jobs && (gang ==> Budgeted(Apply(s, StepEvict(v)).jobs, vs - {v}))
    ensures Spares(s0, Apply(s, StepEvict(v)), preemptor, gang)
  {
    hide EnoughReady, Budgeted;
    if gang {
      BudgetAfterEvict(s.jobs, vs, v);
    }
  }

  lemma SparesLess(s0: Snap, s: Snap, preemptor: Task, gang: bool, here: bool)
    requires Spares(s0, s, preemptor, gang)
    ensures Spares(s0, s, preemptor, gang && here)
  {
  }

  lemma SparesAfterPlace(s0: Snap, s: Snap, preemptor: Task, step: Step, gang: bool)
    requires Spares(s0, s, preemptor, gang) && Guarded(s, step) && !step.StepEvict? && step.task == preemptor
    ensures preemptor.job in s.jobs && Spares(s0, Apply(s, step), preemptor, gang)
  {
    hide EnoughReady;
  }

  /** What a preemptor of job `j` may take: in the first phase from other jobs of its queue, in the second from its own job. */
  function ClaimOf(j: JobId, sameJob: bool): Claim {
    if sameJob then Within(j) else Between(j)
  }

  /** The filters of preempt. */
  predicate Eligible(s: Snap, preemptor: Task, t: Task, sameJob: bool) {
    t.status.Running? && Grants(s.jobs, ClaimOf(preemptor.job, sameJob), t)
  }

  /** A task as node `n` holds it. */
  predicate Held(s: Snap, n: NodeName, t: Task) {
    OnNode(s, n, t.uid) && s.nodes[n].tasks[t.uid] == t
  }

  /** The victims that the filter of preempt lets through on node `n`. */
  method Preemptees(ssn: Session, preemptor: Task, n: NodeName, sameJob: bool) returns (preemptees: seq<Task>)
    requires ssn.Valid() && Linked(ssn.View()) && n in ssn.Nodes && preemptor.job in ssn.Jobs
    ensures preemptor.job in ssn.View().jobs
    ensures VictimsOn(ssn.View(), n, set t | t in preemptees)
    ensures Distinct(preemptees) && forall i | 0 <= i < |preemptees| :: preemptees[i].job in ssn.Jobs
    ensures forall t :: t in preemptees <==> Held(ssn.View(), n, t) && Eligible(ssn.View(), preemptor, t, sameJob)
  {
    hide Session.Valid, Linked, Guarded, IsEmpty, Session.View, Eligible, Distinct;
    preemptees := [];
    DistinctGrows([], preemptor);
    ssn.Keys();
    NodeTasks(ssn, n);
    var todo := ssn.Nodes[n].Tasks.Keys;
    while todo != {}
      invariant todo <= ssn.Nodes[n].Tasks.Keys
      invariant forall t | t in preemptees :: t.uid in ssn.Nodes[n].Tasks && ssn.Nodes[n].Tasks[t.uid] == t
      invariant forall t | t in preemptees :: t.node == n && Guarded(ssn.View(), StepEvict(t))
      invariant forall i | 0 <= i < |preemptees| :: preemptees[i].job in ssn.Jobs
      invariant Distinct(preemptees) && forall i | 0 <= i < |preemptees| :: preemptees[i].uid !in todo
      invariant forall u | u in ssn.Nodes[n].Tasks && u !in todo ::
                  ssn.Nodes[n].Tasks[u] in preemptees <==> Eligible(ssn.View(), preemptor, ssn.Nodes[n].Tasks[u], sameJob)
      decreases todo
    {
      var u :| u in todo;
      todo := todo - {u};
      var task := ssn.Nodes[n].Tasks[u];
      CopyUid(ssn, n, u);
      EligibleIs(ssn, preemptor, task, sameJob);
      if task.status != Running || IsEmpty(task.resreq) {
        continue;
      }
      var wanted := sameJob && preemptor.job == task.job;
      if !sameJob && task.preemptable && task.job in ssn.Jobs {
        wanted := ssn.Jobs[task.job].Queue == ssn.Jobs[preemptor.job].Queue && preemptor.job != task.job;
      }
      if wanted {
        CopyIsOriginal(ssn, n, u);
        DistinctGrows(preemptees, task);
        preemptees := preemptees + [task];
      }
    }
  }

  lemma EligibleIs(ssn: Session, preemptor: Task, t: Task, sameJob: bool)
    requires preemptor.job in ssn.Jobs
    ensures Eligible(ssn.View(), preemptor, t, sameJob) <==>
            t.status == Running && !IsEmpty(t.resreq) &&
            if sameJob then preemptor.job == t.job
            else t.preemptable && t.job in ssn.Jobs && ssn.Jobs[t.job].Queue == ssn.Jobs[preemptor.job].Queue && preemptor.job != t.job
  {
  }

  lemma DistinctGrows(ts: seq<Task>, t: Task)
    ensures Distinct([])
    ensures Distinct(ts) && (forall i | 0 <= i < |ts| :: ts[i].uid != t.uid) ==> Distinct(ts + [t])
  {
  }

  lemma NodeTasks(ssn: Session, n: NodeName)
    requires n in ssn.Nodes
    ensures n in ssn.View().nodes && ssn.View().nodes[n].tasks == ssn.Nodes[n].Tasks
  {
  }

  lemma CopyUid(ssn: Session, n: NodeName, u: TaskId)
    requires ssn.Valid() && n in ssn.Nodes && u in ssn.Nodes[n].Tasks
    ensures ssn.Nodes[n].Tasks[u].uid == u
  {
    assert ssn.Nodes[n].Valid();
  }

  /** A running copy on a node is its job's task, value for value. */
  lemma CopyIsOriginal(ssn: Session, n: NodeName, u: TaskId)
    requires ssn.Valid() && Linked(ssn.View()) && n in ssn.Nodes && u in ssn.Nodes[n].Tasks
    requires ssn.Nodes[n].Tasks[u].status.Running? && ssn.Nodes[n].Tasks[u].job in ssn.Jobs
    ensures ssn.Nodes[n].Tasks[u].uid == u && ssn.Nodes[n].Tasks[u].node == n
    ensures Guarded(ssn.View(), StepEvict(ssn.Nodes[n].Tasks[u]))
  {
    assert EntryMatches(ssn.View().jobs, n, u, ssn.View().nodes[n].tasks[u]);
  }

  ghost predicate Suffices(s: Snap, preemptor: Task, n: NodeName, victims: set<Task>)
    requires n in s.nodes
  {
    victims != {} && forall d :: Get(preemptor.resreq, d) <= Future(s.nodes[n], d) + Requested(victims, d)
  }

  /** ValidateVictims: some victims, and room for the preemptor once all of them are gone. */
  method ValidateVictims(ssn: Session, preemptor: Task, n: NodeName, victims: set<Task>) returns (ok: bool)
    requires ssn.Valid() && Kept(ssn.View()) && n in ssn.Nodes
    requires forall v | v in victims :: NonNegative(v.resreq)
    ensures n in ssn.View().nodes
    ensures ok == Suffices(ssn.View(), preemptor, n, victims)
  {
    hide Session.Valid, Kept, Future, Requested, LessEqual;
    FutureIdleIs(ssn, n);
    if |victims| == 0 {
      return false;
    }
    var futureIdle := ssn.Nodes[n].FutureIdle();
    var todo := victims;
    while todo != {}
      invariant todo <= victims
      invariant forall d :: Get(futureIdle, d) + Requested(todo, d) == Future(ssn.View().nodes[n], d) + Requested(victims, d)
      invariant NonNegative(futureIdle)
      decreases todo
    {
      var v :| v in todo;
      RequestedTake(todo, v);
      futureIdle := Add(futureIdle, v.resreq);
      todo := todo - {v};
    }
    RequestedNone();
    LessEqualIsPerDimension(preemptor.resreq, futureIdle);
    ok := LessEqual(preemptor.resreq, futureIdle);
  }

  lemma RequestedNone()
    ensures forall d :: Requested({}, d) == 0
  {
  }

  /** Where a call of preempt stands on node `n`, with the victims in `queue` not yet decided. */
  ghost predicate Preempting(start: Snap, s0: Snap, s: Snap, ops: seq<Operation>, preemptor: Task, n: NodeName, queue: set<Task>,
                              gang: bool) {
    Undoing(start, s, ops) && Spares(s0, s, preemptor, gang) && VictimsOn(s, n, queue) && (gang ==> Budgeted(s.jobs, queue)) &&
    InJob(s, preemptor) && Stored(s, preemptor) == preemptor && preemptor.status.Pending? && n in s.nodes
  }

  lemma PreemptingEvict(start: Snap, s0: Snap, s: Snap, ops: seq<Operation>, preemptor: Task, n: NodeName, queue: set<Task>, v: Task,
                        gang: bool)
    requires Preempting(start, s0, s, ops, preemptor, n, queue, gang) && v in queue
    ensures CanEvict(s, v) && v.job in s.jobs
    ensures var step := StepEvict(v);
            Preempting(start, s0, Apply(s, step), ops + [OperationOf(step)], preemptor, n, queue - {v}, gang)
  {
    hide Undoable, UndoAll, Current, Spares, Budgeted, Kept, EnoughReady, NodesMatch, JobsKeyed;
    assert Guarded(s, StepEvict(v));
    StepExtends(start, s, ops, StepEvict(v));
    SparesAfterEvict(s0, s, preemptor, queue, v, gang);
    OtherVictims(s, n, queue, v);
  }

  lemma PreemptingPlace(start: Snap, s0: Snap, s: Snap, ops: seq<Operation>, preemptor: Task, n: NodeName, queue: set<Task>, gang: bool)
    requires Preempting(start, s0, s, ops, preemptor, n, queue, gang) && Fits(s, n, preemptor.resreq)
    ensures var step := StepPipeline(preemptor, n);
            CanPlace(s, preemptor) && !OnNode(s, n, preemptor.uid) &&
            Undoing(start, Apply(s, step), ops + [OperationOf(step)]) && Spares(s0, Apply(s, step), preemptor, gang)
  {
    hide Undoing, Spares, VictimsOn, Budgeted, Fits;
    assert Guarded(s, StepPipeline(preemptor, n));
    StepExtends(start, s, ops, StepPipeline(preemptor, n));
    SparesAfterPlace(s0, s, preemptor, StepPipeline(preemptor, n), gang);
  }

  lemma PreemptingFacts(start: Snap, s0: Snap, s: Snap, ops: seq<Operation>, preemptor: Task, n: NodeName, queue: set<Task>, gang: bool)
    requires Preempting(start, s0, s, ops, preemptor, n, queue, gang)
    ensures Undoing(start, s, ops) && Spares(s0, s, preemptor, gang) && Kept(s) && InJob(s, preemptor) && Stored(s, preemptor) == preemptor
    ensures n in s.nodes && preemptor.status.Pending?
  {
  }

  lemma JustPipelined(s: Snap, ops: seq<Operation>, t: Task, n: NodeName)
    requires InJob(s, t) && n in s.nodes
    ensures var step := StepPipeline(t, n); PipelinedOn(Apply(s, step), ops + [OperationOf(step)], t, n)
  {
  }

  /** The session after these tasks were evicted one after the other. */
  ghost function Evictions(s: Snap, ts: seq<Task>): Snap {
    if ts == [] then s
    else
      var before, t := Evictions(s, ts[..|ts| - 1]), ts[|ts| - 1];
      if t.job in before.jobs then Evicted(before, t) else before
  }

  /** The task fits in the future of node `n`. */
  ghost predicate FitsOn(s: Snap, n: NodeName, t: Task) {
    n in s.nodes && Fits(s, n, t.resreq)
  }

  /**
   Victims are evicted one after the other as long as the preemptor's queue is overused, which it is after `k`
   evictions for `k` in `overused`, or the preemptor does not fit; and no longer.
   */
  ghost predicate EvictedAsNeeded(s: Snap, preemptor: Task, n: NodeName, victims: set<Task>, evicted: seq<Task>, overused: set<nat>) {
    (set t | t in evicted) <= victims && |evicted| <= |victims| && (forall i, k | 0 <= i < k < |evicted| :: evicted[i] != evicted[k]) &&
    (forall i | 0 <= i < |evicted| :: i in overused || !FitsOn(Evictions(s, evicted[..i]), n, preemptor)) &&
    ((set t | t in evicted) == victims || (|evicted| !in overused && FitsOn(Evictions(s, evicted), n, preemptor)))
  }

  lemma EvictionsNext(s: Snap, ts: seq<Task>, t: Task)
    ensures Evictions(s, ts + [t]) == if t.job in Evictions(s, ts).jobs then Evicted(Evictions(s, ts), t) else Evictions(s, ts)
  {
    assert (ts + [t])[..|ts|] == ts;
  }

  /** The victims evicted so far, each needed. */
  ghost predicate Needed(s: Snap, preemptor: Task, n: NodeName, victims: set<Task>, queue: set<Task>, evicted: seq<Task>, overused: set<nat>) {
    queue <= victims && (set t | t in evicted) == victims - queue && |evicted| + |queue| == |victims| &&
    (forall i, k | 0 <= i < k < |evicted| :: evicted[i] != evicted[k]) &&
    forall i | 0 <= i < |evicted| :: i in overused || !FitsOn(Evictions(s, evicted[..i]), n, preemptor)
  }

  lemma NeededAtFirst(s: Snap, preemptor: Task, n: NodeName, victims: set<Task>, overused: set<nat>)
    ensures Needed(s, preemptor, n, victims, victims, [], overused) && Evictions(s, []) == s
  {
  }

  lemma NeededNext(s: Snap, preemptor: Task, n: NodeName, victims: set<Task>, queue: set<Task>, evicted: seq<Task>, overused: set<nat>, v: Task)
    requires Needed(s, preemptor, n, victims, queue, evicted, overused) && v in queue
    requires |evicted| in overused || !FitsOn(Evictions(s, evicted), n, preemptor)
    ensures Needed(s, preemptor, n, victims, queue - {v}, evicted + [v], overused)
  {
    hide FitsOn, Evictions;
    var more := evicted + [v];
    forall i | 0 <= i < |more| ensures i in overused || !FitsOn(Evictions(s, more[..i]), n, preemptor) {
      assert more[..i] == evicted[..i];
      assert i == |evicted| ==> evicted[..i] == evicted;
    }
    OneMoreEvicted(victims, queue, evicted, v);
  }

  lemma OneMoreEvicted(victims: set<Task>, queue: set<Task>, evicted: seq<Task>, v: Task)
    requires queue <= victims && v in queue && (set t | t in evicted) == victims - queue
    requires forall i, k | 0 <= i < k < |evicted| :: evicted[i] != evicted[k]
    ensures (set t | t in evicted + [v]) == victims - (queue - {v})
    ensures forall i, k | 0 <= i < k < |evicted + [v]| :: (evicted + [v])[i] != (evicted + [v])[k]
  {
    var more := evicted + [v];
    assert (set t | t in more) == (set t | t in evicted) + {v};
    forall i | 0 <= i < |evicted| ensures evicted[i] != v {
      assert evicted[i] in (set t | t in evicted);
    }
  }

  lemma NeededEnds(s: Snap, preemptor: Task, n: NodeName, victims: set<Task>, queue: set<Task>, evicted: seq<Task>, overused: set<nat>)
    requires Needed(s, preemptor, n, victims, queue, evicted, overused)
    requires queue == {} || (|evicted| !in overused && FitsOn(Evictions(s, evicted), n, preemptor))
    ensures EvictedAsNeeded(s, preemptor, n, victims, evicted, overused)
  {
  }

  /** The loop over the victims of one node, followed by the attempt to pipeline the preemptor there. */
  method EvictVictims(ssn: Session, stmt: Statement, preemptor: Task, n: NodeName, victims: set<Task>, overused: set<nat>,
                      ghost start: Snap, ghost s0: Snap, ghost gang: bool)
    returns (placed: bool, evicted: seq<Task>)
    requires stmt.ssn == ssn && ssn.Valid() && n in ssn.Nodes
    requires Preempting(start, s0, ssn.View(), stmt.operations, preemptor, n, victims, gang)
    modifies stmt, ssn`Shares, ssn.Jobs.Values, ssn.Nodes.Values
    ensures ssn.Valid() && Undoing(start, ssn.View(), stmt.operations) && Spares(s0, ssn.View(), preemptor, gang)
    ensures EvictedAsNeeded(old(ssn.View()), preemptor, n, victims, evicted, overused)
    ensures var s := Evictions(old(ssn.View()), evicted);
            placed == (|evicted| !in overused && FitsOn(s, n, preemptor)) && preemptor.job in s.jobs &&
            ssn.View() == if placed then Apply(s, StepPipeline(preemptor, n)) else s
    ensures if placed then PipelinedOn(ssn.View(), stmt.operations, preemptor, n)
            else InJob(ssn.View(), preemptor) && Stored(ssn.View(), preemptor) == preemptor
  {
    hide Session.Valid, Session.JobsOk, Session.NodesOk, Session.JobsView, Session.NodesView, Session.View, Preempting, Undoing, Spares,
      Kept, Fits, LessEqual, CanEvict, CanPlace, Stored, OnNode, PipelinedOn, Needed, EvictedAsNeeded, Evictions, Evicted, Placed;
    ghost var s1 := ssn.View();
    var queue := victims;
    evicted := [];
    NeededAtFirst(s1, preemptor, n, victims, overused);
    while queue != {}
      invariant ssn.Valid() && Preempting(start, s0, ssn.View(), stmt.operations, preemptor, n, queue, gang)
      invariant ssn.View() == Evictions(s1, evicted) && Needed(s1, preemptor, n, victims, queue, evicted, overused)
      decreases queue
    {
      PreemptingFacts(start, s0, ssn.View(), stmt.operations, preemptor, n, queue, gang);
      FitsIff(ssn, n, preemptor.resreq);
      if |evicted| !in overused && LessEqual(preemptor.resreq, ssn.Nodes[n].FutureIdle()) {
        break;
      }
      var v :| v in queue;
      PreemptingEvict(start, s0, ssn.View(), stmt.operations, preemptor, n, queue, v, gang);
      NeededNext(s1, preemptor, n, victims, queue, evicted, overused, v);
      EvictionsNext(s1, evicted, v);
      stmt.Evict(v);
      queue := queue - {v};
      evicted := evicted + [v];
    }
    PreemptingFacts(start, s0, ssn.View(), stmt.operations, preemptor, n, queue, gang);
    FitsIff(ssn, n, preemptor.resreq);
    NeededEnds(s1, preemptor, n, victims, queue, evicted, overused);
    placed := |evicted| !in overused && LessEqual(preemptor.resreq, ssn.Nodes[n].FutureIdle());
    if placed {
      PreemptingPlace(start, s0, ssn.View(), stmt.operations, preemptor, n, queue, gang);
      JustPipelined(ssn.View(), stmt.operations, preemptor, n);
      stmt.Pipeline(preemptor, n);
    }
  }

  /** What the other plugins answer for one node: their replies, and after how many evictions the queue is overused. */
  datatype Answers = Answers(poll: Poll, overused: set<nat>)

  /** What happened on one node: what was asked, what gang said, who was chosen, who was evicted, from which state. */
  datatype Round = Round(before: Snap, preemptees: seq<Task>, gangs: seq<Task>, victims: seq<Task>, evicted: seq<Task>)

  /** The tiers' answers in a round. */
  function Tiers(config: Config, a: Answers, r: Round): seq<Tier> {
    AskAll(config, a.poll, r.preemptees, r.gangs)
  }

  /** The state after a round, not counting the preemptor's own placement. */
  ghost function After(r: Round): Snap {
    Evictions(r.before, r.evicted)
  }

  /** The preemptor is placed in this round. */
  ghost predicate Succeeds(a: Answers, preemptor: Task, n: NodeName, r: Round) {
    n in r.before.nodes && Suffices(r.before, preemptor, n, (set t | t in r.victims)) && |r.evicted| !in a.overused && FitsOn(After(r), n, preemptor)
  }

  /**
   A round as the code has it: exactly the eligible tasks of the node are asked about; gang answers with the
   first of every job within its surplus at that moment; the victims are what the tiers agree on; and if they
   suffice, as many as needed are evicted.
   */
  ghost predicate RoundOk(config: Config, a: Answers, preemptor: Task, n: NodeName, sameJob: bool, r: Round) {
    AskedOk(config, a, preemptor, n, sameJob, r) &&
    if Suffices(r.before, preemptor, n, (set t | t in r.victims))
    then EvictedAsNeeded(r.before, preemptor, n, (set t | t in r.victims), r.evicted, a.overused)
    else r.evicted == []
  }

  ghost predicate AskedOk(config: Config, a: Answers, preemptor: Task, n: NodeName, sameJob: bool, r: Round) {
    n in r.before.nodes && preemptor.job in r.before.jobs && Distinct(r.preemptees) &&
    (forall t :: t in r.preemptees <==> Held(r.before, n, t) && Eligible(r.before, preemptor, t, sameJob)) &&
    (forall j | j in r.before.jobs :: OfJob(r.gangs, j) == FirstN(OfJob(r.preemptees, j), Surplus(r.before.jobs[j]))) &&
    Verdict(Tiers(config, a, r), r.victims) && forall t | t in r.victims :: t in r.preemptees
  }

  /** Preemptable, asked of all configured plugins. Where gang decides, no job loses more than its surplus. */
  method ChooseVictims(ssn: Session, preemptees: seq<Task>, config: Config, poll: Poll) returns (chosen: seq<Task>, ghost gangs: seq<Task>)
    requires ssn.Valid() && Distinct(preemptees)
    requires forall i | 0 <= i < |preemptees| :: preemptees[i].job in ssn.Jobs
    ensures (set t | t in chosen) <= (set t | t in preemptees) && forall t | t in chosen :: t in preemptees
    ensures Distinct(chosen)
    ensures Verdict(AskAll(config, poll, preemptees, gangs), chosen)
    ensures forall j | j in ssn.View().jobs :: OfJob(gangs, j) == FirstN(OfJob(preemptees, j), Surplus(ssn.View().jobs[j]))
    ensures GangDecides(config, AskAll(config, poll, preemptees, gangs)) ==> Budgeted(ssn.View().jobs, set t | t in chosen)
  {
    hide Distinct, GangDecides, Budgeted, OfJob, FirstN, Verdict;
    var candidates := PreemptableFn(ssn, preemptees);
    gangs := candidates;
    chosen := Evictable(AskAll(config, poll, preemptees, candidates));
    VerdictOf(config, poll, preemptees, candidates, chosen);
    if GangDecides(config, AskAll(config, poll, preemptees, candidates)) {
      VictimsBudgeted(ssn.View().jobs, preemptees, candidates, set t | t in chosen);
    }
  }

  lemma Prepared(start: Snap, s0: Snap, s: Snap, ops: seq<Operation>, preemptor: Task, n: NodeName, all: set<Task>, victims: set<Task>,
                 gang: bool)
    requires Undoing(start, s, ops) && Spares(s0, s, preemptor, gang) && VictimsOn(s, n, all) && victims <= all
    requires gang ==> Budgeted(s.jobs, victims)
    requires InJob(s, preemptor) && Stored(s, preemptor) == preemptor && preemptor.status.Pending? && n in s.nodes
    ensures Preempting(start, s0, s, ops, preemptor, n, victims, gang)
    ensures forall v | v in victims :: NonNegative(v.resreq)
  {
  }

  /** The first half of a round: collecting the preemptees and asking the plugins. */
  method AskVictims(ssn: Session, preemptor: Task, n: NodeName, sameJob: bool, config: Config, a: Answers,
                    ghost start: Snap, ghost s0: Snap, ghost ops: seq<Operation>, ghost gang0: bool)
    returns (victims: set<Task>, ghost r: Round)
    requires ssn.Valid() && Undoing(start, ssn.View(), ops) && Spares(s0, ssn.View(), preemptor, gang0)
    requires InJob(ssn.View(), preemptor) && Stored(ssn.View(), preemptor) == preemptor && preemptor.status.Pending?
    requires n in ssn.Nodes
    ensures AskedOk(config, a, preemptor, n, sameJob, r) && r.before == ssn.View() && r.evicted == [] && victims == set t | t in r.victims
    ensures Preempting(start, s0, ssn.View(), ops, preemptor, n, victims, gang0 && GangDecides(config, Tiers(config, a, r)))
    ensures forall v | v in victims :: NonNegative(v.resreq)
  {
    hide *;
    ssn.Keys();
    ghost var s := ssn.View();
    UndoingFacts(start, s, ops, preemptor);
    var preemptees := Preemptees(ssn, preemptor, n, sameJob);
    var chosen; ghost var gangs;
    chosen, gangs := ChooseVictims(ssn, preemptees, config, a.poll);
    victims := set t | t in chosen;
    ghost var here := GangDecides(config, AskAll(config, a.poll, preemptees, gangs));
    SparesLess(s0, s, preemptor, gang0, here);
    Prepared(start, s0, s, ops, preemptor, n, (set t | t in preemptees), victims, gang0 && here);
    r := Round(s, preemptees, gangs, chosen, []);
    AskedIs(config, a, preemptor, n, sameJob, r);
  }

  lemma AskedIs(config: Config, a: Answers, preemptor: Task, n: NodeName, sameJob: bool, r: Round)
    requires n in r.before.nodes && preemptor.job in r.before.jobs && Distinct(r.preemptees)
    requires forall t :: t in r.preemptees <==> Held(r.before, n, t) && Eligible(r.before, preemptor, t, sameJob)
    requires forall j | j in r.before.jobs :: OfJob(r.gangs, j) == FirstN(OfJob(r.preemptees, j), Surplus(r.before.jobs[j]))
    requires Verdict(AskAll(config, a.poll, r.preemptees, r.gangs), r.victims) && forall t | t in r.victims :: t in r.preemptees
    ensures AskedOk(config, a, preemptor, n, sameJob, r) && Tiers(config, a, r) == AskAll(config, a.poll, r.preemptees, r.gangs)
  {
    hide Verdict, Held, Eligible, OfJob, FirstN, Surplus, Distinct;
  }

  /** One node of preempt: collect, vote, validate, evict, and pipeline. */
  method PreemptOn(ssn: Session, stmt: Statement, preemptor: Task, n: NodeName, sameJob: bool, config: Config, a: Answers,
                   ghost start: Snap, ghost s0: Snap, ghost gang0: bool)
    returns (placed: bool, ghost r: Round)
    requires stmt.ssn == ssn && ssn.Valid() && Undoing(start, ssn.View(), stmt.operations) && Spares(s0, ssn.View(), preemptor, gang0)
    requires InJob(ssn.View(), preemptor) && Stored(ssn.View(), preemptor) == preemptor && preemptor.status.Pending?
    requires n in ssn.Nodes
    modifies stmt, ssn`Shares, ssn.Jobs.Values, ssn.Nodes.Values
    ensures ssn.Valid() && Undoing(start, ssn.View(), stmt.operations)
    ensures r.before == old(ssn.View()) && RoundOk(config, a, preemptor, n, sameJob, r) && placed == Succeeds(a, preemptor, n, r)
    ensures preemptor.job in After(r).jobs && ssn.View() == if placed then Apply(After(r), StepPipeline(preemptor, n)) else After(r)
    ensures Spares(s0, ssn.View(), preemptor, gang0 && GangDecides(config, Tiers(config, a, r)))
    ensures if placed then PipelinedOn(ssn.View(), stmt.operations, preemptor, n)
            else InJob(ssn.View(), preemptor) && Stored(ssn.View(), preemptor) == preemptor
  {
    hide Session.Valid, Session.JobsOk, Session.NodesOk, Session.JobsView, Session.NodesView, Session.View, Preempting, Undoing, Spares,
      Kept, Stored, InJob, Suffices, GangDecides, PipelinedOn, EvictedAsNeeded, Evicted, Evictions, FitsOn, Apply, AskedOk, NonNegative;
    UndoingFacts(start, ssn.View(), stmt.operations, preemptor);
    NoneEvicted(ssn.View());
    var victims;
    victims, r := AskVictims(ssn, preemptor, n, sameJob, config, a, start, s0, stmt.operations, gang0);
    AskedAt(config, a, preemptor, n, sameJob, r);
    PreemptingFacts(start, s0, ssn.View(), stmt.operations, preemptor, n, victims, gang0 && GangDecides(config, Tiers(config, a, r)));
    placed := ValidateVictims(ssn, preemptor, n, victims);
    if placed {
      var evicted;
      placed, evicted := EvictVictims(ssn, stmt, preemptor, n, victims, a.overused, start, s0, gang0 && GangDecides(config, Tiers(config, a, r)));
      AskedStill(config, a, preemptor, n, sameJob, r, evicted);
      r := r.(evicted := evicted);
    }
  }

  lemma AskedAt(config: Config, a: Answers, preemptor: Task, n: NodeName, sameJob: bool, r: Round)
    requires AskedOk(config, a, preemptor, n, sameJob, r)
    ensures n in r.before.nodes && preemptor.job in r.before.jobs
  {
  }

  lemma AskedStill(config: Config, a: Answers, preemptor: Task, n: NodeName, sameJob: bool, r: Round, evicted: seq<Task>)
    requires AskedOk(config, a, preemptor, n, sameJob, r)
    ensures AskedOk(config, a, preemptor, n, sameJob, r.(evicted := evicted))
  {
    hide Verdict, Held, Eligible, OfJob, FirstN, Surplus, Distinct;
  }

  lemma NoneEvicted(s: Snap)
    ensures Evictions(s, []) == s
  {
  }

  /** The statement's last operation pipelined the task on `n`. */
  ghost predicate PipelinedOn(s: Snap, ops: seq<Operation>, t: Task, n: NodeName) {
    ops != [] && ops[|ops| - 1] == OperationOf(StepPipeline(t, n)) && PipelinedAt(s, t, n)
  }

  /** In each of these rounds the decision is made by a tier in which gang votes. */
  ghost predicate GangInAll(config: Config, answers: seq<Answers>, rounds: seq<Round>)
    requires |rounds| <= |answers|
  {
    forall i | 0 <= i < |rounds| :: GangDecides(config, Tiers(config, answers[i], rounds[i]))
  }

  /** The rounds over the nodes, one leading to the next, all without success but perhaps the last. */
  ghost predicate Rounds(start: Snap, config: Config, answers: seq<Answers>, preemptor: Task, nodes: seq<NodeName>, sameJob: bool, rounds: seq<Round>)
    requires |answers| == |nodes|
  {
    |rounds| <= |nodes| &&
    (forall i | 0 <= i < |rounds| :: RoundOk(config, answers[i], preemptor, nodes[i], sameJob, rounds[i])) &&
    (forall i | 0 <= i < |rounds| :: rounds[i].before == End(start, rounds[..i])) &&
    forall i | 0 <= i < |rounds| - 1 :: !Succeeds(answers[i], preemptor, nodes[i], rounds[i])
  }

  lemma EndAtFirst(start: Snap)
    ensures End(start, []) == start
  {
  }

  lemma RoundsAtFirst(start: Snap, config: Config, answers: seq<Answers>, preemptor: Task, nodes: seq<NodeName>, sameJob: bool)
    requires |answers| == |nodes|
    ensures Rounds(start, config, answers, preemptor, nodes, sameJob, [])
  {
  }

  lemma OneMoreRound(start: Snap, config: Config, answers: seq<Answers>, preemptor: Task, nodes: seq<NodeName>, sameJob: bool, rounds: seq<Round>, r: Round)
    requires |answers| == |nodes| && |rounds| < |nodes| && Rounds(start, config, answers, preemptor, nodes, sameJob, rounds)
    requires rounds != [] ==> !Succeeds(answers[|rounds| - 1], preemptor, nodes[|rounds| - 1], rounds[|rounds| - 1])
    requires RoundOk(config, answers[|rounds|], preemptor, nodes[|rounds|], sameJob, r) && r.before == End(start, rounds)
    ensures Rounds(start, config, answers, preemptor, nodes, sameJob, rounds + [r]) && End(start, rounds + [r]) == After(r)
  {
    hide RoundOk, Succeeds, After;
    var more := rounds + [r];
    forall i | 0 <= i < |more| ensures RoundOk(config, answers[i], preemptor, nodes[i], sameJob, more[i]) {
      assert i < |rounds| ==> more[i] == rounds[i];
    }
    forall i | 0 <= i < |more| ensures more[i].before == End(start, more[..i]) {
      assert more[..i] == rounds[..i] && more[i] == if i < |rounds| then rounds[i] else r;
      assert i == |rounds| ==> rounds[..i] == rounds;
    }
    forall i | 0 <= i < |more| - 1 ensures !Succeeds(answers[i], preemptor, nodes[i], more[i]) {
      assert more[i] == rounds[i];
    }
  }

  /** Where the rounds lead to. */
  ghost function End(start: Snap, rounds: seq<Round>): Snap {
    if rounds == [] then start else After(rounds[|rounds| - 1])
  }

  /**
   preempt: tries the nodes in the order of `nodes`, evicting victims until the preemptor fits somewhere;
   `answers` are those of the other plugins for each node, and `rounds` is what then happened, which the
   session's states, gang and the answers determine up to the order of the tasks on a node. Discarding still
   leads back to where the statement began, and if the preemptor is placed it is pipelined on the last node
   tried. No other gang loses its minimum if in each round a tier with gang decides; a configuration in which
   gang votes wherever somebody can vote makes sure of that.
   */
  method Preempt(ssn: Session, stmt: Statement, preemptor: Task, nodes: seq<NodeName>, sameJob: bool, config: Config, answers: seq<Answers>,
                 ghost start: Snap)
    returns (placed: bool, ghost rounds: seq<Round>)
    requires stmt.ssn == ssn && ssn.Valid() && Undoing(start, ssn.View(), stmt.operations)
    requires InJob(ssn.View(), preemptor) && Stored(ssn.View(), preemptor) == preemptor && preemptor.status.Pending?
    requires |answers| == |nodes| && forall i | 0 <= i < |nodes| :: nodes[i] in ssn.Nodes
    modifies stmt, ssn`Shares, ssn.Jobs.Values, ssn.Nodes.Values
    ensures ssn.Valid() && Undoing(start, ssn.View(), stmt.operations)
    ensures |rounds| <= |nodes| && Rounds(old(ssn.View()), config, answers, preemptor, nodes, sameJob, rounds)
    ensures if placed
            then rounds != [] && Succeeds(answers[|rounds| - 1], preemptor, nodes[|rounds| - 1], rounds[|rounds| - 1]) &&
                 PipelinedOn(ssn.View(), stmt.operations, preemptor, nodes[|rounds| - 1]) && preemptor.job in End(old(ssn.View()), rounds).jobs &&
                 ssn.View() == Apply(End(old(ssn.View()), rounds), StepPipeline(preemptor, nodes[|rounds| - 1]))
            else |rounds| == |nodes| && ssn.View() == End(old(ssn.View()), rounds)
    ensures Spares(old(ssn.View()), ssn.View(), preemptor, GangInAll(config, answers, rounds))
    ensures GangEverywhere(config) ==> GangInAll(config, answers, rounds)
  {
    hide Session.Valid, Session.View, Undoing, Spares, InJob, Stored, GangEverywhere, GangDecides, GangInAll, PipelinedOn, RoundOk, Succeeds,
      After, Apply, Tiers, Rounds, End;
    placed, rounds := false, [];
    RoundsAtFirst(ssn.View(), config, answers, preemptor, nodes, sameJob);
    EndAtFirst(ssn.View());
    SparesAtFirst(ssn.View(), preemptor);
    NoneAsked(config, answers);
    ghost var s0 := ssn.View();
    for i := 0 to |nodes|
      invariant |rounds| == i && !placed
      invariant ssn.Valid() && Undoing(start, ssn.View(), stmt.operations) && Spares(s0, ssn.View(), preemptor, GangInAll(config, answers, rounds))
      invariant InJob(ssn.View(), preemptor) && Stored(ssn.View(), preemptor) == preemptor
      invariant GangEverywhere(config) ==> GangInAll(config, answers, rounds)
      invariant Rounds(s0, config, answers, preemptor, nodes, sameJob, rounds) && ssn.View() == End(s0, rounds)
      invariant i > 0 ==> !Succeeds(answers[i - 1], preemptor, nodes[i - 1], rounds[i - 1])
    {
      ghost var r;
      placed, r := PreemptOn(ssn, stmt, preemptor, nodes[i], sameJob, config, answers[i], start, s0, GangInAll(config, answers, rounds));
      OneMoreAsked(config, answers, rounds, r);
      OneMoreRound(s0, config, answers, preemptor, nodes, sameJob, rounds, r);
      rounds := rounds + [r];
      if placed {
        return;
      }
    }
  }

  lemma NoneAsked(config: Config, answers: seq<Answers>)
    ensures GangInAll(config, answers, [])
  {
  }

  lemma OneMoreAsked(config: Config, answers: seq<Answers>, rounds: seq<Round>, r: Round)
    requires |rounds| < |answers|
    ensures GangInAll(config, answers, rounds + [r]) <==> GangInAll(config, answers, rounds) && GangDecides(config, Tiers(config, answers[|rounds|], r))
    ensures GangEverywhere(config) ==> GangDecides(config, Tiers(config, answers[|rounds|], r))
  {
    hide GangDecides, GangEverywhere;
    var more := rounds + [r];
    assert more[|rounds|] == r && forall i | 0 <= i < |rounds| :: more[i] == rounds[i];
    if GangEverywhere(config) {
      EverywhereDecides(config, answers[|rounds|].poll, r.preemptees, r.gangs);
    }
  }

  lemma UndoingFacts(start: Snap, s: Snap, ops: seq<Operation>, t: Task)
    requires Undoing(start, s, ops)
    ensures Linked(s) && Kept(s) && Sound(s) && Current(s, ops) && Undoable(s, ops) && UndoAll(s, ops) == start
    ensures InJob(s, t) ==> t.job in s.jobs
  {
  }

  // ----- what a preemptor takes

  /** The tasks that a claim covers on node `n`. */
  ghost predicate Claimed(s: Snap, n: NodeName, c: Claim, t: Task) {
    Held(s, n, t) && t.status.Running? && Grants(s.jobs, c, t)
  }

  lemma ClaimedGuarded(s: Snap, n: NodeName, c: Claim, t: Task)
    requires Sound(s) && Claimed(s, n, c, t)
    ensures Guarded(s, StepEvict(t)) && t.node == n
  {
    assert EntryMatches(s.jobs, n, t.uid, s.nodes[n].tasks[t.uid]);
  }

  /** Evicting one claimed task leaves the others claimed. */
  lemma StillClaimed(s: Snap, n: NodeName, c: Claim, v: Task, t: Task)
    requires Claimed(s, n, c, v) && Claimed(s, n, c, t) && v != t && v.node == n && v.job in s.jobs
    ensures Claimed(Evicted(s, v), n, c, t)
  {
  }

  lemma {:induction false} EvictionsTake(s: Snap, n: NodeName, c: Claim, ts: seq<Task>, others: set<Task>)
    requires Sound(s) && (forall t | t in ts :: Claimed(s, n, c, t)) && (forall i, k | 0 <= i < k < |ts| :: ts[i] != ts[k])
    requires forall t | t in others :: t !in ts && Claimed(s, n, c, t)
    ensures Sound(Evictions(s, ts)) && Takes(s, Evictions(s, ts), {c}) && forall t | t in others :: Claimed(Evictions(s, ts), n, c, t)
    decreases |ts|
  {
    hide Sound, Claimed, Takes, Evicted;
    if ts == [] {
      TakesNothing(s, {c});
    } else {
      var init, t := ts[..|ts| - 1], ts[|ts| - 1];
      assert ts == init + [t];
      EvictionsTake(s, n, c, init, others + {t});
      var s1 := Evictions(s, init);
      ClaimedTaken(s1, n, c, t, others);
      TakesThen(s, s1, Evictions(s, ts), {c}, {c}, {c});
    }
  }

  lemma ClaimedTaken(s: Snap, n: NodeName, c: Claim, t: Task, others: set<Task>)
    requires Sound(s) && Claimed(s, n, c, t) && forall w | w in others :: w != t && Claimed(s, n, c, w)
    ensures t.job in s.jobs && Sound(Evicted(s, t)) && Takes(s, Evicted(s, t), {c})
    ensures forall w | w in others :: Claimed(Evicted(s, t), n, c, w)
  {
    hide Sound, Takes, Claimed, Guarded;
    ClaimedGuarded(s, n, c, t);
    GuardedStep(s, StepEvict(t));
    TakesClaimed(s, n, c, t);
    forall w | w in others ensures Claimed(Evicted(s, t), n, c, w) {
      StillClaimed(s, n, c, t, w);
    }
  }

  lemma TakesClaimed(s: Snap, n: NodeName, c: Claim, t: Task)
    requires Guarded(s, StepEvict(t)) && Claimed(s, n, c, t)
    ensures t.job in s.jobs && Takes(s, Evicted(s, t), {c})
  {
    hide Takes;
    TakesEvict(s, t, c);
  }

  lemma EvictedAmong(s: Snap, preemptor: Task, n: NodeName, victims: set<Task>, evicted: seq<Task>, overused: set<nat>)
    requires EvictedAsNeeded(s, preemptor, n, victims, evicted, overused)
    ensures (forall t | t in evicted :: t in victims) && forall i, k | 0 <= i < k < |evicted| :: evicted[i] != evicted[k]
  {
    hide FitsOn, Evictions;
    forall t | t in evicted ensures t in victims {
      assert t in (set t | t in evicted);
    }
  }

  /** A round takes what its claim covers. */
  lemma RoundTakes(config: Config, a: Answers, preemptor: Task, n: NodeName, sameJob: bool, r: Round)
    requires Sound(r.before) && RoundOk(config, a, preemptor, n, sameJob, r)
    ensures Sound(After(r)) && Takes(r.before, After(r), {ClaimOf(preemptor.job, sameJob)})
  {
    hide Sound, Takes, Suffices, Verdict, OfJob, FirstN, Surplus, FitsOn, Evictions, Grants;
    var c := ClaimOf(preemptor.job, sameJob);
    if r.evicted != [] {
      EvictedAmong(r.before, preemptor, n, (set t | t in r.victims), r.evicted, a.overused);
    }
    EvictionsTake(r.before, n, c, r.evicted, {});
  }

  lemma {:induction false} RoundsTake(start: Snap, config: Config, answers: seq<Answers>, preemptor: Task, nodes: seq<NodeName>, sameJob: bool,
                                      rounds: seq<Round>)
    requires Sound(start) && |answers| == |nodes| && Rounds(start, config, answers, preemptor, nodes, sameJob, rounds)
    ensures Sound(End(start, rounds)) && Takes(start, End(start, rounds), {ClaimOf(preemptor.job, sameJob)})
    decreases |rounds|
  {
    hide Sound, Takes, RoundOk, Succeeds, After;
    var c := ClaimOf(preemptor.job, sameJob);
    if rounds == [] {
      TakesNothing(start, {c});
    } else {
      var k := |rounds| - 1;
      RoundsBefore(start, config, answers, preemptor, nodes, sameJob, rounds);
      RoundsTake(start, config, answers, preemptor, nodes, sameJob, rounds[..k]);
      RoundTakes(config, answers[k], preemptor, nodes[k], sameJob, rounds[k]);
      TakesThen(start, rounds[k].before, After(rounds[k]), {c}, {c}, {c});
    }
  }

  lemma RoundsBefore(start: Snap, config: Config, answers: seq<Answers>, preemptor: Task, nodes: seq<NodeName>, sameJob: bool, rounds: seq<Round>)
    requires |answers| == |nodes| && rounds != [] && Rounds(start, config, answers, preemptor, nodes, sameJob, rounds)
    ensures var k := |rounds| - 1;
            Rounds(start, config, answers, preemptor, nodes, sameJob, rounds[..k]) && rounds[k].before == End(start, rounds[..k]) &&
            RoundOk(config, answers[k], preemptor, nodes[k], sameJob, rounds[k])
  {
    hide RoundOk, Succeeds, After, End;
    var before := rounds[..|rounds| - 1];
    forall i | 0 <= i < |before| ensures before[i].before == End(start, before[..i]) {
      assert before[..i] == rounds[..i];
    }
  }
}
