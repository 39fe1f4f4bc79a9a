/** The preempt action: its two phases over queues and jobs (pkg/scheduler/actions/preempt/preempt.go). */
module PreemptAction {
  import opened Resources
  import opened Sums
  import opened Tasks
  import opened Jobs
  import opened Sessions
  import opened Statements
  import opened Promises
  import opened Takings
  import opened Gang
  import opened Votes
  import opened VictimSearch

  lemma BoundHeaps(jobs: JobMap, jobs': JobMap, heaps: map<JobId, set<TaskId>>)
    requires OnlyBoundJobs(jobs, jobs') && AllWaiting(jobs, heaps)
    ensures AllWaiting(jobs', heaps)
  {
  }

  lemma FewerHeaps(jobs: JobMap, heaps: map<JobId, set<TaskId>>, j: JobId, left: set<TaskId>)
    requires AllWaiting(jobs, heaps) && j in heaps && left <= heaps[j]
    ensures AllWaiting(jobs, heaps[j := left])
  {
  }

  // ----- one preemptor

  /**
   What is answered about one preemptor: the pre-predicate, the nodes that PredicateNodes finds for it and their
   scores, and what is answered on each of them.
   */
  datatype TaskVotes = TaskVotes(prePredicate: bool, found: NodeName -> bool, score: NodeName -> real, answers: NodeName -> Answers)

  /** The nodes found, each once, the best scores first. */
  ghost predicate Ranked(v: TaskVotes, all: set<NodeName>, nodes: seq<NodeName>) {
    (forall n :: n in nodes <==> n in all && v.found(n)) && forall i, k | 0 <= i < k < |nodes| :: nodes[i] != nodes[k] && v.score(nodes[i]) >= v.score(nodes[k])
  }

  method BestNode(v: TaskVotes, nodes: set<NodeName>) returns (best: NodeName)
    requires nodes != {}
    ensures best in nodes && forall n | n in nodes :: v.score(best) >= v.score(n)
  {
    best :| best in nodes;
    var todo := nodes;
    while todo != {}
      invariant todo <= nodes && best in nodes && forall n | n in nodes - todo :: v.score(best) >= v.score(n)
      decreases todo
    {
      var n :| n in todo;
      if v.score(n) > v.score(best) {
        best := n;
      }
      todo := todo - {n};
    }
  }

  /** PredicateNodes, PrioritizeNodes and SortNodes. */
  method SelectNodes(ssn: Session, v: TaskVotes) returns (nodes: seq<NodeName>)
    ensures Ranked(v, ssn.Nodes.Keys, nodes)
  {
    nodes := [];
    var todo := set n | n in ssn.Nodes && v.found(n);
    while todo != {}
      invariant forall n :: n in nodes || n in todo <==> n in ssn.Nodes && v.found(n)
      invariant forall n | n in nodes :: n !in todo && forall m | m in todo :: v.score(n) >= v.score(m)
      invariant forall i, k | 0 <= i < k < |nodes| :: nodes[i] != nodes[k] && v.score(nodes[i]) >= v.score(nodes[k])
      decreases todo
    {
      var n := BestNode(v, todo);
      nodes := nodes + [n];
      todo := todo - {n};
    }
  }

  function AnswersFor(v: TaskVotes, nodes: seq<NodeName>): (answers: seq<Answers>)
    ensures |answers| == |nodes|
  {
    seq(|nodes|, i requires 0 <= i < |nodes| => v.answers(nodes[i]))
  }

  /** One call of preempt: the nodes in their order, the rounds on them, and the states before and after. */
  datatype Attempt = Attempt(task: Task, nodes: seq<NodeName>, rounds: seq<Round>, placed: bool, before: Snap, after: Snap)

  ghost predicate AttemptOk(config: Config, v: TaskVotes, sameJob: bool, a: Attempt) {
    InJob(a.before, a.task) && Stored(a.before, a.task) == a.task && a.task.status.Pending? &&
    if v.prePredicate then
      Ranked(v, a.before.nodes.Keys, a.nodes) && Rounds(a.before, config, AnswersFor(v, a.nodes), a.task, a.nodes, sameJob, a.rounds) &&
      RoundsEnd(config, v, a)
    else !a.placed && a.after == a.before
  }

  /** The task is placed on the node of the last round, if that succeeds; all other nodes have been tried in vain. */
  ghost predicate RoundsEnd(config: Config, v: TaskVotes, a: Attempt) {
    var end := End(a.before, a.rounds);
    if a.placed then
      0 < |a.rounds| <= |a.nodes| && a.task.job in end.jobs &&
      var last := |a.rounds| - 1;
      Succeeds(v.answers(a.nodes[last]), a.task, a.nodes[last], a.rounds[last]) && a.after == Apply(end, StepPipeline(a.task, a.nodes[last]))
    else |a.rounds| == |a.nodes| && a.after == end
  }

  lemma AttemptTakes(config: Config, v: TaskVotes, sameJob: bool, a: Attempt)
    requires Sound(a.before) && AttemptOk(config, v, sameJob, a)
    ensures Takes(a.before, a.after, {ClaimOf(a.task.job, sameJob)})
  {
    hide Sound, Takes, Rounds, End, Ranked, Succeeds;
    var c := ClaimOf(a.task.job, sameJob);
    if v.prePredicate {
      RoundsTake(a.before, config, AnswersFor(v, a.nodes), a.task, a.nodes, sameJob, a.rounds);
      if a.placed {
        TakesPlace(a.before, End(a.before, a.rounds), a.task, a.nodes[|a.rounds| - 1], {c});
      }
    } else {
      TakesNothing(a.before, {c});
    }
  }

  /** One popped preemptor: whatever happens, every task but it still waits. */
  method PreemptOne(ssn: Session, stmt: Statement, j: JobId, heaps: map<JobId, set<TaskId>>, u: TaskId, sameJob: bool, config: Config, v: TaskVotes,
                    ghost start: Snap)
    returns (preempted: bool, ghost a: Attempt)
    requires stmt.ssn == ssn && ssn.Valid() && Undoing(start, ssn.View(), stmt.operations)
    requires AllWaiting(ssn.View().jobs, heaps) && j in heaps && u in heaps[j]
    modifies stmt, ssn`Shares, ssn.Jobs.Values, ssn.Nodes.Values
    ensures ssn.Valid() && Undoing(start, ssn.View(), stmt.operations)
    ensures AllWaiting(ssn.View().jobs, heaps[j := heaps[j] - {u}])
    ensures AttemptOk(config, v, sameJob, a) && a.task.uid == u && a.task.job == j && a.placed == preempted
    ensures a.before == old(ssn.View()) && a.after == ssn.View()
    ensures Takes(old(ssn.View()), ssn.View(), {ClaimOf(j, sameJob)})
    ensures GangEverywhere(config) ==> GangsKept(old(ssn.View()), ssn.View(), {j})
  {
    hide *;
    WaitingIn(ssn.View().jobs, heaps, j);
    ghost var s := ssn.View();
    UndoingSound(start, s, stmt.operations);
    var preemptor := InspectTask(ssn, j, u);
    preempted := false;
    ghost var gang := true;
    SparesAtFirst(s, preemptor);
    a := Attempt(preemptor, [], [], false, s, s);
    if v.prePredicate {
      ssn.Keys();
      var nodes := SelectNodes(ssn, v);
      AllKnown(v, ssn.Nodes.Keys, nodes);
      ghost var rounds;
      preempted, rounds := Preempt(ssn, stmt, preemptor, nodes, sameJob, config, AnswersFor(v, nodes), start);
      gang := GangInAll(config, AnswersFor(v, nodes), rounds);
      a := Attempt(preemptor, nodes, rounds, preempted, s, ssn.View());
      AttemptIs(config, v, sameJob, a);
    } else {
      AttemptNot(config, v, sameJob, a);
    }
    AttemptTakes(config, v, sameJob, a);
    SparesWaiting(s, ssn.View(), preemptor, gang);
    if gang {
      SparesGangs(s, ssn.View(), preemptor);
    }
    SparedHeaps(s, ssn.View(), preemptor, heaps, j);
  }

  lemma AllKnown(v: TaskVotes, all: set<NodeName>, nodes: seq<NodeName>)
    requires Ranked(v, all, nodes)
    ensures forall i | 0 <= i < |nodes| :: nodes[i] in all
  {
  }

  lemma AttemptIs(config: Config, v: TaskVotes, sameJob: bool, a: Attempt)
    requires InJob(a.before, a.task) && Stored(a.before, a.task) == a.task && a.task.status.Pending? && v.prePredicate
    requires Ranked(v, a.before.nodes.Keys, a.nodes)
    requires Rounds(a.before, config, AnswersFor(v, a.nodes), a.task, a.nodes, sameJob, a.rounds) && |a.rounds| <= |a.nodes|
    requires if a.placed
             then a.rounds != [] && a.task.job in End(a.before, a.rounds).jobs &&
                  Succeeds(AnswersFor(v, a.nodes)[|a.rounds| - 1], a.task, a.nodes[|a.rounds| - 1], a.rounds[|a.rounds| - 1]) &&
                  a.after == Apply(End(a.before, a.rounds), StepPipeline(a.task, a.nodes[|a.rounds| - 1]))
             else |a.rounds| == |a.nodes| && a.after == End(a.before, a.rounds)
    ensures AttemptOk(config, v, sameJob, a)
  {
    hide Rounds, End, Ranked, Succeeds, InJob, Stored, Apply;
  }

  lemma AttemptNot(config: Config, v: TaskVotes, sameJob: bool, a: Attempt)
    requires InJob(a.before, a.task) && Stored(a.before, a.task) == a.task && a.task.status.Pending? && !v.prePredicate
    requires !a.placed && a.after == a.before
    ensures AttemptOk(config, v, sameJob, a)
  {
  }

  // ----- the first phase: between the jobs of a queue

  /**
   What is answered during one turn of a job: whether it starves, by the number of its tasks that are left, what
   is said about each task, whether gang's vote of JobPipelined counts, and what the other votes come to.
   */
  datatype JobVotes = JobVotes(starving: nat -> bool, task: TaskId -> TaskVotes, heard: bool, rest: bool)

  ghost function Reached(s: Snap, attempts: seq<Attempt>): Snap {
    if attempts == [] then s else attempts[|attempts| - 1].after
  }

  ghost function LeftIn(heap: set<TaskId>, attempts: seq<Attempt>): set<TaskId> {
    if attempts == [] then heap else LeftIn(heap, attempts[..|attempts| - 1]) - {attempts[|attempts| - 1].task.uid}
  }

  /** Attempts for tasks in the heap of job `j`, one after the other, each while the job starves. */
  ghost predicate Attempts(config: Config, v: JobVotes, j: JobId, s: Snap, heap: set<TaskId>, attempts: seq<Attempt>) {
    attempts == [] ||
    var before, a := attempts[..|attempts| - 1], attempts[|attempts| - 1];
    var left := LeftIn(heap, before);
    Attempts(config, v, j, s, heap, before) && v.starving(|left|) && a.task.uid in left && a.task.job == j &&
    AttemptOk(config, v.task(a.task.uid), false, a) && a.before == Reached(s, before)
  }

  ghost predicate SomePlaced(attempts: seq<Attempt>) {
    exists i :: 0 <= i < |attempts| && attempts[i].placed
  }

  lemma NoAttempts(config: Config, v: JobVotes, j: JobId, s: Snap, heap: set<TaskId>)
    ensures Attempts(config, v, j, s, heap, []) && LeftIn(heap, []) == heap && Reached(s, []) == s && !SomePlaced([])
  {
  }

  lemma OneMoreAttempt(config: Config, v: JobVotes, j: JobId, s: Snap, heap: set<TaskId>, attempts: seq<Attempt>, a: Attempt)
    requires Attempts(config, v, j, s, heap, attempts) && v.starving(|LeftIn(heap, attempts)|) && a.task.uid in LeftIn(heap, attempts)
    requires a.task.job == j && AttemptOk(config, v.task(a.task.uid), false, a) && a.before == Reached(s, attempts)
    ensures Attempts(config, v, j, s, heap, attempts + [a]) && Reached(s, attempts + [a]) == a.after
    ensures LeftIn(heap, attempts + [a]) == LeftIn(heap, attempts) - {a.task.uid}
    ensures SomePlaced(attempts + [a]) <==> SomePlaced(attempts) || a.placed
  {
    hide AttemptOk;
    var more := attempts + [a];
    assert more[..|attempts|] == attempts && more[|attempts|] == a;
    if SomePlaced(attempts) {
      var i :| 0 <= i < |attempts| && attempts[i].placed;
      assert more[i].placed;
    }
  }

  /** The preemptors of one job share a statement: they go on while the job starves and has tasks left. */
  method PreemptForJob(ssn: Session, stmt: Statement, j: JobId, heaps0: map<JobId, set<TaskId>>, config: Config, v: JobVotes, ghost start: Snap)
    returns (heaps: map<JobId, set<TaskId>>, placed: bool, ghost attempts: seq<Attempt>)
    requires stmt.ssn == ssn && ssn.Valid() && Undoing(start, ssn.View(), stmt.operations)
    requires AllWaiting(ssn.View().jobs, heaps0) && j in heaps0
    modifies stmt, ssn`Shares, ssn.Jobs.Values, ssn.Nodes.Values
    ensures ssn.Valid() && Undoing(start, ssn.View(), stmt.operations)
    ensures heaps.Keys == heaps0.Keys && heaps[j] <= heaps0[j] && heaps == heaps0[j := heaps[j]]
    ensures AllWaiting(ssn.View().jobs, heaps)
    ensures placed ==> heaps[j] < heaps0[j]
    ensures Attempts(config, v, j, old(ssn.View()), heaps0[j], attempts) && placed == SomePlaced(attempts)
    ensures heaps[j] == LeftIn(heaps0[j], attempts) && ssn.View() == Reached(old(ssn.View()), attempts)
    ensures heaps[j] == {} || !v.starving(|heaps[j]|)
    ensures Takes(old(ssn.View()), ssn.View(), {Between(j)})
    ensures GangEverywhere(config) ==> GangsKept(old(ssn.View()), ssn.View(), {j})
  {
    hide *;
    ghost var s := ssn.View();
    GangsKeptHere(s, {j});
    heaps, placed, attempts := heaps0, false, [];
    NoAttempts(config, v, j, s, heaps0[j]);
    TakesNothing(s, {Between(j)});
    while heaps[j] != {}
      invariant j in heaps && heaps.Keys == heaps0.Keys && heaps[j] <= heaps0[j] && heaps == heaps0[j := heaps[j]]
      invariant ssn.Valid() && Undoing(start, ssn.View(), stmt.operations) && AllWaiting(ssn.View().jobs, heaps)
      invariant placed ==> heaps[j] < heaps0[j]
      invariant Attempts(config, v, j, s, heaps0[j], attempts) && placed == SomePlaced(attempts)
      invariant heaps[j] == LeftIn(heaps0[j], attempts) && ssn.View() == Reached(s, attempts)
      invariant Takes(s, ssn.View(), {Between(j)})
      invariant GangEverywhere(config) ==> GangsKept(s, ssn.View(), {j})
      decreases heaps[j]
    {
      if !v.starving(|heaps[j]|) {
        break;
      }
      var u :| u in heaps[j];
      ghost var s1 := ssn.View();
      var preempted;
      ghost var a;
      preempted, a := PreemptOne(ssn, stmt, j, heaps, u, false, config, v.task(u), start);
      Claims(j);
      TakesThen(s, s1, ssn.View(), {Between(j)}, {Between(j)}, {Between(j)});
      if GangEverywhere(config) {
        GangsKeptThen(s, s1, ssn.View(), {j}, {j}, {j});
      }
      OneMoreAttempt(config, v, j, s, heaps0[j], attempts, a);
      attempts := attempts + [a];
      heaps := heaps[j := heaps[j] - {u}];
      if preempted {
        placed := true;
      }
    }
  }

  lemma Claims(j: JobId)
    ensures ClaimOf(j, false) == Between(j) && ClaimOf(j, true) == Within(j)
  {
  }

  lemma UndoingSound(start: Snap, s: Snap, ops: seq<Operation>)
    requires Undoing(start, s, ops)
    ensures Sound(s) && JobsKeyed(s.jobs) && Current(s, ops) && Undoable(s, ops) && UndoAll(s, ops) == start
  {
  }

  /** The evictions that the cache refuses; a reliable cache refuses none. */
  method AnyRefused(reliable: bool) returns (refused: set<TaskId>)
    ensures reliable ==> refused == {}
  {
    refused := *;
    if reliable {
      refused := {};
    }
  }

  /** Committing evictions: whatever a reliable cache is asked, nothing but bindings happens, and what waits still waits. */
  method CommitEvictions(ssn: Session, stmt: Statement, heaps: map<JobId, set<TaskId>>, reliable: bool) returns (allEvicted: bool)
    requires stmt.ssn == ssn && ssn.Valid() && Sound(ssn.View()) && Current(ssn.View(), stmt.operations) && AllWaiting(ssn.View().jobs, heaps)
    modifies ssn`Shares, ssn`Bound, ssn.Jobs.Values, ssn.Nodes.Values
    ensures ssn.Valid() && (reliable ==> allEvicted)
    ensures allEvicted ==> Sound(ssn.View()) && AllWaiting(ssn.View().jobs, heaps) && OnlyBound(old(ssn.View()), ssn.View())
  {
    hide *;
    ghost var s := ssn.View();
    var refused := AnyRefused(reliable);
    NoneRefused(stmt.operations);
    allEvicted := stmt.Commit(refused);
    if allEvicted {
      BindKeeps(s, ssn.View());
      OnlyBoundIs(s, ssn.View());
      BoundHeaps(s.jobs, ssn.View().jobs, heaps);
    }
  }

  lemma OnlyBoundIs(s: Snap, s': Snap)
    requires OnlyBound(s, s')
    ensures OnlyBoundJobs(s.jobs, s'.jobs)
  {
  }

  /** One turn of a preemptor job, from a heap of pending tasks. */
  datatype JobTurn = JobTurn(job: JobId, heap: set<TaskId>, attempts: seq<Attempt>, committed: bool, before: Snap, after: Snap)

  /**
   Attempts were made until the heap was empty or the job did not starve any more; what they led to is committed
   exactly if the votes of JobPipelined are for it there, and discarded otherwise.
   */
  ghost predicate JobTurnOk(config: Config, v: JobVotes, t: JobTurn) {
    var left, tried := LeftIn(t.heap, t.attempts), Reached(t.before, t.attempts);
    Attempts(config, v, t.job, t.before, t.heap, t.attempts) && (left == {} || !v.starving(|left|)) &&
    t.job in tried.jobs && t.committed == ((v.heard ==> GangPipelined(tried.jobs[t.job])) && v.rest) &&
    if t.committed then OnlyBound(tried, t.after) else t.after == t.before
  }

  /** A job is pushed back if something was committed for one of its tasks. */
  ghost predicate Again(t: JobTurn) {
    t.committed && SomePlaced(t.attempts)
  }

  /**
   One preemptor job of a queue. Its operations led to `tried`, from where discarding leads back; they are
   committed exactly if the votes of JobPipelined, where gang's counts if it is heard, are for it there, and
   discarded otherwise.
   */
  method PreemptorJob(ssn: Session, j: JobId, heaps0: map<JobId, set<TaskId>>, config: Config, reliable: bool, v: JobVotes)
    returns (heaps: map<JobId, set<TaskId>>, again: bool, allEvicted: bool, ghost t: JobTurn, ghost ops: seq<Operation>)
    requires ssn.Valid() && Sound(ssn.View()) && AllWaiting(ssn.View().jobs, heaps0) && j in heaps0
    modifies ssn`Shares, ssn`Bound, ssn.Jobs.Values, ssn.Nodes.Values
    ensures ssn.Valid() && heaps.Keys == heaps0.Keys && heaps[j] <= heaps0[j] && heaps == heaps0[j := heaps[j]]
    ensures allEvicted ==> Sound(ssn.View()) && AllWaiting(ssn.View().jobs, heaps)
    ensures reliable ==> allEvicted
    ensures again ==> heaps[j] < heaps0[j]
    ensures allEvicted ==> JobTurnOk(config, v, t) && again == Again(t) && t.after == ssn.View()
    ensures t.job == j && t.heap == heaps0[j] && t.before == old(ssn.View()) && heaps[j] == LeftIn(heaps0[j], t.attempts)
    ensures var tried := Reached(t.before, t.attempts);
            Undoing(t.before, tried, ops) && Takes(t.before, tried, {Between(j)}) && j in tried.jobs &&
            t.committed == ((v.heard ==> GangPipelined(tried.jobs[j])) && v.rest)
    ensures !t.committed ==> allEvicted && ssn.View() == old(ssn.View())
    ensures allEvicted ==> Takes(old(ssn.View()), ssn.View(), {Between(j)})
    ensures allEvicted && GangEverywhere(config) ==> GangsKept(old(ssn.View()), ssn.View(), {j})
    ensures allEvicted && v.heard && t.committed ==> j in ssn.View().jobs && GangPipelined(ssn.View().jobs[j])
  {
    hide *;
    ghost var start := ssn.View();
    UndoingStarts(start);
    var stmt := new Statement(ssn);
    ghost var attempts;
    heaps, again, attempts := PreemptForJob(ssn, stmt, j, heaps0, config, v, start);
    ghost var tried := ssn.View();
    ops := stmt.operations;
    UndoingSound(start, tried, ops);
    WaitingJob(tried.jobs, heaps, j);
    FewerHeaps(start.jobs, heaps0, j, heaps[j]);
    var committed;
    committed, allEvicted := EndPreemption(ssn, stmt, j, heaps, reliable, v, start);
    t := JobTurn(j, heaps0[j], attempts, committed, start, ssn.View());
    if allEvicted {
      JobTurnIs(config, v, t, again);
      GangsKeptHere(start, {j});
      if GangEverywhere(config) && committed {
        GangsKeptBound(tried, ssn.View(), {});
        GangsKeptThen(start, tried, ssn.View(), {j}, {}, {j});
      }
    }
    again := again && committed;
  }

  lemma JobTurnIs(config: Config, v: JobVotes, t: JobTurn, placed: bool)
    requires Attempts(config, v, t.job, t.before, t.heap, t.attempts) && placed == SomePlaced(t.attempts)
    requires var left := LeftIn(t.heap, t.attempts); left == {} || !v.starving(|left|)
    requires var tried := Reached(t.before, t.attempts);
             t.job in tried.jobs && t.committed == ((v.heard ==> GangPipelined(tried.jobs[t.job])) && v.rest) &&
             Takes(t.before, tried, {Between(t.job)}) &&
             if t.committed then OnlyBound(tried, t.after) else t.after == t.before
    ensures JobTurnOk(config, v, t) && Again(t) == (placed && t.committed) && Takes(t.before, t.after, {Between(t.job)})
  {
    hide Attempts, SomePlaced, LeftIn, Reached, Takes, OnlyBound;
    var tried := Reached(t.before, t.attempts);
    if t.committed {
      TakesBound(tried, t.after, {});
      TakesThen(t.before, tried, t.after, {Between(t.job)}, {}, {Between(t.job)});
    } else {
      TakesNothing(t.before, {Between(t.job)});
    }
  }

  /** Commits or discards what a preemptor job did. */
  method EndPreemption(ssn: Session, stmt: Statement, j: JobId, heaps: map<JobId, set<TaskId>>, reliable: bool, v: JobVotes, ghost start: Snap)
    returns (committed: bool, allEvicted: bool)
    requires stmt.ssn == ssn && ssn.Valid() && Undoing(start, ssn.View(), stmt.operations) && AllWaiting(ssn.View().jobs, heaps)
    requires j in ssn.View().jobs && Sound(start) && AllWaiting(start.jobs, heaps)
    modifies ssn`Shares, ssn`Bound, ssn.Jobs.Values, ssn.Nodes.Values
    ensures ssn.Valid() && (reliable ==> allEvicted)
    ensures committed == ((v.heard ==> GangPipelined(old(ssn.View()).jobs[j])) && v.rest)
    ensures if committed then allEvicted ==> OnlyBound(old(ssn.View()), ssn.View()) else allEvicted && ssn.View() == start
    ensures allEvicted ==> Sound(ssn.View()) && AllWaiting(ssn.View().jobs, heaps)
    ensures allEvicted && v.heard && committed ==> j in ssn.View().jobs && GangPipelined(ssn.View().jobs[j])
  {
    hide *;
    ghost var tried := ssn.View();
    UndoingSound(start, tried, stmt.operations);
    ssn.Keys();
    SameJobs(ssn);
    allEvicted := true;
    committed := ssn.JobPipelined(j, v.heard, v.rest);
    if committed {
      allEvicted := CommitEvictions(ssn, stmt, heaps, reliable);
      if allEvicted {
        StillPipelined(tried, ssn.View(), j);
      }
    } else {
      stmt.Discard();
    }
  }

  lemma SameJobs(ssn: Session)
    ensures ssn.View().jobs == ssn.JobsView()
  {
  }

  lemma NoneRefused(ops: seq<Operation>)
    ensures AllAccepted(ops, {})
  {
  }

  lemma StillPipelined(s: Snap, s': Snap, j: JobId)
    requires OnlyBound(s, s') && j in s.jobs
    ensures j in s'.jobs && (GangPipelined(s.jobs[j]) <==> GangPipelined(s'.jobs[j]))
  {
    hide GangPipelined, GangReady;
    assert OnlyBoundJob(s.jobs[j], s'.jobs[j]);
    GangReadyAfterBinding(s.jobs[j], s'.jobs[j]);
  }

  /** Where a phase stands: the session, the heaps, and the jobs that are still to come. */
  datatype Phase = Phase(state: Snap, heaps: map<JobId, set<TaskId>>, jobs: set<JobId>)

  ghost function AfterTurn(g: Phase, t: JobTurn): Phase {
    Phase(t.after, g.heaps[t.job := LeftIn(t.heap, t.attempts)], if Again(t) then g.jobs else g.jobs - {t.job})
  }

  ghost function AfterTurns(g: Phase, turns: seq<JobTurn>): Phase {
    if turns == [] then g else AfterTurn(AfterTurns(g, turns[..|turns| - 1]), turns[|turns| - 1])
  }

  /** The turns of the jobs of one queue; `votes` are what is answered in each of them. */
  ghost predicate Turns(config: Config, votes: nat -> JobVotes, g: Phase, turns: seq<JobTurn>) {
    turns == [] ||
    var before, t := turns[..|turns| - 1], turns[|turns| - 1];
    var g' := AfterTurns(g, before);
    Turns(config, votes, g, before) && t.job in g'.jobs && t.job in g'.heaps && t.heap == g'.heaps[t.job] && t.before == g'.state &&
    JobTurnOk(config, votes(|before|), t)
  }

  lemma NoTurns(config: Config, votes: nat -> JobVotes, g: Phase)
    ensures Turns(config, votes, g, []) && AfterTurns(g, []) == g
  {
  }

  lemma OneMoreTurn(config: Config, votes: nat -> JobVotes, g: Phase, turns: seq<JobTurn>, t: JobTurn)
    requires Turns(config, votes, g, turns)
    requires var g' := AfterTurns(g, turns);
             t.job in g'.jobs && t.job in g'.heaps && t.heap == g'.heaps[t.job] && t.before == g'.state && JobTurnOk(config, votes(|turns|), t)
    ensures Turns(config, votes, g, turns + [t])
    ensures var g', g'' := AfterTurns(g, turns), AfterTurns(g, turns + [t]);
            g''.state == t.after && g''.heaps == g'.heaps[t.job := LeftIn(t.heap, t.attempts)] &&
            g''.jobs == if Again(t) then g'.jobs else g'.jobs - {t.job}
  {
    hide JobTurnOk, Again, LeftIn;
    assert (turns + [t])[..|turns|] == turns;
  }

  /** The job's last turn among these ended with its heap empty, the job not starving, or nothing committed for it. */
  ghost predicate HadTurn(turns: seq<JobTurn>, j: JobId) {
    exists k :: 0 <= k < |turns| && turns[k].job == j && !Again(turns[k]) && forall i | k < i < |turns| :: turns[i].job != j
  }

  /** Every job that does not wait any more had its turn. */
  lemma {:induction false} EverybodyHadTurn(config: Config, votes: nat -> JobVotes, g: Phase, turns: seq<JobTurn>, j: JobId)
    requires Turns(config, votes, g, turns) && j in g.jobs && j !in AfterTurns(g, turns).jobs
    ensures HadTurn(turns, j)
    decreases |turns|
  {
    hide JobTurnOk, Again, LeftIn;
    if turns != [] {
      var before, t := turns[..|turns| - 1], turns[|turns| - 1];
      if j !in AfterTurns(g, before).jobs {
        EverybodyHadTurn(config, votes, g, before, j);
        var k :| 0 <= k < |before| && before[k].job == j && !Again(before[k]) && forall i | k < i < |before| :: before[i].job != j;
        assert turns[k] == before[k] && forall i | k < i < |before| :: turns[i] == before[i];
      } else {
        assert turns[|turns| - 1].job == j;
      }
    }
  }

  /** What the jobs may take from each other. */
  function Betweens(jobs: set<JobId>): set<Claim> {
    set j | j in jobs :: Between(j)
  }

  lemma BetweenThese(jobs: set<JobId>, j: JobId)
    requires j in jobs
    ensures {Between(j)} <= Betweens(jobs)
  {
  }

  /**
   Preemption between the jobs of one queue.  The second result is false when the cache refused an
   eviction; what happens after that is not claimed.
   */
  method PreemptInQueue(ssn: Session, jobs: set<JobId>, heaps0: map<JobId, set<TaskId>>, config: Config, reliable: bool, votes: nat -> JobVotes)
    returns (heaps: map<JobId, set<TaskId>>, allEvicted: bool, ghost turns: seq<JobTurn>)
    requires ssn.Valid() && Sound(ssn.View()) && AllWaiting(ssn.View().jobs, heaps0) && jobs <= heaps0.Keys
    modifies ssn`Shares, ssn`Bound, ssn.Jobs.Values, ssn.Nodes.Values
    ensures ssn.Valid() && heaps.Keys == heaps0.Keys
    ensures (reliable ==> allEvicted) && (allEvicted ==> Sound(ssn.View()) && AllWaiting(ssn.View().jobs, heaps))
    ensures allEvicted ==>
              var g := Phase(old(ssn.View()), heaps0, jobs);
              Turns(config, votes, g, turns) && AfterTurns(g, turns) == Phase(ssn.View(), heaps, {}) &&
              Takes(old(ssn.View()), ssn.View(), Betweens(jobs)) && forall j | j in jobs :: HadTurn(turns, j)
    ensures allEvicted && GangEverywhere(config) ==> GangsKept(old(ssn.View()), ssn.View(), jobs)
  {
    hide *;
    ghost var s := ssn.View();
    ghost var g := Phase(s, heaps0, jobs);
    heaps, allEvicted, turns := heaps0, true, [];
    var preemptors := jobs;
    var k := 0;
    ghost var remaining := AllHeaps(heaps);
    HeapsIn(heaps);
    NoTurns(config, votes, g);
    TakesNothing(s, Betweens(jobs));
    GangsKeptHere(s, jobs);
    while preemptors != {}
      invariant preemptors <= heaps.Keys && heaps.Keys == heaps0.Keys && preemptors <= jobs && allEvicted
      invariant forall j, u | j in heaps && u in heaps[j] :: (j, u) in remaining
      invariant ssn.Valid() && Sound(ssn.View()) && AllWaiting(ssn.View().jobs, heaps) && k == |turns|
      invariant Turns(config, votes, g, turns) && AfterTurns(g, turns) == Phase(ssn.View(), heaps, preemptors)
      invariant Takes(s, ssn.View(), Betweens(jobs)) && (GangEverywhere(config) ==> GangsKept(s, ssn.View(), jobs))
      decreases remaining, preemptors
    {
      var j :| j in preemptors;
      preemptors := preemptors - {j};
      ghost var before, s1 := heaps, ssn.View();
      var again;
      ghost var t, ops;
      heaps, again, allEvicted, t, ops := PreemptorJob(ssn, j, heaps, config, reliable, votes(k));
      if !allEvicted {
        return;
      }
      BetweenThese(jobs, j);
      TakesThen(s, s1, ssn.View(), Betweens(jobs), {Between(j)}, Betweens(jobs));
      if GangEverywhere(config) {
        GangsKeptThen(s, s1, ssn.View(), jobs, {j}, jobs);
      }
      OneMoreTurn(config, votes, g, turns, t);
      turns := turns + [t];
      Popped(before, j, heaps[j], remaining);
      remaining := remaining - (set u | u in before[j] - heaps[j] :: (j, u));
      if again {
        preemptors := preemptors + {j};
      }
      k := k + 1;
    }
    forall j | j in jobs ensures HadTurn(turns, j) {
      EverybodyHadTurn(config, votes, g, turns, j);
    }
  }

  ghost function AllHeaps(heaps: map<JobId, set<TaskId>>): set<(JobId, TaskId)> {
    set j, u | j in heaps && u in heaps[j] :: (j, u)
  }

  lemma HeapsIn(heaps: map<JobId, set<TaskId>>)
    ensures forall j, u | j in heaps && u in heaps[j] :: (j, u) in AllHeaps(heaps)
  {
  }

  lemma WaitingJob(jobs: JobMap, heaps: map<JobId, set<TaskId>>, j: JobId)
    requires AllWaiting(jobs, heaps) && j in heaps
    ensures j in jobs
  {
  }

  lemma Popped(heaps: map<JobId, set<TaskId>>, j: JobId, left: set<TaskId>, remaining: set<(JobId, TaskId)>)
    requires j in heaps && left <= heaps[j] && forall i, u | i in heaps && u in heaps[i] :: (i, u) in remaining
    ensures forall i, u | i in heaps && u in heaps[j := left][i] :: (i, u) in remaining - (set u | u in heaps[j] - left :: (j, u))
    ensures left < heaps[j] ==> remaining - (set u | u in heaps[j] - left :: (j, u)) < remaining
  {
  }

  lemma NoHeaps(jobs: JobMap)
    ensures AllWaiting(jobs, map[])
  {
  }

  lemma MoreHeaps(jobs: JobMap, heaps: map<JobId, set<TaskId>>, j: JobId, tasks: set<TaskId>)
    requires AllWaiting(jobs, heaps) && Waiting(jobs, j, tasks)
    ensures AllWaiting(jobs, heaps[j := tasks])
  {
  }

  // ----- the second phase: within one job

  /** An attempt and the state after its commit. */
  datatype Own = Own(attempt: Attempt, after: Snap)

  /** One job's preemptions within itself. */
  datatype OwnTurn = OwnTurn(job: JobId, heap: set<TaskId>, owns: seq<Own>, before: Snap)

  ghost function Committed(s: Snap, owns: seq<Own>): Snap {
    if owns == [] then s else owns[|owns| - 1].after
  }

  ghost function LeftOf(heap: set<TaskId>, owns: seq<Own>): set<TaskId> {
    if owns == [] then heap else LeftOf(heap, owns[..|owns| - 1]) - {owns[|owns| - 1].attempt.task.uid}
  }

  ghost predicate AllPlaced(owns: seq<Own>) {
    forall i | 0 <= i < |owns| :: owns[i].attempt.placed
  }

  /** Attempts for tasks in the heap, each committed, and each but the first after a successful one. */
  ghost predicate Owns(config: Config, votes: TaskId -> TaskVotes, j: JobId, s: Snap, heap: set<TaskId>, owns: seq<Own>) {
    owns == [] ||
    var before, o := owns[..|owns| - 1], owns[|owns| - 1];
    Owns(config, votes, j, s, heap, before) && AllPlaced(before) && o.attempt.task.uid in LeftOf(heap, before) && o.attempt.task.job == j &&
    AttemptOk(config, votes(o.attempt.task.uid), true, o.attempt) && o.attempt.before == Committed(s, before) && OnlyBound(o.attempt.after, o.after)
  }

  /** A job's turn starts with all its pending tasks, and ends with the first that finds no victims. */
  ghost predicate OwnTurnOk(config: Config, votes: TaskId -> TaskVotes, t: OwnTurn) {
    t.job in t.before.jobs && t.heap == PendingSet(t.before.jobs[t.job]) && Owns(config, votes, t.job, t.before, t.heap, t.owns) &&
    (LeftOf(t.heap, t.owns) == {} || !AllPlaced(t.owns))
  }

  lemma NoOwns(config: Config, votes: TaskId -> TaskVotes, j: JobId, s: Snap, heap: set<TaskId>)
    ensures Owns(config, votes, j, s, heap, []) && Committed(s, []) == s && LeftOf(heap, []) == heap && AllPlaced([])
  {
  }

  lemma OneMoreOwn(config: Config, votes: TaskId -> TaskVotes, j: JobId, s: Snap, heap: set<TaskId>, owns: seq<Own>, o: Own)
    requires Owns(config, votes, j, s, heap, owns) && AllPlaced(owns) && o.attempt.task.uid in LeftOf(heap, owns) && o.attempt.task.job == j
    requires AttemptOk(config, votes(o.attempt.task.uid), true, o.attempt) && o.attempt.before == Committed(s, owns)
    requires OnlyBound(o.attempt.after, o.after)
    ensures Owns(config, votes, j, s, heap, owns + [o]) && Committed(s, owns + [o]) == o.after
    ensures LeftOf(heap, owns + [o]) == LeftOf(heap, owns) - {o.attempt.task.uid}
    ensures AllPlaced(owns + [o]) <==> o.attempt.placed
  {
    hide AttemptOk, OnlyBound;
    assert (owns + [o])[..|owns|] == owns && (owns + [o])[|owns|] == o;
  }

  ghost function PendingSet(j: JobState): set<TaskId> {
    set u | u in j.tasks && j.tasks[u].status.Pending?
  }

  method PendingOf(ssn: Session, j: JobId) returns (tasks: set<TaskId>)
    requires ssn.Valid() && j in ssn.Jobs
    ensures Waiting(ssn.View().jobs, j, tasks)
    ensures j in ssn.View().jobs && tasks == PendingSet(ssn.View().jobs[j])
  {
    hide SharesMatch, Session.NodesOk;
    ssn.Jobs[j].BucketIs(Pending);
    tasks := ssn.Jobs[j].Bucket(Pending);
  }

  /** One preemptor within its own job: its statement is always committed. */
  method PreemptOnce(ssn: Session, j: JobId, heaps0: map<JobId, set<TaskId>>, u: TaskId, config: Config, reliable: bool, v: TaskVotes)
    returns (heaps: map<JobId, set<TaskId>>, placed: bool, allEvicted: bool, ghost o: Own)
    requires ssn.Valid() && Sound(ssn.View()) && AllWaiting(ssn.View().jobs, heaps0) && j in heaps0 && u in heaps0[j]
    modifies ssn`Shares, ssn`Bound, ssn.Jobs.Values, ssn.Nodes.Values
    ensures ssn.Valid() && heaps == heaps0[j := heaps0[j] - {u}]
    ensures (reliable ==> allEvicted) && (allEvicted ==> Sound(ssn.View()) && AllWaiting(ssn.View().jobs, heaps))
    ensures AttemptOk(config, v, true, o.attempt) && o.attempt.task.uid == u && o.attempt.task.job == j && o.attempt.placed == placed
    ensures o.attempt.before == old(ssn.View()) && Takes(o.attempt.before, o.attempt.after, {Within(j)}) && o.after == ssn.View()
    ensures allEvicted ==> OnlyBound(o.attempt.after, o.after) && Takes(old(ssn.View()), ssn.View(), {Within(j)})
    ensures allEvicted && GangEverywhere(config) ==> GangsKept(old(ssn.View()), ssn.View(), {j})
  {
    hide *;
    ghost var start := ssn.View();
    UndoingStarts(start);
    var stmt := new Statement(ssn);
    ghost var a;
    placed, a := PreemptOne(ssn, stmt, j, heaps0, u, true, config, v, start);
    ghost var s := ssn.View();
    UndoingSound(start, s, stmt.operations);
    heaps := heaps0[j := heaps0[j] - {u}];
    Claims(j);
    allEvicted := CommitEvictions(ssn, stmt, heaps, reliable);
    o := Own(a, ssn.View());
    if allEvicted {
      TakesBound(s, ssn.View(), {});
      TakesThen(start, s, ssn.View(), {Within(j)}, {}, {Within(j)});
      if GangEverywhere(config) {
        GangsKeptBound(s, ssn.View(), {});
        GangsKeptThen(start, s, ssn.View(), {j}, {}, {j});
      }
    }
  }

  /** Preemption within one job, over all its pending tasks, until one finds no victims. */
  method PreemptInJob(ssn: Session, j: JobId, heaps0: map<JobId, set<TaskId>>, config: Config, reliable: bool, votes: TaskId -> TaskVotes)
    returns (heaps: map<JobId, set<TaskId>>, allEvicted: bool, ghost t: OwnTurn)
    requires ssn.Valid() && Sound(ssn.View()) && AllWaiting(ssn.View().jobs, heaps0) && j in heaps0
    modifies ssn`Shares, ssn`Bound, ssn.Jobs.Values, ssn.Nodes.Values
    ensures ssn.Valid() && heaps.Keys == heaps0.Keys
    ensures (reliable ==> allEvicted) && (allEvicted ==> Sound(ssn.View()) && AllWaiting(ssn.View().jobs, heaps))
    ensures allEvicted ==> OwnTurnOk(config, votes, t) && t.job == j && t.before == old(ssn.View()) && Committed(t.before, t.owns) == ssn.View() &&
                           heaps == heaps0[j := LeftOf(t.heap, t.owns)] && Takes(old(ssn.View()), ssn.View(), {Within(j)})
    ensures allEvicted && GangEverywhere(config) ==> GangsKept(old(ssn.View()), ssn.View(), {j})
  {
    hide *;
    ghost var s := ssn.View();
    allEvicted := true;
    WaitingJob(s.jobs, heaps0, j);
    ssn.Keys();
    var pending := PendingOf(ssn, j);
    MoreHeaps(s.jobs, heaps0, j, pending);
    heaps := heaps0[j := pending];
    ghost var owns: seq<Own> := [];
    t := OwnTurn(j, pending, owns, s);
    NoOwns(config, votes, j, s, pending);
    TakesNothing(s, {Within(j)});
    GangsKeptHere(s, {j});
    while heaps[j] != {}
      invariant allEvicted && ssn.Valid() && Sound(ssn.View()) && AllWaiting(ssn.View().jobs, heaps) && heaps.Keys == heaps0.Keys
      invariant Owns(config, votes, j, s, pending, owns) && Committed(s, owns) == ssn.View() && AllPlaced(owns)
      invariant heaps == heaps0[j := LeftOf(pending, owns)] && Takes(s, ssn.View(), {Within(j)})
      invariant GangEverywhere(config) ==> GangsKept(s, ssn.View(), {j})
      decreases heaps[j]
    {
      var u :| u in heaps[j];
      ghost var s1, before := ssn.View(), heaps;
      var placed;
      ghost var o;
      heaps, placed, allEvicted, o := PreemptOnce(ssn, j, heaps, u, config, reliable, votes(u));
      if !allEvicted {
        return;
      }
      TakesThen(s, s1, ssn.View(), {Within(j)}, {Within(j)}, {Within(j)});
      if GangEverywhere(config) {
        GangsKeptThen(s, s1, ssn.View(), {j}, {j}, {j});
      }
      OneMoreOwn(config, votes, j, s, pending, owns, o);
      owns := owns + [o];
      assert heaps == heaps0[j := LeftOf(pending, owns)];
      if !placed {
        break;
      }
    }
    t := OwnTurn(j, pending, owns, s);
    OwnTurnIs(config, votes, t);
  }

  lemma OwnTurnIs(config: Config, votes: TaskId -> TaskVotes, t: OwnTurn)
    requires t.job in t.before.jobs && t.heap == PendingSet(t.before.jobs[t.job]) && Owns(config, votes, t.job, t.before, t.heap, t.owns)
    requires LeftOf(t.heap, t.owns) == {} || !AllPlaced(t.owns)
    ensures OwnTurnOk(config, votes, t)
  {
  }

  ghost function AfterOwn(g: Phase, t: OwnTurn): Phase {
    Phase(Committed(t.before, t.owns), g.heaps[t.job := LeftOf(t.heap, t.owns)], g.jobs - {t.job})
  }

  ghost function AfterOwns(g: Phase, turns: seq<OwnTurn>): Phase {
    if turns == [] then g else AfterOwn(AfterOwns(g, turns[..|turns| - 1]), turns[|turns| - 1])
  }

  /** One turn for every job, in any order. */
  ghost predicate OwnTurns(config: Config, votes: TaskId -> TaskVotes, g: Phase, turns: seq<OwnTurn>) {
    turns == [] ||
    var before, t := turns[..|turns| - 1], turns[|turns| - 1];
    OwnTurns(config, votes, g, before) && t.job in AfterOwns(g, before).jobs && t.before == AfterOwns(g, before).state &&
    OwnTurnOk(config, votes, t)
  }

  lemma NoOwnTurns(config: Config, votes: TaskId -> TaskVotes, g: Phase)
    ensures OwnTurns(config, votes, g, []) && AfterOwns(g, []) == g
  {
  }

  lemma OneMoreOwnTurn(config: Config, votes: TaskId -> TaskVotes, g: Phase, turns: seq<OwnTurn>, t: OwnTurn)
    requires OwnTurns(config, votes, g, turns) && OwnTurnOk(config, votes, t)
    requires t.job in AfterOwns(g, turns).jobs && t.before == AfterOwns(g, turns).state
    ensures OwnTurns(config, votes, g, turns + [t])
    ensures AfterOwns(g, turns + [t]) ==
            Phase(Committed(t.before, t.owns), AfterOwns(g, turns).heaps[t.job := LeftOf(t.heap, t.owns)], AfterOwns(g, turns).jobs - {t.job})
  {
    hide OwnTurnOk;
    assert (turns + [t])[..|turns|] == turns;
  }

  /** What the jobs may take from themselves. */
  function Withins(jobs: set<JobId>): set<Claim> {
    set j | j in jobs :: Within(j)
  }

  lemma WithinThese(jobs: set<JobId>, j: JobId)
    requires j in jobs
    ensures {Within(j)} <= Withins(jobs)
  {
  }

  /** The second phase over all starving jobs. */
  method PreemptInJobs(ssn: Session, jobs: set<JobId>, heaps0: map<JobId, set<TaskId>>, config: Config, reliable: bool, votes: TaskId -> TaskVotes)
    returns (heaps: map<JobId, set<TaskId>>, allEvicted: bool, ghost turns: seq<OwnTurn>)
    requires ssn.Valid() && Sound(ssn.View()) && AllWaiting(ssn.View().jobs, heaps0) && jobs <= heaps0.Keys
    modifies ssn`Shares, ssn`Bound, ssn.Jobs.Values, ssn.Nodes.Values
    ensures ssn.Valid() && heaps.Keys == heaps0.Keys
    ensures (reliable ==> allEvicted) && (allEvicted ==> Sound(ssn.View()) && AllWaiting(ssn.View().jobs, heaps))
    ensures allEvicted ==>
              var g := Phase(old(ssn.View()), heaps0, jobs);
              OwnTurns(config, votes, g, turns) && AfterOwns(g, turns) == Phase(ssn.View(), heaps, {}) &&
              Takes(old(ssn.View()), ssn.View(), Withins(jobs))
    ensures allEvicted && GangEverywhere(config) ==> GangsKept(old(ssn.View()), ssn.View(), jobs)
  {
    hide *;
    ghost var s := ssn.View();
    ghost var g := Phase(s, heaps0, jobs);
    heaps, allEvicted, turns := heaps0, true, [];
    NoOwnTurns(config, votes, g);
    TakesNothing(s, Withins(jobs));
    GangsKeptHere(s, jobs);
    var todo := jobs;
    while todo != {}
      invariant todo <= jobs && heaps.Keys == heaps0.Keys && allEvicted
      invariant ssn.Valid() && Sound(ssn.View()) && AllWaiting(ssn.View().jobs, heaps)
      invariant OwnTurns(config, votes, g, turns) && AfterOwns(g, turns) == Phase(ssn.View(), heaps, todo)
      invariant Takes(s, ssn.View(), Withins(jobs)) && (GangEverywhere(config) ==> GangsKept(s, ssn.View(), jobs))
      decreases todo
    {
      var j :| j in todo;
      ghost var s1 := ssn.View();
      ghost var t;
      heaps, allEvicted, t := PreemptInJob(ssn, j, heaps, config, reliable, votes);
      if !allEvicted {
        return;
      }
      WithinThese(jobs, j);
      TakesThen(s, s1, ssn.View(), Withins(jobs), {Within(j)}, Withins(jobs));
      if GangEverywhere(config) {
        GangsKeptThen(s, s1, ssn.View(), jobs, {j}, jobs);
      }
      OneMoreOwnTurn(config, votes, g, turns, t);
      turns := turns + [t];
      todo := todo - {j};
    }
  }

  // ----- the whole action

  /** What is answered while one queue is dealt with. */
  datatype QueueVotes = QueueVotes(turns: nat -> JobVotes, own: TaskId -> TaskVotes)

  /** What was done for one queue. */
  datatype QueueRun = QueueRun(queue: string, turns: seq<JobTurn>, own: seq<OwnTurn>)

  /** The starving jobs of the queue. */
  ghost function OfQueue(g: Phase, queue: string): set<JobId> {
    set j | j in g.jobs && j in g.state.jobs && g.state.jobs[j].queue == queue
  }

  ghost function FirstPhase(g: Phase, run: QueueRun): Phase {
    AfterTurns(g.(jobs := OfQueue(g, run.queue)), run.turns)
  }

  ghost function AfterRun(g: Phase, run: QueueRun): Phase {
    AfterOwns(FirstPhase(g, run).(jobs := g.jobs), run.own).(jobs := g.jobs)
  }

  /** First the starving jobs of the queue preempt each other until none is left, then every starving job itself. */
  ghost predicate RunOk(config: Config, votes: QueueVotes, g: Phase, run: QueueRun) {
    Turns(config, votes.turns, g.(jobs := OfQueue(g, run.queue)), run.turns) && FirstPhase(g, run).jobs == {} &&
    OwnTurns(config, votes.own, FirstPhase(g, run).(jobs := g.jobs), run.own) &&
    AfterOwns(FirstPhase(g, run).(jobs := g.jobs), run.own).jobs == {} &&
    forall j | j in OfQueue(g, run.queue) :: HadTurn(run.turns, j)
  }

  ghost function AfterRuns(g: Phase, runs: seq<QueueRun>): Phase {
    if runs == [] then g else AfterRun(AfterRuns(g, runs[..|runs| - 1]), runs[|runs| - 1])
  }

  ghost function QueuesLeft(queues: set<string>, runs: seq<QueueRun>): set<string> {
    if runs == [] then queues else QueuesLeft(queues, runs[..|runs| - 1]) - {runs[|runs| - 1].queue}
  }

  /** Each queue once, in any order. */
  ghost predicate Runs(config: Config, votes: string -> QueueVotes, g: Phase, queues: set<string>, runs: seq<QueueRun>) {
    runs == [] ||
    var before, run := runs[..|runs| - 1], runs[|runs| - 1];
    Runs(config, votes, g, queues, before) && run.queue in QueuesLeft(queues, before) && RunOk(config, votes(run.queue), AfterRuns(g, before), run)
  }

  lemma NoRuns(config: Config, votes: string -> QueueVotes, g: Phase, queues: set<string>)
    ensures Runs(config, votes, g, queues, []) && AfterRuns(g, []) == g && QueuesLeft(queues, []) == queues
  {
  }

  lemma OneMoreRun(config: Config, votes: string -> QueueVotes, g: Phase, queues: set<string>, runs: seq<QueueRun>, run: QueueRun)
    requires Runs(config, votes, g, queues, runs) && run.queue in QueuesLeft(queues, runs)
    requires RunOk(config, votes(run.queue), AfterRuns(g, runs), run)
    ensures Runs(config, votes, g, queues, runs + [run]) && AfterRuns(g, runs + [run]) == AfterRun(AfterRuns(g, runs), run)
    ensures QueuesLeft(queues, runs + [run]) == QueuesLeft(queues, runs) - {run.queue}
  {
    hide RunOk;
    assert (runs + [run])[..|runs|] == runs;
  }

  lemma RunIs(config: Config, votes: QueueVotes, g: Phase, run: QueueRun, g1: Phase, g2: Phase, jobs: set<JobId>)
    requires g.jobs <= g.state.jobs.Keys && jobs == OfQueue(g, run.queue)
    requires Turns(config, votes.turns, Phase(g.state, g.heaps, jobs), run.turns) && AfterTurns(Phase(g.state, g.heaps, jobs), run.turns) == g1 && g1.jobs == {}
    requires OwnTurns(config, votes.own, Phase(g1.state, g1.heaps, g.jobs), run.own) && AfterOwns(Phase(g1.state, g1.heaps, g.jobs), run.own) == g2
    requires g2.jobs == {} && forall j | j in jobs :: HadTurn(run.turns, j)
    ensures RunOk(config, votes, g, run) && AfterRun(g, run) == Phase(g2.state, g2.heaps, g.jobs)
  {
    hide Turns, OwnTurns, AfterTurns, AfterOwns, HadTurn, OfQueue;
    assert g.(jobs := jobs) == Phase(g.state, g.heaps, jobs) && g1.(jobs := g.jobs) == Phase(g1.state, g1.heaps, g.jobs);
  }

  /** At first the starving jobs among the participating ones wait, each with all its pending tasks. */
  ghost function Begin(s: Snap, participating: set<JobId>, starving: set<JobId>): Phase {
    var jobs := set j | j in s.jobs && j in participating && j in starving;
    Phase(s, map j | j in jobs :: PendingSet(s.jobs[j]), jobs)
  }

  ghost function QueuesOf(s: Snap, participating: set<JobId>): set<string> {
    set j | j in s.jobs && j in participating :: s.jobs[j].queue
  }

  /** The starving jobs, with the heaps of their pending tasks, and the queues of the participating jobs. */
  method UnderRequest(ssn: Session, participating: set<JobId>, starving: set<JobId>) returns (heaps: map<JobId, set<TaskId>>, queues: set<string>)
    requires ssn.Valid()
    ensures heaps.Keys <= ssn.Jobs.Keys && AllWaiting(ssn.View().jobs, heaps)
    ensures var g := Begin(ssn.View(), participating, starving); g.heaps == heaps && g.jobs == heaps.Keys && g.state == ssn.View()
    ensures queues == QueuesOf(ssn.View(), participating)
  {
    hide *;
    heaps, queues := map[], {};
    var todo := ssn.Jobs.Keys;
    ssn.Keys();
    ghost var s := ssn.View();
    NoHeaps(s.jobs);
    while todo != {}
      invariant todo <= ssn.Jobs.Keys && heaps.Keys <= ssn.Jobs.Keys
      invariant AllWaiting(s.jobs, heaps)
      invariant forall j :: j in heaps <==> j in s.jobs && j !in todo && j in participating && j in starving
      invariant forall j | j in heaps :: heaps[j] == PendingSet(s.jobs[j])
      invariant forall j | j in s.jobs && j !in todo && j in participating :: s.jobs[j].queue in queues
      invariant queues <= QueuesOf(s, participating)
      decreases todo
    {
      var j :| j in todo;
      todo := todo - {j};
      if j in participating {
        ssn.QueueIs(j);
        QueueIn(s, participating, j);
        queues := queues + {ssn.Jobs[j].Queue};
        if j in starving {
          var tasks := PendingOf(ssn, j);
          MoreHeaps(s.jobs, heaps, j, tasks);
          heaps := heaps[j := tasks];
        }
      }
    }
    BeginIs(s, participating, starving, heaps, queues);
  }

  lemma QueueIn(s: Snap, participating: set<JobId>, j: JobId)
    requires j in s.jobs && j in participating
    ensures s.jobs[j].queue in QueuesOf(s, participating)
  {
  }

  lemma BeginIs(s: Snap, participating: set<JobId>, starving: set<JobId>, heaps: map<JobId, set<TaskId>>, queues: set<string>)
    requires forall j :: j in heaps <==> j in s.jobs && j in participating && j in starving
    requires forall j | j in heaps :: heaps[j] == PendingSet(s.jobs[j])
    requires (forall j | j in s.jobs && j in participating :: s.jobs[j].queue in queues) && queues <= QueuesOf(s, participating)
    ensures Begin(s, participating, starving) == Phase(s, heaps, heaps.Keys) && queues == QueuesOf(s, participating)
  {
    hide PendingSet;
    assert Begin(s, participating, starving).heaps == heaps;
  }

  /** All that the starving jobs may take. */
  function Claimable(jobs: set<JobId>): set<Claim> {
    Betweens(jobs) + Withins(jobs)
  }

  /** One queue: first between its starving jobs, then within every starving job. */
  method PreemptForQueue(ssn: Session, queue: string, starving: set<JobId>, heaps0: map<JobId, set<TaskId>>, config: Config, reliable: bool,
                         votes: QueueVotes)
    returns (heaps: map<JobId, set<TaskId>>, allEvicted: bool, ghost run: QueueRun)
    requires ssn.Valid() && Sound(ssn.View()) && AllWaiting(ssn.View().jobs, heaps0) && starving == heaps0.Keys && starving <= ssn.Jobs.Keys
    modifies ssn`Shares, ssn`Bound, ssn.Jobs.Values, ssn.Nodes.Values
    ensures ssn.Valid() && heaps.Keys == heaps0.Keys
    ensures (reliable ==> allEvicted) && (allEvicted ==> Sound(ssn.View()) && AllWaiting(ssn.View().jobs, heaps))
    ensures allEvicted ==>
              var g := Phase(old(ssn.View()), heaps0, starving);
              run.queue == queue && RunOk(config, votes, g, run) && AfterRun(g, run) == Phase(ssn.View(), heaps, starving) &&
              Takes(old(ssn.View()), ssn.View(), Claimable(starving))
    ensures allEvicted && GangEverywhere(config) ==> GangsKept(old(ssn.View()), ssn.View(), starving)
  {
    hide *;
    ghost var s := ssn.View();
    ghost var g := Phase(s, heaps0, starving);
    run := QueueRun(queue, [], []);
    var preemptors := set j | j in starving && ssn.Jobs[j].Queue == queue;
    PreemptorsAre(ssn, g, queue, preemptors);
    ghost var turns, own;
    heaps, allEvicted, turns := PreemptInQueue(ssn, preemptors, heaps0, config, reliable, votes.turns);
    if !allEvicted {
      return;
    }
    ghost var s1, heaps1 := ssn.View(), heaps;
    heaps, allEvicted, own := PreemptInJobs(ssn, starving, heaps, config, reliable, votes.own);
    if !allEvicted {
      return;
    }
    run := QueueRun(queue, turns, own);
    RunIs(config, votes, g, run, Phase(s1, heaps1, {}), Phase(ssn.View(), heaps, {}), preemptors);
    ClaimsWithin(preemptors, starving);
    TakesThen(s, s1, ssn.View(), Betweens(preemptors), Withins(starving), Claimable(starving));
    if GangEverywhere(config) {
      GangsKeptThen(s, s1, ssn.View(), preemptors, starving, starving);
    }
  }

  lemma PreemptorsAre(ssn: Session, g: Phase, queue: string, preemptors: set<JobId>)
    requires g.state == ssn.View() && g.jobs <= ssn.Jobs.Keys && preemptors == set j | j in g.jobs && ssn.Jobs[j].Queue == queue
    ensures preemptors == OfQueue(g, queue) && g.jobs <= g.state.jobs.Keys
  {
  }

  lemma ClaimsWithin(some: set<JobId>, all: set<JobId>)
    requires some <= all
    ensures Betweens(some) <= Claimable(all) && Withins(all) <= Claimable(all)
  {
  }

  /**
   The whole action.  It ends; every ledger stays right; and as long as the cache evicts what it is asked
   to, which a reliable one always does, no node ever promises more than it will have, `runs` is what was done
   for each queue, and nobody loses a running task to whom the filters do not permit. If gang votes in every
   tier in which somebody can vote, no gang but those of the starving jobs loses its minimum.
   */
  method Execute(ssn: Session, config: Config, reliable: bool, participating: set<JobId>, starving: set<JobId>, votes: string -> QueueVotes)
    returns (allEvicted: bool, ghost runs: seq<QueueRun>)
    requires ssn.Valid() && Sound(ssn.View())
    modifies ssn`Shares, ssn`Bound, ssn.Jobs.Values, ssn.Nodes.Values
    ensures ssn.Valid()
    ensures (reliable ==> allEvicted) && (allEvicted ==> Sound(ssn.View()))
    ensures allEvicted ==>
              var g, queues := Begin(old(ssn.View()), participating, starving), QueuesOf(old(ssn.View()), participating);
              Runs(config, votes, g, queues, runs) && QueuesLeft(queues, runs) == {} && AfterRuns(g, runs).state == ssn.View() &&
              Takes(old(ssn.View()), ssn.View(), Claimable(g.jobs)) &&
              (GangEverywhere(config) ==> GangsKept(old(ssn.View()), ssn.View(), g.jobs))
  {
    hide *;
    ghost var s := ssn.View();
    allEvicted, runs := true, [];
    var heaps, queues := UnderRequest(ssn, participating, starving);
    var underRequest := heaps.Keys;
    ghost var g, queues0 := Begin(s, participating, starving), queues;
    NoRuns(config, votes, g, queues0);
    TakesNothing(s, Claimable(g.jobs));
    GangsKeptHere(s, g.jobs);
    assert g == Phase(s, heaps, underRequest);
    while queues != {}
      invariant ssn.Valid() && Sound(ssn.View()) && AllWaiting(ssn.View().jobs, heaps) && allEvicted
      invariant heaps.Keys == underRequest && underRequest <= ssn.Jobs.Keys
      invariant Runs(config, votes, g, queues0, runs) && QueuesLeft(queues0, runs) == queues
      invariant AfterRuns(g, runs) == Phase(ssn.View(), heaps, underRequest) && Takes(s, ssn.View(), Claimable(g.jobs))
      invariant GangEverywhere(config) ==> GangsKept(s, ssn.View(), g.jobs)
      decreases queues
    {
      var queue :| queue in queues;
      queues := queues - {queue};
      ghost var s1 := ssn.View();
      ghost var run;
      heaps, allEvicted, run := PreemptForQueue(ssn, queue, underRequest, heaps, config, reliable, votes(queue));
      if !allEvicted {
        return;
      }
      TakesThen(s, s1, ssn.View(), Claimable(g.jobs), Claimable(g.jobs), Claimable(g.jobs));
      if GangEverywhere(config) {
        GangsKeptThen(s, s1, ssn.View(), g.jobs, g.jobs, g.jobs);
      }
      OneMoreRun(config, votes, g, queues0, runs, run);
      runs := runs + [run];
    }
  }
}
