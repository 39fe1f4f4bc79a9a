/** The reclaim action (pkg/scheduler/actions/reclaim/reclaim.go). */
module ReclaimAction {
  import opened Resources
  import opened Sums
  import opened Tasks
  import opened Jobs
  import opened Sessions
  import opened Statements
  import opened Promises
  import opened Takings
  import opened Gang
  import opened Votes
  import opened VictimSearch
  import opened PreemptAction

  /**
   Where reclaiming stands on node `n`: what has been reclaimed there so far is part of the node's future,
   and the victims in `queue` still run.
   */
  ghost predicate Reclaiming(s0: Snap, s: Snap, task: Task, n: NodeName, reclaimed: Resource, queue: set<Task>) {
    Sound(s) && KeepsWaiting(s0, s, task) && VictimsOn(s, n, queue) &&
    InJob(s, task) && Stored(s, task) == task && task.status.Pending? &&
    n in s.nodes && NonNegative(reclaimed) && Fits(s, n, reclaimed)
  }

  lemma ReclaimStarts(s0: Snap, s: Snap, task: Task, n: NodeName, queue: set<Task>)
    requires Sound(s) && KeepsWaiting(s0, s, task) && VictimsOn(s, n, queue) && n in s.nodes
    requires InJob(s, task) && Stored(s, task) == task && task.status.Pending?
    ensures Reclaiming(s0, s, task, n, EMPTY, queue)
  {
  }

  /** Each eviction adds the same to the node's future as to what is reclaimed. */
  lemma ReclaimEvicts(s0: Snap, s: Snap, task: Task, n: NodeName, reclaimed: Resource, queue: set<Task>, v: Task)
    requires Reclaiming(s0, s, task, n, reclaimed, queue) && v in queue
    ensures CanEvict(s, v) && v.job in s.jobs
    ensures Reclaiming(s0, Evicted(s, v), task, n, Add(reclaimed, v.resreq), queue - {v})
  {
    hide Sound, VictimsOn, KeepsWaiting, Fits, Guarded;
    assert Guarded(s, StepEvict(v)) && v.node == n by { VictimIs(s, n, queue, v); }
    EvictedElsewhere(s0, s, task, v);
    GuardedStep(s, StepEvict(v));
    LinkedIs(s);
    OtherVictims(s, n, queue, v);
    MoreReclaimed(s, n, reclaimed, v);
  }

  lemma VictimIs(s: Snap, n: NodeName, queue: set<Task>, v: Task)
    requires VictimsOn(s, n, queue) && v in queue
    ensures Guarded(s, StepEvict(v)) && v.node == n && v.job in s.jobs
  {
  }

  lemma LinkedIs(s: Snap)
    requires Sound(s)
    ensures Linked(s)
  {
  }

  lemma EvictedElsewhere(s0: Snap, s: Snap, task: Task, v: Task)
    requires Guarded(s, StepEvict(v)) && KeepsWaiting(s0, s, task)
    requires InJob(s, task) && Stored(s, task) == task && task.status.Pending?
    ensures var s' := Evicted(s, v);
            KeepsWaiting(s0, s', task) && InJob(s', task) && Stored(s', task) == task && s'.nodes.Keys == s.nodes.Keys
  {
  }

  lemma MoreReclaimed(s: Snap, n: NodeName, reclaimed: Resource, v: Task)
    requires Sound(s) && Guarded(s, StepEvict(v)) && v.node == n && Fits(s, n, reclaimed) && NonNegative(reclaimed)
    ensures n in Evicted(s, v).nodes && Fits(Evicted(s, v), n, Add(reclaimed, v.resreq)) && NonNegative(Add(reclaimed, v.resreq))
  {
    hide Add, Get, Kept, NodesMatch, Future;
    EvictKeeps(s, v);
    assert Keyed(v.job, v.uid, Stored(s, v));
  }

  lemma ReclaimSkips(s0: Snap, s: Snap, task: Task, n: NodeName, reclaimed: Resource, queue: set<Task>, v: Task)
    requires Reclaiming(s0, s, task, n, reclaimed, queue)
    ensures Reclaiming(s0, s, task, n, reclaimed, queue - {v})
    ensures v in queue ==> CanEvict(s, v)
  {
  }

  /** The guard of reclaim suffices: a request within what was reclaimed is within the node's future. */
  lemma ReclaimedSuffices(s0: Snap, s: Snap, task: Task, n: NodeName, reclaimed: Resource, queue: set<Task>)
    requires Reclaiming(s0, s, task, n, reclaimed, queue) && LessEqual(task.resreq, reclaimed)
    ensures CanPlace(s, task) && !OnNode(s, n, task.uid)
    ensures Sound(Placed(s, task, n, Pipelined)) && KeepsWaiting(s0, Placed(s, task, n, Pipelined), task)
  {
    hide Reclaiming, Fits, Sound, Kept, NodesMatch, JobsKeyed, KeepsWaiting, Placed, InJob, Stored;
    ReclaimFacts(s0, s, task, n, reclaimed, queue);
    ReclaimFits(s0, s, task, n, reclaimed, queue);
    PlaceKeeps(s, task, n, Pipelined);
    PlacedKeepsWaiting(s0, s, task, n);
  }

  lemma ReclaimFits(s0: Snap, s: Snap, task: Task, n: NodeName, reclaimed: Resource, queue: set<Task>)
    requires Reclaiming(s0, s, task, n, reclaimed, queue) && LessEqual(task.resreq, reclaimed)
    ensures n in s.nodes && Fits(s, n, task.resreq) && CanPlace(s, task) && !OnNode(s, n, task.uid) && task.status.Pending?
  {
    hide NodesMatch, Kept, JobsKeyed;
    LessEqualIsPerDimension(task.resreq, reclaimed);
    PendingIsNowhere(s, task);
  }

  lemma PlacedKeepsWaiting(s0: Snap, s: Snap, task: Task, n: NodeName)
    requires KeepsWaiting(s0, s, task) && n in s.nodes && CanPlace(s, task)
    ensures KeepsWaiting(s0, Placed(s, task, n, Pipelined), task)
  {
  }

  lemma ReclaimFacts(s0: Snap, s: Snap, task: Task, n: NodeName, reclaimed: Resource, queue: set<Task>)
    requires Reclaiming(s0, s, task, n, reclaimed, queue)
    ensures Sound(s) && KeepsWaiting(s0, s, task) && InJob(s, task) && Stored(s, task) == task && n in s.nodes
  {
  }

  /** What the evictions of these tasks free. */
  ghost function Freed(ts: seq<Task>, d: Dim): int {
    if ts == [] then 0 else Freed(ts[..|ts| - 1], d) + Get(ts[|ts| - 1].resreq, d)
  }

  /** What is freed covers the request of the task. */
  ghost predicate Covers(ts: seq<Task>, task: Task) {
    forall d :: Get(task.resreq, d) <= Freed(ts, d)
  }

  /** The victims whose eviction the cache accepts, in order. */
  function Accepted(victims: seq<Task>, accepts: TaskId -> bool): seq<Task> {
    if victims == [] then []
    else Accepted(victims[..|victims| - 1], accepts) + if accepts(victims[|victims| - 1].uid) then [victims[|victims| - 1]] else []
  }

  /** The accepted victims are evicted in order, up to the first whose eviction makes what was freed cover the request, or all. */
  ghost predicate ReclaimedAsNeeded(task: Task, accepts: TaskId -> bool, victims: seq<Task>, evicted: seq<Task>) {
    evicted <= Accepted(victims, accepts) && (forall i | 0 < i < |evicted| :: !Covers(evicted[..i], task)) &&
    (evicted == Accepted(victims, accepts) || (evicted != [] && Covers(evicted, task)))
  }

  lemma AcceptedNext(victims: seq<Task>, accepts: TaskId -> bool, i: nat)
    requires i < |victims|
    ensures Accepted(victims[..i + 1], accepts) == Accepted(victims[..i], accepts) + if accepts(victims[i].uid) then [victims[i]] else []
    ensures victims[..|victims|] == victims
  {
    assert victims[..i + 1][..i] == victims[..i];
  }

  lemma {:induction false} AcceptedPrefix(victims: seq<Task>, accepts: TaskId -> bool, i: nat)
    requires i <= |victims|
    ensures Accepted(victims[..i], accepts) <= Accepted(victims, accepts)
    decreases |victims| - i
  {
    if i < |victims| {
      AcceptedNext(victims, accepts, i);
      AcceptedPrefix(victims, accepts, i + 1);
    } else {
      assert victims[..i] == victims;
    }
  }

  lemma {:induction false} AcceptedAmong(victims: seq<Task>, accepts: TaskId -> bool)
    requires Distinct(victims)
    ensures Distinct(Accepted(victims, accepts)) && forall t | t in Accepted(victims, accepts) :: t in victims
  {
    if victims != [] {
      var init, last := victims[..|victims| - 1], victims[|victims| - 1];
      AcceptedAmong(init, accepts);
      var a := Accepted(init, accepts);
      forall i | 0 <= i < |a| ensures a[i] in victims && a[i].uid != last.uid {
        assert a[i] in init;
        var k :| 0 <= k < |init| && init[k] == a[i];
        assert victims[k] == a[i];
      }
      DistinctGrows(a, last);
    }
  }

  lemma FreedNext(ts: seq<Task>, t: Task)
    ensures forall d :: Freed(ts + [t], d) == Freed(ts, d) + Get(t.resreq, d)
  {
    assert (ts + [t])[..|ts|] == ts;
  }

  /** What the loop keeps: which victims are still to come, and what was freed so far. */
  ghost predicate Reclaimed(task: Task, accepts: TaskId -> bool, victims: seq<Task>, i: nat, evicted: seq<Task>, reclaimed: Resource) {
    i <= |victims| && evicted == Accepted(victims[..i], accepts) && (forall d :: Get(reclaimed, d) == Freed(evicted, d)) &&
    forall k | 0 < k < |evicted| :: !Covers(evicted[..k], task)
  }

  lemma ReclaimedAtFirst(task: Task, accepts: TaskId -> bool, victims: seq<Task>)
    ensures Reclaimed(task, accepts, victims, 0, [], EMPTY)
  {
  }

  lemma ReclaimedNext(task: Task, accepts: TaskId -> bool, victims: seq<Task>, i: nat, evicted: seq<Task>, reclaimed: Resource)
    requires Reclaimed(task, accepts, victims, i, evicted, reclaimed) && i < |victims| && (evicted == [] || !Covers(evicted, task))
    ensures accepts(victims[i].uid) ==> Reclaimed(task, accepts, victims, i + 1, evicted + [victims[i]], Add(reclaimed, victims[i].resreq))
    ensures !accepts(victims[i].uid) ==> Reclaimed(task, accepts, victims, i + 1, evicted, reclaimed)
  {
    hide Covers, Get, Accepted, Freed, Add;
    AcceptedNext(victims, accepts, i);
    FreedNext(evicted, victims[i]);
    var more := evicted + [victims[i]];
    forall k | 0 < k < |more| ensures !Covers(more[..k], task) {
      assert more[..k] == evicted[..k];
      assert k == |evicted| ==> evicted[..k] == evicted;
    }
  }

  lemma ReclaimedEnds(task: Task, accepts: TaskId -> bool, victims: seq<Task>, i: nat, evicted: seq<Task>, reclaimed: Resource)
    requires Reclaimed(task, accepts, victims, i, evicted, reclaimed) && NonNegative(reclaimed)
    ensures LessEqual(task.resreq, reclaimed) == Covers(evicted, task)
    ensures i == |victims| || (evicted != [] && Covers(evicted, task)) ==> ReclaimedAsNeeded(task, accepts, victims, evicted)
  {
    hide Accepted, Freed, Get;
    LessEqualIsPerDimension(task.resreq, reclaimed);
    AcceptedPrefix(victims, accepts, i);
    assert victims[..|victims|] == victims;
  }

  /** The victims from position `i` on. */
  function Rest(victims: seq<Task>, i: nat): set<Task>
    requires i <= |victims|
  {
    var rest := victims[i..];
    set t | t in rest
  }

  lemma RestNext(victims: seq<Task>, i: nat)
    requires Distinct(victims) && i < |victims|
    ensures victims[i] in Rest(victims, i) && Rest(victims, i) - {victims[i]} == Rest(victims, i + 1)
  {
    var rest, later := victims[i..], victims[i + 1..];
    assert rest == [victims[i]] + later;
    forall t | t in later ensures t != victims[i] {
      var k :| 0 <= k < |later| && later[k] == t;
      assert victims[i + 1 + k] == t;
    }
  }

  lemma RestAtFirst(victims: seq<Task>)
    ensures Rest(victims, 0) == set t | t in victims
  {
    assert victims[0..] == victims;
  }

  lemma ReclaimingIn(s0: Snap, s: Snap, task: Task, n: NodeName, reclaimed: Resource, queue: set<Task>)
    requires Reclaiming(s0, s, task, n, reclaimed, queue)
    ensures NonNegative(reclaimed) && InJob(s, task) && task.job in s.jobs
  {
  }

  /** Evicts victims on one node until enough is reclaimed, and then pipelines the task there. */
  method ReclaimOn(ssn: Session, task: Task, n: NodeName, victims: seq<Task>, accepts: TaskId -> bool, ghost s0: Snap)
    returns (placed: bool, evicted: seq<Task>)
    requires ssn.Valid() && n in ssn.Nodes && Reclaiming(s0, ssn.View(), task, n, EMPTY, set t | t in victims) && Distinct(victims)
    modifies ssn`Shares, ssn.Jobs.Values, ssn.Nodes.Values
    ensures ssn.Valid() && Sound(ssn.View()) && KeepsWaiting(s0, ssn.View(), task)
    ensures if placed then PipelinedAt(ssn.View(), task, n) else InJob(ssn.View(), task) && Stored(ssn.View(), task) == task
    ensures ReclaimedAsNeeded(task, accepts, victims, evicted) && placed == Covers(evicted, task)
    ensures var s := Evictions(old(ssn.View()), evicted);
            task.job in s.jobs && ssn.View() == if placed then Placed(s, task, n, Pipelined) else s
  {
    hide *;
    ghost var s1 := ssn.View();
    var reclaimed := EMPTY;
    evicted := [];
    var i := 0;
    ReclaimedAtFirst(task, accepts, victims);
    RestAtFirst(victims);
    NoneEvicted(s1);
    while i < |victims|
      invariant 0 <= i <= |victims|
      invariant ssn.Valid() && Reclaiming(s0, ssn.View(), task, n, reclaimed, Rest(victims, i))
      invariant Reclaimed(task, accepts, victims, i, evicted, reclaimed) && (evicted == [] || !Covers(evicted, task))
      invariant ssn.View() == Evictions(s1, evicted)
      decreases |victims| - i
    {
      var v := victims[i];
      ghost var queue := Rest(victims, i);
      RestNext(victims, i);
      ReclaimEvicts(s0, ssn.View(), task, n, reclaimed, queue, v);
      ReclaimSkips(s0, ssn.View(), task, n, reclaimed, queue, v);
      ReclaimedNext(task, accepts, victims, i, evicted, reclaimed);
      EvictionsNext(s1, evicted, v);
      i := i + 1;
      var ok := ssn.Evict(v, accepts(v.uid));
      if !ok {
        continue;
      }
      reclaimed := Add(reclaimed, v.resreq);
      evicted := evicted + [v];
      ReclaimingIn(s0, ssn.View(), task, n, reclaimed, Rest(victims, i));
      ReclaimedEnds(task, accepts, victims, i, evicted, reclaimed);
      if LessEqual(task.resreq, reclaimed) {
        break;
      }
    }
    ghost var queue := Rest(victims, i);
    ReclaimFacts(s0, ssn.View(), task, n, reclaimed, queue);
    ReclaimingIn(s0, ssn.View(), task, n, reclaimed, queue);
    ReclaimedEnds(task, accepts, victims, i, evicted, reclaimed);
    placed := LessEqual(task.resreq, reclaimed);
    if placed {
      ReclaimedSuffices(s0, ssn.View(), task, n, reclaimed, queue);
      JustPlaced(ssn.View(), task, n);
      ssn.Keys();
      var ok := ssn.Pipeline(task, n);
    }
  }

  /** Preemptable running tasks of other queues on node `n`; `reclaimable` are the queues that allow it. */
  method Reclaimees(ssn: Session, task: Task, n: NodeName, reclaimable: set<string>) returns (reclaimees: seq<Task>)
    requires ssn.Valid() && Linked(ssn.View()) && n in ssn.Nodes && task.job in ssn.Jobs
    ensures VictimsOn(ssn.View(), n, set t | t in reclaimees)
    ensures Distinct(reclaimees) && forall i | 0 <= i < |reclaimees| :: reclaimees[i].job in ssn.Jobs
    ensures forall t :: t in reclaimees <==> Claimed(ssn.View(), n, Across(task.job, reclaimable), t)
  {
    hide Session.Valid, Linked, Guarded, Session.View, Distinct, Claimed, Grants;
    reclaimees := [];
    DistinctGrows([], task);
    NodeTasks(ssn, n);
    ghost var c := Across(task.job, reclaimable);
    var todo := ssn.Nodes[n].Tasks.Keys;
    while todo != {}
      invariant todo <= ssn.Nodes[n].Tasks.Keys
      invariant forall t | t in reclaimees :: t.uid in ssn.Nodes[n].Tasks && ssn.Nodes[n].Tasks[t.uid] == t
      invariant forall t | t in reclaimees :: t.node == n && Guarded(ssn.View(), StepEvict(t))
      invariant forall i | 0 <= i < |reclaimees| :: reclaimees[i].job in ssn.Jobs
      invariant Distinct(reclaimees) && forall i | 0 <= i < |reclaimees| :: reclaimees[i].uid !in todo
      invariant forall u | u in ssn.Nodes[n].Tasks && u !in todo ::
                  ssn.Nodes[n].Tasks[u] in reclaimees <==> Claimed(ssn.View(), n, c, ssn.Nodes[n].Tasks[u])
      decreases todo
    {
      var u :| u in todo;
      todo := todo - {u};
      var t := ssn.Nodes[n].Tasks[u];
      CopyUid(ssn, n, u);
      ClaimedAcross(ssn, task, n, reclaimable, t);
      if t.status != Running || !t.preemptable || t.job !in ssn.Jobs {
        continue;
      }
      if ssn.Jobs[t.job].Queue != ssn.Jobs[task.job].Queue && ssn.Jobs[t.job].Queue in reclaimable {
        CopyIsOriginal(ssn, n, u);
        DistinctGrows(reclaimees, t);
        reclaimees := reclaimees + [t];
      }
    }
    ClaimedHeld(ssn, n, c);
  }

  lemma ClaimedAcross(ssn: Session, task: Task, n: NodeName, reclaimable: set<string>, t: Task)
    requires n in ssn.Nodes && task.job in ssn.Jobs && t.uid in ssn.Nodes[n].Tasks && ssn.Nodes[n].Tasks[t.uid] == t
    ensures Claimed(ssn.View(), n, Across(task.job, reclaimable), t) <==>
            t.status == Running && t.preemptable && t.job in ssn.Jobs &&
            ssn.Jobs[t.job].Queue != ssn.Jobs[task.job].Queue && ssn.Jobs[t.job].Queue in reclaimable
  {
  }

  lemma ClaimedHeld(ssn: Session, n: NodeName, c: Claim)
    requires n in ssn.Nodes
    ensures forall t | Claimed(ssn.View(), n, c, t) :: t.uid in ssn.Nodes[n].Tasks && ssn.Nodes[n].Tasks[t.uid] == t
  {
  }

  // ----- the search for one task

  /** What is answered while one task looks for victims: the nodes that suit it, the votes on each, and which evictions the cache accepts. */
  datatype ReclaimVotes = ReclaimVotes(suits: NodeName -> bool, poll: NodeName -> Poll, accepts: TaskId -> bool)

  /** What the plugins were asked on node `n`, and which victims that makes. */
  ghost predicate Voted(config: Config, poll: Poll, task: Task, n: NodeName, reclaimable: set<string>, r: Round) {
    Distinct(r.preemptees) && (forall t :: t in r.preemptees <==> Claimed(r.before, n, Across(task.job, reclaimable), t)) &&
    if r.preemptees == [] then r.victims == []
    else
      (forall j | j in r.before.jobs :: OfJob(r.gangs, j) == FirstN(OfJob(r.preemptees, j), Surplus(r.before.jobs[j]))) &&
      Verdict(AskAll(config, poll, r.preemptees, r.gangs), r.victims) && Distinct(r.victims) && forall t | t in r.victims :: t in r.preemptees
  }

  /**
   One node: exactly the preemptable running tasks of other reclaimable queues are asked about; the victims are
   what the tiers agree on; and if they suffice, as many as needed are evicted.
   */
  ghost predicate SoughtOk(config: Config, v: ReclaimVotes, task: Task, n: NodeName, reclaimable: set<string>, r: Round) {
    n in r.before.nodes &&
    if v.suits(n) then
      Voted(config, v.poll(n), task, n, reclaimable, r) &&
      if Suffices(r.before, task, n, (set t | t in r.victims)) then ReclaimedAsNeeded(task, v.accepts, r.victims, r.evicted) else r.evicted == []
    else r.evicted == []
  }

  /** The task is placed in this round. */
  ghost predicate Gains(v: ReclaimVotes, task: Task, n: NodeName, r: Round) {
    n in r.before.nodes && v.suits(n) && Suffices(r.before, task, n, (set t | t in r.victims)) && Covers(r.evicted, task)
  }

  /** One node, with the vote that it suits the task. */
  method ReclaimAt(ssn: Session, task: Task, n: NodeName, reclaimable: set<string>, config: Config, v: ReclaimVotes, ghost s0: Snap)
    returns (placed: bool, ghost r: Round)
    requires ssn.Valid() && Sound(ssn.View()) && KeepsWaiting(s0, ssn.View(), task) && n in ssn.Nodes
    requires InJob(ssn.View(), task) && Stored(ssn.View(), task) == task && task.status.Pending?
    modifies ssn`Shares, ssn.Jobs.Values, ssn.Nodes.Values
    ensures ssn.Valid() && Sound(ssn.View()) && KeepsWaiting(s0, ssn.View(), task)
    ensures if placed then PipelinedAt(ssn.View(), task, n) else InJob(ssn.View(), task) && Stored(ssn.View(), task) == task
    ensures SoughtOk(config, v, task, n, reclaimable, r) && r.before == old(ssn.View()) && placed == Gains(v, task, n, r)
    ensures task.job in After(r).jobs && ssn.View() == if placed then Placed(After(r), task, n, Pipelined) else After(r)
  {
    hide *;
    ghost var s := ssn.View();
    r := Round(s, [], [], [], []);
    placed := false;
    NoneEvicted(s);
    ssn.Keys();
    InJobs(s, task);
    AfterIs(r);
    if !v.suits(n) {
      Unsuited(config, v, task, n, reclaimable, r);
      return;
    }
    LinkedIs(s);
    var reclaimees := Reclaimees(ssn, task, n, reclaimable);
    r := r.(preemptees := reclaimees);
    AfterIs(r);
    if reclaimees == [] {
      Unasked(config, v, task, n, reclaimable, r);
      return;
    }
    var chosen; ghost var gangs;
    chosen, gangs := ChooseVictims(ssn, reclaimees, config, v.poll(n));
    r := r.(gangs := gangs, victims := chosen);
    AfterIs(r);
    VotedIs(config, v.poll(n), task, n, reclaimable, r);
    FewerVictims(s, n, (set t | t in reclaimees), (set t | t in chosen));
    var evicted;
    placed, evicted := ReclaimIfValid(ssn, task, n, chosen, v.accepts, s0);
    ghost var r' := r.(evicted := evicted);
    AfterIs(r');
    VotedStill(config, v.poll(n), task, n, reclaimable, r, evicted);
    Sought(config, v, task, n, reclaimable, r', placed);
    r := r';
  }

  /** Evicts only if all victims together would make enough room. */
  method ReclaimIfValid(ssn: Session, task: Task, n: NodeName, victims: seq<Task>, accepts: TaskId -> bool, ghost s0: Snap)
    returns (placed: bool, evicted: seq<Task>)
    requires ssn.Valid() && Sound(ssn.View()) && KeepsWaiting(s0, ssn.View(), task) && n in ssn.Nodes && Distinct(victims)
    requires InJob(ssn.View(), task) && Stored(ssn.View(), task) == task && task.status.Pending?
    requires VictimsOn(ssn.View(), n, set t | t in victims) && forall t | t in (set t | t in victims) :: NonNegative(t.resreq)
    modifies ssn`Shares, ssn.Jobs.Values, ssn.Nodes.Values
    ensures ssn.Valid() && Sound(ssn.View()) && KeepsWaiting(s0, ssn.View(), task)
    ensures if placed then PipelinedAt(ssn.View(), task, n) else InJob(ssn.View(), task) && Stored(ssn.View(), task) == task
    ensures n in old(ssn.View()).nodes &&
            if Suffices(old(ssn.View()), task, n, set t | t in victims)
            then ReclaimedAsNeeded(task, accepts, victims, evicted) && placed == Covers(evicted, task)
            else evicted == [] && !placed
    ensures var s := Evictions(old(ssn.View()), evicted);
            task.job in s.jobs && ssn.View() == if placed then Placed(s, task, n, Pipelined) else s
  {
    hide *;
    ghost var s := ssn.View();
    KeptIs(s);
    InJobs(s, task);
    NoneEvicted(s);
    placed, evicted := false, [];
    var valid := ValidateVictims(ssn, task, n, set t | t in victims);
    if valid {
      ReclaimStarts(s0, s, task, n, set t | t in victims);
      placed, evicted := ReclaimOn(ssn, task, n, victims, accepts, s0);
    }
  }

  lemma AfterIs(r: Round)
    ensures After(r) == Evictions(r.before, r.evicted)
  {
  }

  lemma KeptIs(s: Snap)
    requires Sound(s)
    ensures Kept(s)
  {
  }

  lemma Unsuited(config: Config, v: ReclaimVotes, task: Task, n: NodeName, reclaimable: set<string>, r: Round)
    requires n in r.before.nodes && !v.suits(n) && r.evicted == []
    ensures SoughtOk(config, v, task, n, reclaimable, r) && !Gains(v, task, n, r)
  {
  }

  lemma Unasked(config: Config, v: ReclaimVotes, task: Task, n: NodeName, reclaimable: set<string>, r: Round)
    requires n in r.before.nodes && v.suits(n) && r.evicted == [] && r.preemptees == [] && r.victims == [] && Distinct(r.preemptees)
    requires forall t :: t in r.preemptees <==> Claimed(r.before, n, Across(task.job, reclaimable), t)
    ensures SoughtOk(config, v, task, n, reclaimable, r) && !Gains(v, task, n, r)
  {
    hide Claimed, ReclaimedAsNeeded, Covers, Distinct;
  }

  lemma VotedIs(config: Config, poll: Poll, task: Task, n: NodeName, reclaimable: set<string>, r: Round)
    requires Distinct(r.preemptees) && r.preemptees != []
    requires forall t :: t in r.preemptees <==> Claimed(r.before, n, Across(task.job, reclaimable), t)
    requires forall j | j in r.before.jobs :: OfJob(r.gangs, j) == FirstN(OfJob(r.preemptees, j), Surplus(r.before.jobs[j]))
    requires Verdict(AskAll(config, poll, r.preemptees, r.gangs), r.victims) && Distinct(r.victims) && forall t | t in r.victims :: t in r.preemptees
    ensures Voted(config, poll, task, n, reclaimable, r)
  {
    hide Claimed, Verdict, Distinct, OfJob, FirstN, Surplus;
  }

  lemma VotedStill(config: Config, poll: Poll, task: Task, n: NodeName, reclaimable: set<string>, r: Round, evicted: seq<Task>)
    requires Voted(config, poll, task, n, reclaimable, r)
    ensures Voted(config, poll, task, n, reclaimable, r.(evicted := evicted))
  {
    hide Claimed, Verdict, Distinct, OfJob, FirstN, Surplus;
  }

  lemma Sought(config: Config, v: ReclaimVotes, task: Task, n: NodeName, reclaimable: set<string>, r: Round, placed: bool)
    requires n in r.before.nodes && v.suits(n) && Voted(config, v.poll(n), task, n, reclaimable, r)
    requires if Suffices(r.before, task, n, (set t | t in r.victims))
             then ReclaimedAsNeeded(task, v.accepts, r.victims, r.evicted) && placed == Covers(r.evicted, task)
             else r.evicted == [] && !placed
    ensures SoughtOk(config, v, task, n, reclaimable, r) && placed == Gains(v, task, n, r)
  {
    hide Voted, Suffices, ReclaimedAsNeeded, Covers;
  }

  /** The search on some nodes, one after the other, none of them twice, all without gain but perhaps the last. */
  ghost predicate Searches(config: Config, v: ReclaimVotes, task: Task, reclaimable: set<string>, s: Snap, nodes: seq<NodeName>, rounds: seq<Round>) {
    |rounds| == |nodes| &&
    (rounds == [] ||
     var k := |rounds| - 1;
     Searches(config, v, task, reclaimable, s, nodes[..k], rounds[..k]) && nodes[k] !in nodes[..k] &&
     (k > 0 ==> !Gains(v, task, nodes[k - 1], rounds[k - 1])) &&
     rounds[k].before == End(s, rounds[..k]) && SoughtOk(config, v, task, nodes[k], reclaimable, rounds[k]))
  }

  /** A task's search for victims: the nodes in the order they were tried, what happened on each, and the states before and after. */
  datatype Search = Search(task: Task, nodes: seq<NodeName>, rounds: seq<Round>, placed: bool, before: Snap, after: Snap)

  /** So far: the task is placed on the last node exactly if that was a gain. */
  ghost predicate Seeking(config: Config, v: ReclaimVotes, reclaimable: set<string>, a: Search) {
    var end, last := End(a.before, a.rounds), |a.nodes| - 1;
    a.task.job in end.jobs && Searches(config, v, a.task, reclaimable, a.before, a.nodes, a.rounds) && |a.rounds| == |a.nodes| &&
    if a.placed then last >= 0 && Gains(v, a.task, a.nodes[last], a.rounds[last]) && a.after == Placed(end, a.task, a.nodes[last], Pipelined)
    else (last >= 0 ==> !Gains(v, a.task, a.nodes[last], a.rounds[last])) && a.after == end
  }

  lemma NoneSought(config: Config, v: ReclaimVotes, reclaimable: set<string>, task: Task, s: Snap)
    requires task.job in s.jobs
    ensures Seeking(config, v, reclaimable, Search(task, [], [], false, s, s))
  {
  }

  lemma SoughtNext(config: Config, v: ReclaimVotes, reclaimable: set<string>, a: Search, n: NodeName, r: Round, placed: bool, s: Snap)
    requires Seeking(config, v, reclaimable, a) && !a.placed && n !in a.nodes && r.before == a.after && a.task.job in After(r).jobs
    requires SoughtOk(config, v, a.task, n, reclaimable, r) && placed == Gains(v, a.task, n, r)
    requires s == if placed then Placed(After(r), a.task, n, Pipelined) else After(r)
    ensures Seeking(config, v, reclaimable, Search(a.task, a.nodes + [n], a.rounds + [r], placed, a.before, s))
  {
    hide SoughtOk, Gains, After, Placed;
    assert (a.rounds + [r])[..|a.rounds|] == a.rounds && (a.nodes + [n])[..|a.nodes|] == a.nodes;
  }

  /** The whole search: it ends with the task placed, or after every node. */
  ghost predicate SearchOk(config: Config, v: ReclaimVotes, reclaimable: set<string>, a: Search) {
    InJob(a.before, a.task) && Stored(a.before, a.task) == a.task && a.task.status.Pending? && Seeking(config, v, reclaimable, a) &&
    (!a.placed ==> forall n | n in a.before.nodes :: n in a.nodes)
  }

  /** The nodes tried so far are those that are not still to come. */
  ghost predicate Tried(all: set<NodeName>, todo: set<NodeName>, nodes: seq<NodeName>) {
    forall n :: n in nodes <==> n in all && n !in todo
  }

  lemma TriedNone(all: set<NodeName>)
    ensures Tried(all, all, [])
  {
  }

  lemma TriedNext(all: set<NodeName>, todo: set<NodeName>, nodes: seq<NodeName>, n: NodeName)
    requires Tried(all, todo, nodes) && n in all && n in todo
    ensures n !in nodes && Tried(all, todo - {n}, nodes + [n])
  {
  }

  lemma TriedAll(all: set<NodeName>, nodes: seq<NodeName>)
    ensures Tried(all, {}, nodes) ==> forall n | n in all :: n in nodes
  {
  }

  lemma SearchIs(config: Config, v: ReclaimVotes, reclaimable: set<string>, a: Search)
    requires InJob(a.before, a.task) && Stored(a.before, a.task) == a.task && a.task.status.Pending? && Seeking(config, v, reclaimable, a)
    requires !a.placed ==> forall n | n in a.before.nodes :: n in a.nodes
    ensures SearchOk(config, v, reclaimable, a)
  {
  }

  /** Tries every node, in any order, until the task has a place. */
  method ReclaimFor(ssn: Session, task: Task, reclaimable: set<string>, config: Config, v: ReclaimVotes) returns (placed: bool, ghost a: Search)
    requires ssn.Valid() && Sound(ssn.View()) && InJob(ssn.View(), task) && Stored(ssn.View(), task) == task && task.status.Pending?
    modifies ssn`Shares, ssn.Jobs.Values, ssn.Nodes.Values
    ensures ssn.Valid() && Sound(ssn.View()) && KeepsWaiting(old(ssn.View()), ssn.View(), task)
    ensures placed ==> a.nodes != [] && PipelinedAt(ssn.View(), task, a.nodes[|a.nodes| - 1])
    ensures SearchOk(config, v, reclaimable, a) && a.task == task && a.placed == placed && a.before == old(ssn.View()) && a.after == ssn.View()
    ensures Takes(old(ssn.View()), ssn.View(), {Across(task.job, reclaimable)})
  {
    hide *;
    ghost var s := ssn.View();
    ghost var nodes, rounds := [], [];
    WaitingAtFirst(s, task);
    ssn.Keys();
    InJobs(s, task);
    NoneSought(config, v, reclaimable, task, s);
    TriedNone(ssn.Nodes.Keys);
    placed := false;
    var todo := ssn.Nodes.Keys;
    while todo != {} && !placed
      invariant todo <= ssn.Nodes.Keys && Tried(ssn.Nodes.Keys, todo, nodes)
      invariant ssn.Valid() && Sound(ssn.View()) && KeepsWaiting(s, ssn.View(), task)
      invariant Seeking(config, v, reclaimable, Search(task, nodes, rounds, placed, s, ssn.View()))
      invariant if placed then nodes != [] && PipelinedAt(ssn.View(), task, nodes[|nodes| - 1])
                else InJob(ssn.View(), task) && Stored(ssn.View(), task) == task
      decreases todo
    {
      var n :| n in todo;
      TriedNext(ssn.Nodes.Keys, todo, nodes, n);
      todo := todo - {n};
      ghost var r;
      placed, r := ReclaimAt(ssn, task, n, reclaimable, config, v, s);
      SoughtNext(config, v, reclaimable, Search(task, nodes, rounds, false, s, r.before), n, r, placed, ssn.View());
      nodes, rounds := nodes + [n], rounds + [r];
    }
    a := Search(task, nodes, rounds, placed, s, ssn.View());
    TriedAll(s.nodes.Keys, nodes);
    SearchIs(config, v, reclaimable, a);
    SearchTakes(config, v, reclaimable, a);
  }

  lemma PrefixAmong(some: seq<Task>, all: seq<Task>)
    requires some <= all
    ensures (forall t | t in some :: t in all) && (Distinct(all) ==> forall i, k | 0 <= i < k < |some| :: some[i] != some[k])
  {
    assert forall i | 0 <= i < |some| :: some[i] == all[i];
  }

  lemma SoughtTakes(config: Config, v: ReclaimVotes, task: Task, n: NodeName, reclaimable: set<string>, r: Round)
    requires Sound(r.before) && SoughtOk(config, v, task, n, reclaimable, r)
    ensures Sound(After(r)) && Takes(r.before, After(r), {Across(task.job, reclaimable)})
  {
    hide Sound, Takes, Suffices, Verdict, OfJob, FirstN, Surplus, Evictions, Grants, Distinct, Claimed, Accepted, Covers;
    if r.evicted != [] {
      PrefixAmong(r.evicted, Accepted(r.victims, v.accepts));
      AcceptedAmong(r.victims, v.accepts);
    }
    EvictionsTake(r.before, n, Across(task.job, reclaimable), r.evicted, {});
  }

  lemma {:induction false} SearchesTake(config: Config, v: ReclaimVotes, task: Task, reclaimable: set<string>, s: Snap, nodes: seq<NodeName>,
                                        rounds: seq<Round>)
    requires Sound(s) && Searches(config, v, task, reclaimable, s, nodes, rounds)
    ensures Sound(End(s, rounds)) && Takes(s, End(s, rounds), {Across(task.job, reclaimable)})
    decreases |rounds|
  {
    hide Sound, Takes, SoughtOk, Gains, After;
    var c := Across(task.job, reclaimable);
    if rounds == [] {
      TakesNothing(s, {c});
    } else {
      var k := |rounds| - 1;
      SearchesTake(config, v, task, reclaimable, s, nodes[..k], rounds[..k]);
      SoughtTakes(config, v, task, nodes[k], reclaimable, rounds[k]);
      TakesThen(s, rounds[k].before, After(rounds[k]), {c}, {c}, {c});
    }
  }

  /** Only preemptable running tasks of other reclaimable queues are taken. */
  lemma SearchTakes(config: Config, v: ReclaimVotes, reclaimable: set<string>, a: Search)
    requires Sound(a.before) && SearchOk(config, v, reclaimable, a)
    ensures Takes(a.before, a.after, {Across(a.task.job, reclaimable)})
  {
    hide Sound, Takes, Searches, End, Gains;
    SearchesTake(config, v, a.task, reclaimable, a.before, a.nodes, a.rounds);
    if a.placed {
      TakesPlace(a.before, End(a.before, a.rounds), a.task, a.nodes[|a.nodes| - 1], {Across(a.task.job, reclaimable)});
    }
  }

  lemma WaitingAtFirst(s: Snap, task: Task)
    ensures KeepsWaiting(s, s, task)
  {
  }

  lemma InJobs(s: Snap, task: Task)
    requires InJob(s, task)
    ensures task.job in s.jobs
  {
  }

  lemma FewerVictims(s: Snap, n: NodeName, all: set<Task>, victims: set<Task>)
    requires Linked(s) && VictimsOn(s, n, all) && victims <= all
    ensures VictimsOn(s, n, victims) && forall v | v in victims :: NonNegative(v.resreq)
  {
  }

  // ----- the whole action, as a log

  /**
   What everybody else answers: whether a queue is overused when the k-th queue is popped; and about a task,
   which is popped at most once.
   */
  datatype Plugins = Plugins(
    overused: (nat, string) -> bool, allocatable: TaskId -> bool, prePredicate: TaskId -> bool, votes: TaskId -> ReclaimVotes)

  /** Where the action stands: the session, the heaps, the jobs and queues that will still be popped. */
  datatype Progress = Progress(state: Snap, heaps: map<JobId, set<TaskId>>, jobs: set<JobId>, queues: set<string>, queueOf: map<JobId, string>)

  /** What comes of popping a queue. */
  datatype Entry =
    | Overused(queue: string)
    | NoJob(queue: string)
    | NoTask(queue: string, job: JobId)
    | Refused(queue: string, job: JobId, task: TaskId)
    | Searched(queue: string, job: JobId, task: TaskId, search: Search)

  /** At first every participating job with pending tasks waits, with all of them. */
  ghost function Begin(s: Snap, participating: set<JobId>): Progress {
    var jobs := set j | j in s.jobs && j in participating && PendingSet(s.jobs[j]) != {};
    Progress(s, map j | j in jobs :: PendingSet(s.jobs[j]), jobs, QueuesOf(s, participating), map j | j in jobs :: s.jobs[j].queue)
  }

  ghost predicate Queued(g: Progress, q: string, j: JobId) {
    j in g.jobs && j in g.queueOf && g.queueOf[j] == q && j in g.heaps
  }

  /** What the k-th pop of a queue may come to. */
  ghost predicate Happens(config: Config, p: Plugins, reclaimable: set<string>, k: nat, g: Progress, e: Entry) {
    e.queue in g.queues && (e.Overused? <==> p.overused(k, e.queue)) &&
    match e
    case Overused(_) => true
    case NoJob(q) => forall j | j in g.jobs :: !Queued(g, q, j)
    case NoTask(q, j) => Queued(g, q, j) && g.heaps[j] == {}
    case Refused(q, j, u) => Queued(g, q, j) && u in g.heaps[j] && !(p.allocatable(u) && p.prePredicate(u))
    case Searched(q, j, u, a) =>
      Queued(g, q, j) && u in g.heaps[j] && p.allocatable(u) && p.prePredicate(u) &&
      a.task.uid == u && a.task.job == j && a.before == g.state && SearchOk(config, p.votes(u), reclaimable, a)
  }

  /** A queue is pushed back only after a search, and a job only after one that succeeded. */
  ghost function Next(g: Progress, e: Entry): Progress {
    match e
    case Overused(q) => g.(queues := g.queues - {q})
    case NoJob(q) => g.(queues := g.queues - {q})
    case NoTask(q, j) => g.(queues := g.queues - {q}, jobs := g.jobs - {j})
    case Refused(q, j, u) => g.(queues := g.queues - {q}, jobs := g.jobs - {j}, heaps := Less(g.heaps, j, u))
    case Searched(_, j, u, a) => g.(state := a.after, jobs := if a.placed then g.jobs else g.jobs - {j}, heaps := Less(g.heaps, j, u))
  }

  function Less(heaps: map<JobId, set<TaskId>>, j: JobId, u: TaskId): map<JobId, set<TaskId>> {
    if j in heaps then heaps[j := heaps[j] - {u}] else heaps
  }

  ghost function At(g: Progress, log: seq<Entry>): Progress {
    if log == [] then g else Next(At(g, log[..|log| - 1]), log[|log| - 1])
  }

  /** The log of a run from `g`. */
  ghost predicate Log(config: Config, p: Plugins, reclaimable: set<string>, g: Progress, log: seq<Entry>) {
    log == [] ||
    var before := log[..|log| - 1];
    Log(config, p, reclaimable, g, before) && Happens(config, p, reclaimable, |before|, At(g, before), log[|log| - 1])
  }

  lemma OneMoreEntry(config: Config, p: Plugins, reclaimable: set<string>, g: Progress, log: seq<Entry>, e: Entry)
    requires Log(config, p, reclaimable, g, log) && Happens(config, p, reclaimable, |log|, At(g, log), e)
    ensures Log(config, p, reclaimable, g, log + [e]) && At(g, log + [e]) == Next(At(g, log), e)
  {
    hide Happens, Next;
    assert (log + [e])[..|log|] == log;
  }

  /** The queue was dropped although jobs of it may have been left: overused, or with its popped job. */
  ghost predicate Dropped(log: seq<Entry>, q: string) {
    exists e :: e in log && e.queue == q && (e.Overused? || e.NoTask? || e.Refused?)
  }

  /** A search for a task of the job was in vain. */
  ghost predicate InVain(log: seq<Entry>, j: JobId) {
    exists e :: e in log && e.Searched? && e.job == j && !e.search.placed
  }

  /** No job is forgotten: it waits in a queue that waits, one of its tasks was searched for in vain, or its queue was dropped. */
  ghost predicate Accounted(g: Progress, log: seq<Entry>, q: string, j: JobId) {
    (Queued(g, q, j) && q in g.queues) || InVain(log, j) || Dropped(log, q)
  }

  lemma AccountedNext(config: Config, p: Plugins, reclaimable: set<string>, k: nat, g: Progress, log: seq<Entry>, e: Entry, q: string, j: JobId)
    requires Accounted(g, log, q, j) && Happens(config, p, reclaimable, k, g, e)
    ensures Accounted(Next(g, e), log + [e], q, j)
  {
    hide SearchOk;
    var more := log + [e];
    assert (forall i | i in log :: i in more) && e in more;
    if Queued(g, q, j) && q in g.queues {
      if e.queue == q && (e.Overused? || e.NoTask? || e.Refused?) {
        assert Dropped(more, q);
      } else if e.Searched? && e.job == j && !e.search.placed {
        assert InVain(more, j);
      }
    } else if InVain(log, j) {
      var i :| i in log && i.Searched? && i.job == j && !i.search.placed;
      assert i in more;
    } else {
      var i :| i in log && i.queue == q && (i.Overused? || i.NoTask? || i.Refused?);
      assert i in more;
    }
  }

  lemma {:induction false} JobsAccounted(config: Config, p: Plugins, reclaimable: set<string>, g: Progress, log: seq<Entry>, q: string, j: JobId)
    requires Log(config, p, reclaimable, g, log) && Queued(g, q, j) && q in g.queues
    ensures Accounted(At(g, log), log, q, j)
    decreases |log|
  {
    hide Happens, Accounted;
    if log != [] {
      var before, e := log[..|log| - 1], log[|log| - 1];
      assert before + [e] == log;
      JobsAccounted(config, p, reclaimable, g, before, q, j);
      AccountedNext(config, p, reclaimable, |before|, At(g, before), before, e, q, j);
    } else {
      AccountedFirst(g, q, j);
    }
  }

  lemma AccountedFirst(g: Progress, q: string, j: JobId)
    requires Queued(g, q, j) && q in g.queues
    ensures Accounted(g, [], q, j)
  {
  }

  /** The searches take, for the jobs that search, preemptable running tasks of other reclaimable queues. */
  function Acrosses(jobs: set<JobId>, reclaimable: set<string>): set<Claim> {
    set j | j in jobs :: Across(j, reclaimable)
  }

  lemma AcrossThese(jobs: set<JobId>, j: JobId, reclaimable: set<string>)
    requires j in jobs
    ensures {Across(j, reclaimable)} <= Acrosses(jobs, reclaimable)
  {
  }

  /** The variables of the action stand as the log says. */
  ghost predicate Standing(config: Config, p: Plugins, reclaimable: set<string>, g0: Progress, log: seq<Entry>, s: Snap,
                           queues: set<string>, jobsMap: map<string, set<JobId>>, heaps: map<JobId, set<TaskId>>)
  {
    var g := At(g0, log);
    Log(config, p, reclaimable, g0, log) && g.state == s && g.queues == queues && g.heaps == heaps && g.heaps.Keys == g0.jobs &&
    JobsFiled(g, jobsMap)
  }

  ghost predicate JobsFiled(g: Progress, jobsMap: map<string, set<JobId>>) {
    forall q, j :: (q in jobsMap && j in jobsMap[q]) <==> Queued(g, q, j)
  }

  /** The queue's heap of jobs without the popped one, which may come back. */
  function WithoutJob(jobsMap: map<string, set<JobId>>, q: string, j: JobId): map<string, set<JobId>> {
    if q in jobsMap then jobsMap[q := jobsMap[q] - {j}] else jobsMap
  }

  lemma Refiled(g: Progress, e: Entry, jobsMap: map<string, set<JobId>>)
    requires JobsFiled(g, jobsMap) && (e.Overused? || e.NoJob? || Queued(g, e.queue, e.job))
    ensures JobsFiled(Next(g, e), if e.Overused? || e.NoJob? || (e.Searched? && e.search.placed) then jobsMap else WithoutJob(jobsMap, e.queue, e.job))
  {
    var g' := Next(g, e);
    var rest := if e.Overused? || e.NoJob? || (e.Searched? && e.search.placed) then jobsMap else WithoutJob(jobsMap, e.queue, e.job);
    forall q, j ensures (q in rest && j in rest[q]) <==> Queued(g', q, j) {
      assert (q in jobsMap && j in jobsMap[q]) <==> Queued(g, q, j);
    }
  }

  lemma IsQueued(g: Progress, jobsMap: map<string, set<JobId>>, q: string)
    requires JobsFiled(g, jobsMap)
    ensures q in jobsMap ==> forall j | j in jobsMap[q] :: Queued(g, q, j) && j in g.heaps
    ensures q !in jobsMap || jobsMap[q] == {} ==> forall j | j in g.jobs :: !Queued(g, q, j)
  {
  }

  /** An overused queue, or one without jobs, is dropped. */
  lemma QueueDropped(config: Config, p: Plugins, reclaimable: set<string>, g0: Progress, log: seq<Entry>, s: Snap,
                     queues: set<string>, jobsMap: map<string, set<JobId>>, heaps: map<JobId, set<TaskId>>, q: string)
    requires Standing(config, p, reclaimable, g0, log, s, queues, jobsMap, heaps) && q in queues
    requires p.overused(|log|, q) || q !in jobsMap || jobsMap[q] == {}
    ensures var e := if p.overused(|log|, q) then Overused(q) else NoJob(q);
            Standing(config, p, reclaimable, g0, log + [e], s, queues - {q}, jobsMap, heaps)
  {
    hide Log, At, JobsFiled;
    var e := if p.overused(|log|, q) then Overused(q) else NoJob(q);
    IsQueued(At(g0, log), jobsMap, q);
    OneMoreEntry(config, p, reclaimable, g0, log, e);
    Refiled(At(g0, log), e, jobsMap);
  }

  /** A job without tasks left, and one whose popped task is refused, are dropped with their queue. */
  lemma JobDropped(config: Config, p: Plugins, reclaimable: set<string>, g0: Progress, log: seq<Entry>, s: Snap,
                   queues: set<string>, jobsMap: map<string, set<JobId>>, heaps: map<JobId, set<TaskId>>, e: Entry)
    requires Standing(config, p, reclaimable, g0, log, s, queues, jobsMap, heaps) && e.queue in queues && !p.overused(|log|, e.queue)
    requires (e.NoTask? || e.Refused?) && e.queue in jobsMap && e.job in jobsMap[e.queue] && e.job in heaps
    requires if e.NoTask? then heaps[e.job] == {} else e.task in heaps[e.job] && !(p.allocatable(e.task) && p.prePredicate(e.task))
    ensures Standing(config, p, reclaimable, g0, log + [e], s, queues - {e.queue}, WithoutJob(jobsMap, e.queue, e.job),
                     if e.NoTask? then heaps else Less(heaps, e.job, e.task))
  {
    hide Log, At, JobsFiled;
    IsQueued(At(g0, log), jobsMap, e.queue);
    OneMoreEntry(config, p, reclaimable, g0, log, e);
    Refiled(At(g0, log), e, jobsMap);
  }

  /** A search is logged. */
  lemma SearchLogged(config: Config, p: Plugins, reclaimable: set<string>, g0: Progress, log: seq<Entry>, s: Snap,
                     queues: set<string>, jobsMap: map<string, set<JobId>>, heaps: map<JobId, set<TaskId>>, e: Entry)
    requires Standing(config, p, reclaimable, g0, log, s, queues, jobsMap, heaps) && e.queue in queues && !p.overused(|log|, e.queue)
    requires e.Searched? && e.queue in jobsMap && e.job in jobsMap[e.queue] && e.job in heaps && e.task in heaps[e.job]
    requires p.allocatable(e.task) && p.prePredicate(e.task) && e.search.task.uid == e.task && e.search.task.job == e.job && e.search.before == s
    requires SearchOk(config, p.votes(e.task), reclaimable, e.search)
    ensures Standing(config, p, reclaimable, g0, log + [e], e.search.after, queues,
                     if e.search.placed then jobsMap else WithoutJob(jobsMap, e.queue, e.job), Less(heaps, e.job, e.task))
  {
    hide Log, At, JobsFiled, SearchOk;
    IsQueued(At(g0, log), jobsMap, e.queue);
    OneMoreEntry(config, p, reclaimable, g0, log, e);
    Refiled(At(g0, log), e, jobsMap);
  }

  lemma HeapKnown(config: Config, p: Plugins, reclaimable: set<string>, g0: Progress, log: seq<Entry>, s: Snap,
                  queues: set<string>, jobsMap: map<string, set<JobId>>, heaps: map<JobId, set<TaskId>>, q: string)
    requires Standing(config, p, reclaimable, g0, log, s, queues, jobsMap, heaps)
    ensures q in jobsMap ==> forall j | j in jobsMap[q] :: j in heaps && j in g0.jobs
  {
    hide Log, At, JobsFiled;
    IsQueued(At(g0, log), jobsMap, q);
  }

  lemma LessToPop(heaps: map<JobId, set<TaskId>>, j: JobId, u: TaskId)
    requires j in heaps && u in heaps[j]
    ensures AllHeaps(Less(heaps, j, u)) < AllHeaps(heaps)
  {
    assert (j, u) in AllHeaps(heaps) && (j, u) !in AllHeaps(Less(heaps, j, u));
  }

  /** The participating jobs' queues, and by queue the jobs with pending tasks. */
  method QueueJobs(ssn: Session, participating: set<JobId>) returns (jobsMap: map<string, set<JobId>>, heaps: map<JobId, set<TaskId>>, queues: set<string>)
    requires ssn.Valid()
    ensures var g := Begin(ssn.View(), participating); JobsFiled(g, jobsMap) && g.heaps == heaps && g.queues == queues && heaps.Keys == g.jobs
    ensures AllWaiting(ssn.View().jobs, heaps)
  {
    hide *;
    jobsMap, heaps, queues := map[], map[], {};
    var todo := ssn.Jobs.Keys;
    ssn.Keys();
    ghost var s := ssn.View();
    NoHeaps(s.jobs);
    FiledNone(s);
    assert heaps.Keys == {};
    while todo != {}
      invariant todo <= ssn.Jobs.Keys && heaps.Keys <= ssn.Jobs.Keys
      invariant AllWaiting(s.jobs, heaps)
      invariant forall j :: j in heaps <==> j in s.jobs && j !in todo && j in participating && PendingSet(s.jobs[j]) != {}
      invariant forall j | j in heaps :: heaps[j] == PendingSet(s.jobs[j])
      invariant FiledByQueue(s, heaps.Keys, jobsMap)
      invariant forall j | j in s.jobs && j !in todo && j in participating :: s.jobs[j].queue in queues
      invariant queues <= QueuesOf(s, participating)
      decreases todo
    {
      var j :| j in todo;
      todo := todo - {j};
      if j in participating {
        ssn.QueueIs(j);
        QueueIn(s, participating, j);
        var q := ssn.Jobs[j].Queue;
        queues := queues + {q};
        var tasks := PendingOf(ssn, j);
        if tasks != {} {
          MoreHeaps(s.jobs, heaps, j, tasks);
          FiledNext(s, heaps.Keys, jobsMap, j);
          assert heaps[j := tasks].Keys == heaps.Keys + {j};
          heaps := heaps[j := tasks];
          jobsMap := jobsMap[q := (if q in jobsMap then jobsMap[q] else {}) + {j}];
        }
      }
    }
    BeginIs(s, participating, heaps, queues, jobsMap);
  }

  /** These jobs are filed, each under its queue. */
  ghost predicate FiledByQueue(s: Snap, jobs: set<JobId>, jobsMap: map<string, set<JobId>>) {
    forall q, j :: (q in jobsMap && j in jobsMap[q]) <==> (j in jobs && j in s.jobs && s.jobs[j].queue == q)
  }

  lemma FiledNone(s: Snap)
    ensures FiledByQueue(s, {}, map[])
  {
  }

  lemma FiledNext(s: Snap, jobs: set<JobId>, jobsMap: map<string, set<JobId>>, j: JobId)
    requires FiledByQueue(s, jobs, jobsMap) && j in s.jobs && j !in jobs
    ensures var q := s.jobs[j].queue; FiledByQueue(s, jobs + {j}, jobsMap[q := (if q in jobsMap then jobsMap[q] else {}) + {j}])
  {
    var q := s.jobs[j].queue;
    var more := jobsMap[q := (if q in jobsMap then jobsMap[q] else {}) + {j}];
    forall p, i ensures (p in more && i in more[p]) <==> (i in jobs + {j} && i in s.jobs && s.jobs[i].queue == p) {
      assert (p in jobsMap && i in jobsMap[p]) <==> (i in jobs && i in s.jobs && s.jobs[i].queue == p);
    }
  }

  lemma BeginIs(s: Snap, participating: set<JobId>, heaps: map<JobId, set<TaskId>>, queues: set<string>, jobsMap: map<string, set<JobId>>)
    requires forall j :: j in heaps <==> j in s.jobs && j in participating && PendingSet(s.jobs[j]) != {}
    requires forall j | j in heaps :: heaps[j] == PendingSet(s.jobs[j])
    requires FiledByQueue(s, heaps.Keys, jobsMap)
    requires (forall j | j in s.jobs && j in participating :: s.jobs[j].queue in queues) && queues <= QueuesOf(s, participating)
    ensures var g := Begin(s, participating); JobsFiled(g, jobsMap) && g.heaps == heaps && g.queues == queues && heaps.Keys == g.jobs
  {
    hide PendingSet;
    assert Begin(s, participating).heaps == heaps;
  }

  lemma StandsFirst(config: Config, p: Plugins, reclaimable: set<string>, s: Snap, participating: set<JobId>,
                    queues: set<string>, jobsMap: map<string, set<JobId>>, heaps: map<JobId, set<TaskId>>)
    requires var g := Begin(s, participating); JobsFiled(g, jobsMap) && g.heaps == heaps && g.queues == queues && heaps.Keys == g.jobs
    ensures Standing(config, p, reclaimable, Begin(s, participating), [], s, queues, jobsMap, heaps)
    ensures var g := Begin(s, participating); forall j | j in g.jobs :: j in g.queueOf && Queued(g, g.queueOf[j], j) && g.queueOf[j] in g.queues
  {
    hide PendingSet, JobsFiled;
    var g := Begin(s, participating);
    forall j | j in g.jobs ensures j in g.queueOf && Queued(g, g.queueOf[j], j) && g.queueOf[j] in g.queues {
      QueueIn(s, participating, j);
    }
  }

  lemma StandsLast(config: Config, p: Plugins, reclaimable: set<string>, g0: Progress, log: seq<Entry>, s: Snap,
                   jobsMap: map<string, set<JobId>>, heaps: map<JobId, set<TaskId>>)
    requires Standing(config, p, reclaimable, g0, log, s, {}, jobsMap, heaps)
    requires forall j | j in g0.jobs :: j in g0.queueOf && Queued(g0, g0.queueOf[j], j) && g0.queueOf[j] in g0.queues
    ensures Log(config, p, reclaimable, g0, log) && At(g0, log).queues == {} && At(g0, log).state == s
    ensures forall j | j in g0.jobs :: j in g0.queueOf && (InVain(log, j) || Dropped(log, g0.queueOf[j]))
  {
    hide Log, At, JobsFiled, InVain, Dropped;
    forall j | j in g0.jobs ensures InVain(log, j) || Dropped(log, g0.queueOf[j]) {
      JobsAccounted(config, p, reclaimable, g0, log, g0.queueOf[j], j);
    }
  }

  /**
   The whole action: it ends, keeps every ledger right and every promise kept.  What it did is a log of pops of
   queues, each as `Happens` says, from the state at the beginning to that at the end, when no queue is left. Of
   every job with pending tasks one was searched for in vain, unless its queue was dropped before; and nobody
   loses a running task but to a job of another queue, from a reclaimable queue, and if it is preemptable.
   */
  method Execute(ssn: Session, reclaimable: set<string>, participating: set<JobId>, config: Config, p: Plugins) returns (ghost log: seq<Entry>)
    requires ssn.Valid() && Sound(ssn.View())
    modifies ssn`Shares, ssn.Jobs.Values, ssn.Nodes.Values
    ensures ssn.Valid() && Sound(ssn.View())
    ensures var g := Begin(old(ssn.View()), participating);
            Log(config, p, reclaimable, g, log) && At(g, log).queues == {} && At(g, log).state == ssn.View() &&
            (forall j | j in g.jobs :: j in g.queueOf && (InVain(log, j) || Dropped(log, g.queueOf[j]))) &&
            Takes(old(ssn.View()), ssn.View(), Acrosses(g.jobs, reclaimable))
  {
    hide *;
    ghost var s := ssn.View();
    ghost var g0 := Begin(s, participating);
    ghost var claims := Acrosses(g0.jobs, reclaimable);
    var jobsMap, heaps, queues := QueueJobs(ssn, participating);
    log := [];
    var k := 0;
    StandsFirst(config, p, reclaimable, s, participating, queues, jobsMap, heaps);
    TakesNothing(s, claims);
    while queues != {}
      invariant ssn.Valid() && Sound(ssn.View()) && AllWaiting(ssn.View().jobs, heaps) && k == |log|
      invariant Standing(config, p, reclaimable, g0, log, ssn.View(), queues, jobsMap, heaps) && Takes(s, ssn.View(), claims)
      decreases AllHeaps(heaps), queues
    {
      var queue :| queue in queues;
      if p.overused(k, queue) || queue !in jobsMap || jobsMap[queue] == {} {
        QueueDropped(config, p, reclaimable, g0, log, ssn.View(), queues, jobsMap, heaps, queue);
        log := log + [if p.overused(k, queue) then Overused(queue) else NoJob(queue)];
        queues := queues - {queue};
      } else {
        ghost var s1 := ssn.View();
        HeapKnown(config, p, reclaimable, g0, log, s1, queues, jobsMap, heaps, queue);
        var j :| j in jobsMap[queue];
        AcrossThese(g0.jobs, j, reclaimable);
        heaps, jobsMap, queues, log := ServeJob(ssn, queue, j, queues, jobsMap, heaps, reclaimable, config, p, k, g0, log);
        TakesThen(s, s1, ssn.View(), claims, {Across(j, reclaimable)}, claims);
      }
      k := k + 1;
    }
    StandsLast(config, p, reclaimable, g0, log, ssn.View(), jobsMap, heaps);
  }

  /** The popped job's turn: one of its tasks looks for victims. */
  method ServeJob(ssn: Session, queue: string, j: JobId, queues0: set<string>, jobsMap0: map<string, set<JobId>>, heaps0: map<JobId, set<TaskId>>,
                  reclaimable: set<string>, config: Config, p: Plugins, k: nat, ghost g0: Progress, ghost log0: seq<Entry>)
    returns (heaps: map<JobId, set<TaskId>>, jobsMap: map<string, set<JobId>>, queues: set<string>, ghost log: seq<Entry>)
    requires ssn.Valid() && Sound(ssn.View()) && AllWaiting(ssn.View().jobs, heaps0) && k == |log0|
    requires Standing(config, p, reclaimable, g0, log0, ssn.View(), queues0, jobsMap0, heaps0) && queue in queues0 && !p.overused(k, queue)
    requires queue in jobsMap0 && j in jobsMap0[queue] && j in heaps0
    modifies ssn`Shares, ssn.Jobs.Values, ssn.Nodes.Values
    ensures ssn.Valid() && Sound(ssn.View()) && AllWaiting(ssn.View().jobs, heaps) && |log| == k + 1
    ensures Standing(config, p, reclaimable, g0, log, ssn.View(), queues, jobsMap, heaps)
    ensures Takes(old(ssn.View()), ssn.View(), {Across(j, reclaimable)})
    ensures AllHeaps(heaps) < AllHeaps(heaps0) || (heaps == heaps0 && queues < queues0)
  {
    hide *;
    ghost var s := ssn.View();
    TakesNothing(s, {Across(j, reclaimable)});
    heaps, queues := heaps0, queues0 - {queue};
    jobsMap := jobsMap0[queue := jobsMap0[queue] - {j}];
    Popping(jobsMap0, queue, j);
    if heaps[j] == {} {
      JobDropped(config, p, reclaimable, g0, log0, s, queues0, jobsMap0, heaps0, NoTask(queue, j));
      log := log0 + [NoTask(queue, j)];
      return;
    }
    var u :| u in heaps[j];
    LessToPop(heaps0, j, u);
    LessIs(heaps0, j, u);
    WaitingIn(s.jobs, heaps0, j);
    var task := InspectTask(ssn, j, u);
    heaps := heaps[j := heaps[j] - {u}];
    if !p.allocatable(u) || !p.prePredicate(u) {
      JobDropped(config, p, reclaimable, g0, log0, s, queues0, jobsMap0, heaps0, Refused(queue, j, u));
      FewerHeaps(s.jobs, heaps0, j, heaps0[j] - {u});
      log := log0 + [Refused(queue, j, u)];
      return;
    }
    var placed;
    ghost var a;
    placed, a := ReclaimFor(ssn, task, reclaimable, config, p.votes(u));
    KeyedIs(s);
    SparedHeaps(s, ssn.View(), task, heaps0, j);
    SearchLogged(config, p, reclaimable, g0, log0, s, queues0, jobsMap0, heaps0, Searched(queue, j, u, a));
    log := log0 + [Searched(queue, j, u, a)];
    if placed {
      jobsMap := jobsMap[queue := jobsMap[queue] + {j}];
    }
    queues := queues + {queue};
    assert queues == queues0;
  }

  lemma Popping(jobsMap: map<string, set<JobId>>, q: string, j: JobId)
    requires q in jobsMap && j in jobsMap[q]
    ensures WithoutJob(jobsMap, q, j) == jobsMap[q := jobsMap[q] - {j}]
    ensures var rest := jobsMap[q := jobsMap[q] - {j}]; rest[q := rest[q] + {j}] == jobsMap
  {
    assert jobsMap[q] - {j} + {j} == jobsMap[q];
  }

  lemma LessIs(heaps: map<JobId, set<TaskId>>, j: JobId, u: TaskId)
    requires j in heaps
    ensures Less(heaps, j, u) == heaps[j := heaps[j] - {u}]
  {
  }

  lemma KeyedIs(s: Snap)
    requires Sound(s)
    ensures JobsKeyed(s.jobs)
  {
  }
}
