/**
 Admission of jobs: the overcommit plugin (pkg/scheduler/plugins/overcommit/overcommit.go) and the enqueue
 action (pkg/scheduler/actions/enqueue/enqueue.go).
 */
module EnqueueAction {
  import opened Options
  import opened Quantities
  import opened Votes

  datatype GroupPhase = NoPhase | GroupPending | GroupInqueue | GroupRunning | GroupOther

  /** Quantities as Kubernetes has them, in thousandths of a unit. */
  type ResourceList = map<string, int>

  /**
   A job with its pod group; `held` sums the requests of its tasks in allocated statuses, with `holders`
   tasks. Resources are in thousandths but for memory, which is in bytes.
   */
  datatype Job = Job(queue: string, phase: GroupPhase, minResources: Option<ResourceList>, minMember: int, holders: nat, held: Vec)

  datatype Capacity = Capacity(allocatable: Vec, used: Vec)

  const EMPTY: Vec := map["cpu" := 0.0, "memory" := 0.0]
  const DEFAULT_FACTOR := 1.2

  // ----- what overcommit reserves

  /** Quantity.Value: whole units, rounded up. */
  function Value(q: int): int {
    (q + 999) / 1000
  }

  /** NewResource. */
  function NewResource(qs: ResourceList): Vec {
    map d | d in qs :: if d == "memory" then Value(qs[d]) as real else qs[d] as real
  }

  function Minimum(job: Job): Vec
    requires job.minResources.Some?
  {
    NewResource(job.minResources.value)
  }

  /**
   GetInqueueResource: what a running job still has to get of its minimum. Of scalars it takes whole units,
   although what is held of them is in thousandths.
   */
  function Missing(qs: ResourceList, held: Vec): Vec {
    map d | d in qs && (d !in held || Whole(qs, d) - held[d] > 0.0) :: Whole(qs, d) - Get(held, d)
  }

  function Whole(qs: ResourceList, d: string): real
    requires d in qs
  {
    if d == "cpu" then qs[d] as real else Value(qs[d]) as real
  }

  /** What the job lacks, in the units of resources. */
  function Lacking(qs: ResourceList, held: Vec, d: string): real
    requires d in qs
  {
    if NewResource(qs)[d] - Get(held, d) > 0.0 then NewResource(qs)[d] - Get(held, d) else 0.0
  }

  /** Of cpu and memory a running job reserves what it lacks. */
  lemma ReservesLacking(qs: ResourceList, held: Vec, d: string)
    requires d in qs && qs[d] >= 0 && (d == "cpu" || d == "memory")
    ensures Get(Missing(qs, held), d) == Lacking(qs, held, d)
  {
  }

  /** Of a scalar it does so exactly if it asks for no more than a thousandth, or holds all it asks for. */
  lemma ScalarsReserveLess(qs: ResourceList, held: Vec, d: string)
    requires d in qs && qs[d] >= 0 && d != "cpu" && d != "memory" && Get(held, d) >= 0.0
    ensures Get(Missing(qs, held), d) <= Lacking(qs, held, d)
    ensures Get(Missing(qs, held), d) == Lacking(qs, held, d) <==> qs[d] <= 1 || Get(held, d) >= qs[d] as real
  {
    var q, v := qs[d], Value(qs[d]);
    assert v <= q && (v == q <==> q <= 1);
    assert v as real <= q as real && (v as real == q as real <==> q <= 1);
  }

  /** Of a minimum of eight devices of which two are held, nothing is reserved, where six are lacking. */
  lemma DevicesNotReserved()
    ensures var qs, held := map["example.com/device" := 8000], map["example.com/device" := 2000.0];
            Get(Missing(qs, held), "example.com/device") == 0.0 && Lacking(qs, held, "example.com/device") == 6000.0
  {
    assert Value(8000) == 8;
  }

  /** What a job of the session counts for when the session opens. */
  function Reserved(job: Job): Vec {
    if job.minResources.None? then map[]
    else if job.phase == GroupInqueue then Minimum(job)
    else if job.phase == GroupRunning && job.holders >= job.minMember then Missing(job.minResources.value, job.held)
    else map[]
  }

  /**
   A job with a minimum reserves all of it once it is admitted; while it runs with enough pods, of cpu and
   memory what it lacks of it; and otherwise nothing.
   */
  lemma ReservedIs(job: Job, d: string)
    ensures job.minResources.None? || d !in job.minResources.value ==> Get(Reserved(job), d) == 0.0
    ensures job.minResources.Some? && d in job.minResources.value && job.minResources.value[d] >= 0 ==>
              var q := job.minResources.value[d];
              match job.phase
              case GroupInqueue =>
                if d == "memory" then Get(Reserved(job), d) >= q as real / 1000.0 > Get(Reserved(job), d) - 1.0
                else Get(Reserved(job), d) == q as real
              case GroupRunning =>
                (job.holders < job.minMember ==> Get(Reserved(job), d) == 0.0) &&
                (job.holders >= job.minMember && (d == "cpu" || d == "memory") ==>
                   Get(Reserved(job), d) == Lacking(job.minResources.value, job.held, d))
              case _ => Get(Reserved(job), d) == 0.0
  {
    if job.minResources.Some? && d in job.minResources.value {
      var q := job.minResources.value[d];
      assert q <= 1000 * Value(q) < q + 1000;
      if job.phase.GroupRunning? && q >= 0 && (d == "cpu" || d == "memory") {
        ReservesLacking(job.minResources.value, job.held, d);
      }
    }
  }

  ghost function SumIn(vs: map<string, Vec>, d: string): real {
    RSum(map k | k in vs :: Get(vs[k], d))
  }

  lemma SumInPut(vs: map<string, Vec>, k: string, v: Vec, d: string)
    requires k !in vs
    ensures SumIn(vs[k := v], d) == SumIn(vs, d) + Get(v, d)
  {
    hide Get;
    var vs' := vs[k := v];
    var before: map<string, real> := map i | i in vs :: Get(vs[i], d);
    var after: map<string, real> := map i | i in vs' :: Get(vs'[i], d);
    RSumAt(after, k);
    assert after - {k} == before;
  }

  lemma GetAdd(v: Vec, w: Vec, d: string)
    ensures Get(Add(v, w), d) == Get(v, d) + Get(w, d)
    ensures Get(Sub(v, w), d) == Get(v, d) - Get(w, d)
    ensures forall c :: Get(Multi(v, c), d) == Get(v, d) * c
  {
  }

  /** Adding up the values of a map, in whatever order. */
  method AddUp(vs: map<string, Vec>) returns (sum: Vec)
    ensures forall d :: Get(sum, d) == SumIn(vs, d)
    ensures EMPTY.Keys <= sum.Keys
  {
    hide Get, Add, SumIn;
    sum := EMPTY;
    var todo := vs.Keys;
    ghost var done: map<string, Vec> := map[];
    NothingIn();
    while todo != {}
      invariant todo <= vs.Keys && done == map k | k in vs && k !in todo :: vs[k]
      invariant forall d :: Get(sum, d) == SumIn(done, d)
      invariant EMPTY.Keys <= sum.Keys
      decreases todo
    {
      var k :| k in todo;
      todo := todo - {k};
      forall d ensures Get(Add(sum, vs[k]), d) == SumIn(done[k := vs[k]], d) {
        GetAdd(sum, vs[k], d);
        SumInPut(done, k, vs[k], d);
      }
      KeysAdded(sum, vs[k]);
      sum := Add(sum, vs[k]);
      done := done[k := vs[k]];
    }
    assert done == vs;
  }

  lemma NothingIn()
    ensures forall d :: Get(EMPTY, d) == SumIn(map[], d)
  {
  }

  lemma KeysAdded(v: Vec, w: Vec)
    ensures Add(v, w).Keys == v.Keys + w.Keys
  {
  }

  function Allocatables(nodes: map<string, Capacity>): map<string, Vec> {
    map n | n in nodes :: nodes[n].allocatable
  }

  function Useds(nodes: map<string, Capacity>): map<string, Vec> {
    map n | n in nodes :: nodes[n].used
  }

  function Reservations(jobs: map<string, Job>): map<string, Vec> {
    map j | j in jobs :: Reserved(jobs[j])
  }

  /** What may be promised of dimension `d`. */
  ghost function Promisable(nodes: map<string, Capacity>, factor: real, d: string): real {
    SumIn(Allocatables(nodes), d) * factor - SumIn(Useds(nodes), d)
  }

  class Overcommit {
    var factor: real
    var idle: Vec
    var inqueue: Vec

    /** New and OnSessionOpen; a factor below one is replaced by the default. */
    constructor (argument: real, nodes: map<string, Capacity>, jobs: map<string, Job>)
      ensures factor == if argument < 1.0 then DEFAULT_FACTOR else argument
      ensures forall d :: Get(idle, d) == Promisable(nodes, factor, d)
      ensures forall d :: Get(inqueue, d) == SumIn(Reservations(jobs), d)
    {
      hide Get, Add, Sub, Multi, SumIn, Reserved;
      var chosen := if argument < 1.0 then DEFAULT_FACTOR else argument;
      var total := AddUp(Allocatables(nodes));
      var used := AddUp(Useds(nodes));
      var reserved := AddUp(Reservations(jobs));
      factor, idle, inqueue := chosen, Sub(Multi(total, chosen), used), reserved;
      new;
      forall d ensures Get(idle, d) == Promisable(nodes, chosen, d) {
        GetAdd(Multi(total, chosen), used, d);
        GetAdd(total, used, d);
      }
    }

    /** The job's minimum fits beside what is reserved already. */
    predicate Fits(job: Job)
      reads this
    {
      job.minResources.Some? ==> LessEqual(Add(inqueue, Minimum(job)), idle)
    }

    method JobEnqueueable(job: Job) returns (vote: Opinion)
      ensures vote == if Fits(job) then 1 else -1
    {
      if job.minResources.None? {
        return 1;
      }
      var wanted := Add(inqueue, Minimum(job));
      return if LessEqual(wanted, idle) then 1 else -1;
    }

    method JobEnqueued(job: Job)
      modifies this`inqueue
      ensures inqueue == if job.minResources.Some? then Add(old(inqueue), Minimum(job)) else old(inqueue)
    {
      if job.minResources.Some? {
        inqueue := Add(inqueue, Minimum(job));
      }
    }
  }

  // ----- the vote

  /**
   Where overcommit votes: place `slot` of tier `tier`; `others` are all votes for a job at a moment. No one
   in an earlier tier votes.
   */
  datatype Voting = Voting(tier: nat, slot: nat, others: (string, nat) -> seq<seq<Opinion>>)

  ghost predicate FirstToVote(v: Voting) {
    forall j, n :: v.tier < |v.others(j, n)| && v.slot < |v.others(j, n)[v.tier]| && Silent(v.others(j, n), v.tier)
  }

  ghost predicate Silent(tiers: seq<seq<Opinion>>, until: nat)
    requires until <= |tiers|
  {
    forall i, p | 0 <= i < until && 0 <= p < |tiers[i]| :: tiers[i][p] == 0
  }

  /** No other voter ever rejects. */
  ghost predicate OthersAgree(v: Voting) {
    forall j, n :: forall i, p | 0 <= i < |v.others(j, n)| && 0 <= p < |v.others(j, n)[i]| :: v.others(j, n)[i][p] >= 0
  }

  function WithVote(tiers: seq<seq<Opinion>>, tier: nat, slot: nat, vote: Opinion): seq<seq<Opinion>>
    requires tier < |tiers| && slot < |tiers[tier]|
  {
    tiers[tier := tiers[tier][slot := vote]]
  }

  /** In the first tier that votes, overcommit's rejection is final. */
  lemma RejectionIsFinal(tiers: seq<seq<Opinion>>, tier: nat, slot: nat, vote: Opinion)
    requires tier < |tiers| && slot < |tiers[tier]| && Silent(tiers, tier) && vote < 0
    ensures var all := WithVote(tiers, tier, slot, vote); Rejects(all[tier]) && forall i | 0 <= i < tier :: !Permits(all[i])
  {
    var all := WithVote(tiers, tier, slot, vote);
    assert all[tier][slot] < 0;
  }

  lemma NobodyRejects(tiers: seq<seq<Opinion>>, tier: nat, slot: nat, vote: Opinion)
    requires tier < |tiers| && slot < |tiers[tier]| && vote >= 0
    requires forall i, p | 0 <= i < |tiers| && 0 <= p < |tiers[i]| :: tiers[i][p] >= 0
    ensures forall i | 0 <= i < |tiers| :: !Rejects(WithVote(tiers, tier, slot, vote)[i])
  {
  }

  // ----- the action

  /** A reservation only grows, so what does not fit now will not fit later. */
  lemma StillTooMuch(inqueue: Vec, more: Vec, need: Vec, idle: Vec)
    requires NonNegative(more) && !LessEqual(Add(inqueue, need), idle)
    ensures !LessEqual(Add(Add(inqueue, more), need), idle)
  {
  }

  ghost predicate JobsOk(jobs: map<string, Job>) {
    forall j | j in jobs && jobs[j].minResources.Some? :: NonNegative(Minimum(jobs[j]))
  }

  predicate IsPending(job: Job) {
    job.phase == GroupPending || job.phase == NoPhase
  }

  /** The jobs an enqueue run looks at. */
  function Candidates(jobs: map<string, Job>, queues: set<string>): set<string> {
    set j | j in jobs && IsPending(jobs[j]) && jobs[j].queue in queues
  }

  /** The jobs after some of them were admitted. */
  function Admitted(jobs: map<string, Job>, admitted: set<string>): map<string, Job> {
    map j | j in jobs :: if j in admitted then jobs[j].(phase := GroupInqueue) else jobs[j]
  }

  /** What the admitted jobs ask for in all. */
  function Minimums(jobs: map<string, Job>, admitted: set<string>): map<string, Vec> {
    map j | j in jobs && j in admitted :: if jobs[j].minResources.Some? then Minimum(jobs[j]) else map[]
  }

  /** An admitted job asked for something. */
  ghost predicate Asked(jobs: map<string, Job>, admitted: set<string>) {
    exists j | j in admitted && j in jobs :: jobs[j].minResources.Some?
  }

  /** What the run settled about one job: a job that asks for nothing is admitted; a refused one does not fit. */
  ghost predicate Settled(job: Job, admitted: bool, agree: bool, inqueue: Vec, idle: Vec) {
    if job.minResources.None? then admitted
    else admitted || (agree ==> !LessEqual(Add(inqueue, Minimum(job)), idle))
  }

  /** What is reserved and settled after the jobs of `done` were considered. */
  ghost predicate Account(jobs0: map<string, Job>, inqueue0: Vec, admitted: set<string>, done: set<string>, agree: bool, inqueue: Vec, idle: Vec) {
    admitted <= done <= jobs0.Keys &&
    (forall d :: Get(inqueue, d) == Get(inqueue0, d) + SumIn(Minimums(jobs0, admitted), d)) &&
    (Asked(jobs0, admitted) ==> LessEqual(inqueue, idle)) &&
    (forall j | j in done :: Settled(jobs0[j], j in admitted, agree, inqueue, idle))
  }

  lemma AccountAtFirst(jobs0: map<string, Job>, inqueue0: Vec, agree: bool, idle: Vec)
    ensures Account(jobs0, inqueue0, {}, {}, agree, inqueue0, idle)
  {
  }

  /** Counting an admitted job in. */
  function Reserving(inqueue: Vec, job: Job): Vec {
    if job.minResources.Some? then Add(inqueue, Minimum(job)) else inqueue
  }

  lemma AccountAfterAdmission(jobs0: map<string, Job>, inqueue0: Vec, admitted: set<string>, done: set<string>, agree: bool, inqueue: Vec, idle: Vec, j: string)
    requires Account(jobs0, inqueue0, admitted, done, agree, inqueue, idle) && JobsOk(jobs0)
    requires j in jobs0 && j !in done && (jobs0[j].minResources.Some? ==> LessEqual(Add(inqueue, Minimum(jobs0[j])), idle))
    ensures Account(jobs0, inqueue0, admitted + {j}, done + {j}, agree, Reserving(inqueue, jobs0[j]), idle)
  {
    hide LessEqual, Get, Add, SumIn, NonNegative;
    var need := if jobs0[j].minResources.Some? then Minimum(jobs0[j]) else map[];
    var inqueue' := Reserving(inqueue, jobs0[j]);
    assert Minimums(jobs0, admitted + {j}) == Minimums(jobs0, admitted)[j := need];
    forall d ensures Get(inqueue', d) == Get(inqueue0, d) + SumIn(Minimums(jobs0, admitted + {j}), d) {
      SumInPut(Minimums(jobs0, admitted), j, need, d);
      GetAdd(inqueue, need, d);
      NothingOf(d);
    }
    forall i | i in done + {j} ensures Settled(jobs0[i], i in admitted + {j}, agree, inqueue', idle) {
      if i != j && agree && i !in admitted && jobs0[j].minResources.Some? {
        StillTooMuch(inqueue, need, Minimum(jobs0[i]), idle);
      }
    }
  }

  lemma NothingOf(d: string)
    ensures Get(map[], d) == 0.0
  {
  }

  lemma AccountAfterRefusal(jobs0: map<string, Job>, inqueue0: Vec, admitted: set<string>, done: set<string>, agree: bool, inqueue: Vec, idle: Vec, j: string)
    requires Account(jobs0, inqueue0, admitted, done, agree, inqueue, idle)
    requires j in jobs0 && j !in done && jobs0[j].minResources.Some? && (agree ==> !LessEqual(Add(inqueue, Minimum(jobs0[j])), idle))
    ensures Account(jobs0, inqueue0, admitted, done + {j}, agree, inqueue, idle)
  {
  }

  class Enqueue {
    var jobs: map<string, Job>
    const queues: set<string>
    const overcommit: Overcommit

    constructor (jobs: map<string, Job>, queues: set<string>, overcommit: Overcommit)
      ensures this.jobs == jobs && this.queues == queues && this.overcommit == overcommit
    {
      this.jobs, this.queues, this.overcommit := jobs, queues, overcommit;
    }

    /** JobEnqueueable of the session: all votes, with overcommit's among them. */
    method Enqueueable(j: string, moment: nat, v: Voting) returns (yes: bool)
      requires j in jobs && FirstToVote(v)
      ensures yes ==> overcommit.Fits(jobs[j])
      ensures OthersAgree(v) && overcommit.Fits(jobs[j]) ==> yes
    {
      var vote := overcommit.JobEnqueueable(jobs[j]);
      var others := v.others(j, moment);
      yes := Permitted(WithVote(others, v.tier, v.slot, vote));
      if vote < 0 {
        RejectionIsFinal(others, v.tier, v.slot, vote);
      } else if OthersAgree(v) {
        NobodyRejects(others, v.tier, v.slot, vote);
      }
    }

    /**
     Execute: every pending job whose queue exists is considered exactly once; whatever is admitted, the
     reservation is the old one plus the admitted minimums, and once a job with a minimum was admitted it is
     within what may be promised.
     */
    method Execute(v: Voting) returns (considered: seq<string>, admitted: set<string>)
      requires FirstToVote(v) && JobsOk(jobs)
      modifies this`jobs, overcommit`inqueue
      ensures multiset(considered) == multiset(Candidates(old(jobs), queues)) && admitted <= Candidates(old(jobs), queues)
      ensures jobs == Admitted(old(jobs), admitted)
      ensures forall d :: Get(overcommit.inqueue, d) == Get(old(overcommit.inqueue), d) + SumIn(Minimums(old(jobs), admitted), d)
      ensures Asked(old(jobs), admitted) ==> LessEqual(overcommit.inqueue, overcommit.idle)
      ensures forall j | j in Candidates(old(jobs), queues) ::
                Settled(old(jobs)[j], j in admitted, OthersAgree(v), overcommit.inqueue, overcommit.idle)
    {
      hide *;
      ghost var jobs0, inqueue0, idle0 := jobs, overcommit.inqueue, overcommit.idle;
      var jobsMap, bag := Heaps();
      considered, admitted := [], {};
      ghost var todo := Candidates(jobs, queues);
      AccountAtFirst(jobs, inqueue0, OthersAgree(v), idle0);
      AdmittedNone(jobs);
      TrackedAtFirst(Candidates(jobs, queues));
      while bag != multiset{}
        invariant Tracked(Candidates(jobs0, queues), considered, todo)
        invariant admitted <= Candidates(jobs0, queues) - todo && jobs == Admitted(jobs0, admitted)
        invariant Heaped(jobs0, queues, jobsMap, bag, todo)
        invariant overcommit.idle == idle0
        invariant Account(jobs0, inqueue0, admitted, Candidates(jobs0, queues) - todo, OthersAgree(v), overcommit.inqueue, idle0)
        decreases todo, |bag|
      {
        var queue :| queue in bag;
        ghost var before := bag;
        bag := bag - multiset{queue};
        assert bag + multiset{queue} == before;
        if queue !in jobsMap || jobsMap[queue] == {} {
          QueueDropped(jobs0, queues, jobsMap, before, todo, queue);
          continue;
        }
        var j :| j in jobsMap[queue];
        JobTaken(jobs0, queues, jobsMap, before, todo, queue, j);
        jobsMap := jobsMap[queue := jobsMap[queue] - {j}];
        TrackedNext(Candidates(jobs0, queues), considered, todo, j);
        NotAdmitted(jobs0, admitted, j);
        var admit := Consider(j, |considered|, v, jobs0, inqueue0, admitted, Candidates(jobs0, queues) - todo);
        if admit {
          admitted := admitted + {j};
        }
        considered := considered + [j];
        todo := todo - {j};
        bag := bag + multiset{queue};
      }
      HeapsEmpty(jobs0, queues, jobsMap, todo);
      TrackedToEnd(Candidates(jobs0, queues), considered);
      AccountSays(jobs0, inqueue0, admitted, Candidates(jobs0, queues) - todo, OthersAgree(v), overcommit.inqueue, idle0);
    }

    /** The queues that have jobs, and each queue's pending jobs. */
    method Heaps() returns (jobsMap: map<string, set<string>>, bag: multiset<string>)
      ensures Heaped(jobs, queues, jobsMap, bag, Candidates(jobs, queues))
    {
      jobsMap := map q | q in queues :: set j | j in jobs && IsPending(jobs[j]) && jobs[j].queue == q;
      bag := multiset(set q | q in queues && exists j | j in jobs :: jobs[j].queue == q);
    }

    /** One popped job is admitted or refused. */
    method Consider(j: string, moment: nat, v: Voting, ghost jobs0: map<string, Job>, ghost inqueue0: Vec, ghost admitted: set<string>, ghost done: set<string>) returns (admit: bool)
      requires FirstToVote(v) && JobsOk(jobs0) && j in jobs0 && j !in done && j in jobs && jobs[j] == jobs0[j]
      requires jobs == Admitted(jobs0, admitted)
      requires Account(jobs0, inqueue0, admitted, done, OthersAgree(v), overcommit.inqueue, overcommit.idle)
      modifies this`jobs, overcommit`inqueue
      ensures jobs == Admitted(jobs0, if admit then admitted + {j} else admitted)
      ensures Account(jobs0, inqueue0, if admit then admitted + {j} else admitted, done + {j}, OthersAgree(v), overcommit.inqueue, overcommit.idle)
    {
      hide LessEqual, Get, Add, SumIn, Settled, Account, FirstToVote, OthersAgree, JobsOk;
      admit := true;
      if jobs[j].minResources.Some? {
        admit := Enqueueable(j, moment, v);
      }
      if admit {
        AccountAfterAdmission(jobs0, inqueue0, admitted, done, OthersAgree(v), overcommit.inqueue, overcommit.idle, j);
        overcommit.JobEnqueued(jobs[j]);
        jobs := jobs[j := jobs[j].(phase := GroupInqueue)];
      } else {
        AccountAfterRefusal(jobs0, inqueue0, admitted, done, OthersAgree(v), overcommit.inqueue, overcommit.idle, j);
      }
    }
  }

  /** Every job still to be considered is in its queue's heap, and that queue is in the bag. */
  ghost predicate Heaped(jobs0: map<string, Job>, queues: set<string>, jobsMap: map<string, set<string>>, bag: multiset<string>, todo: set<string>) {
    jobsMap.Keys == queues && todo <= Candidates(jobs0, queues) &&
    (forall q | q in queues :: jobsMap[q] == set j | j in todo && j in jobs0 && jobs0[j].queue == q) &&
    (forall j | j in todo :: jobs0[j].queue in bag)
  }

  /** Each job was considered once, or is still to be considered. */
  ghost predicate Tracked(all: set<string>, considered: seq<string>, todo: set<string>) {
    todo <= all && multiset(considered) + multiset(todo) == multiset(all)
  }

  lemma TrackedAtFirst(all: set<string>)
    ensures Tracked(all, [], all) && all - all == {}
  {
  }

  lemma TrackedNext(all: set<string>, considered: seq<string>, todo: set<string>, j: string)
    requires Tracked(all, considered, todo) && j in todo
    ensures Tracked(all, considered + [j], todo - {j}) && j in all
    ensures all - (todo - {j}) == (all - todo) + {j}
  {
  }

  lemma TrackedToEnd(all: set<string>, considered: seq<string>)
    requires Tracked(all, considered, {})
    ensures multiset(considered) == multiset(all) && all - {} == all
  {
  }

  lemma QueueDropped(jobs0: map<string, Job>, queues: set<string>, jobsMap: map<string, set<string>>, bag: multiset<string>, todo: set<string>, queue: string)
    requires Heaped(jobs0, queues, jobsMap, bag, todo) && (queue !in jobsMap || jobsMap[queue] == {})
    ensures Heaped(jobs0, queues, jobsMap, bag - multiset{queue}, todo)
  {
    forall j | j in todo ensures jobs0[j].queue in bag - multiset{queue} {
      assert j in jobsMap[jobs0[j].queue];
    }
  }

  lemma JobTaken(jobs0: map<string, Job>, queues: set<string>, jobsMap: map<string, set<string>>, bag: multiset<string>, todo: set<string>, queue: string, j: string)
    requires Heaped(jobs0, queues, jobsMap, bag, todo) && queue in jobsMap && j in jobsMap[queue]
    ensures j in todo && j in jobs0 && Heaped(jobs0, queues, jobsMap[queue := jobsMap[queue] - {j}], bag, todo - {j})
  {
  }

  lemma HeapsEmpty(jobs0: map<string, Job>, queues: set<string>, jobsMap: map<string, set<string>>, todo: set<string>)
    requires Heaped(jobs0, queues, jobsMap, multiset{}, todo)
    ensures todo == {}
  {
  }

  lemma AdmittedNone(jobs: map<string, Job>)
    ensures Admitted(jobs, {}) == jobs
  {
  }

  lemma NotAdmitted(jobs0: map<string, Job>, admitted: set<string>, j: string)
    requires j in jobs0
    ensures j in Admitted(jobs0, admitted) && (j !in admitted ==> Admitted(jobs0, admitted)[j] == jobs0[j])
  {
  }

  lemma AccountSays(jobs0: map<string, Job>, inqueue0: Vec, admitted: set<string>, done: set<string>, agree: bool, inqueue: Vec, idle: Vec)
    requires Account(jobs0, inqueue0, admitted, done, agree, inqueue, idle)
    ensures done <= jobs0.Keys
    ensures forall d :: Get(inqueue, d) == Get(inqueue0, d) + SumIn(Minimums(jobs0, admitted), d)
    ensures Asked(jobs0, admitted) ==> LessEqual(inqueue, idle)
    ensures forall j | j in done :: Settled(jobs0[j], j in admitted, agree, inqueue, idle)
  {
  }
}
