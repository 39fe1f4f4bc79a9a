/** The gang plugin's choice of victims (pkg/scheduler/plugins/gang/gang.go). */
module Gang {
  import opened Sums
  import opened Tasks
  import opened Jobs
  import opened Sessions
  import opened Votes

  /** The tasks of job `j`, in order. */
  function OfJob(ts: seq<Task>, j: JobId): seq<Task> {
    if ts == [] then []
    else OfJob(ts[..|ts| - 1], j) + (if ts[|ts| - 1].job == j then [ts[|ts| - 1]] else [])
  }

  /** How many tasks the job can lose and still have its minimum ready. */
  ghost function Surplus(j: JobState): int {
    |OccupiedSet(j.tasks, false)| - j.minAvailable
  }

  /** The first `n` elements, or all, or none. */
  function FirstN(ts: seq<Task>, n: int): seq<Task> {
    if n <= 0 then [] else if n >= |ts| then ts else ts[..n]
  }

  /**
   Chooses, of every job, the first preemptees as far as the job's surplus allows, and chooses nothing else.
   */
  method PreemptableFn(ssn: Session, preemptees: seq<Task>) returns (victims: seq<Task>)
    requires ssn.Valid() && forall i | 0 <= i < |preemptees| :: preemptees[i].job in ssn.Jobs
    ensures forall t | t in victims :: t in preemptees
    ensures Distinct(preemptees) ==> Distinct(victims)
    ensures forall j | j in ssn.View().jobs ::
              OfJob(victims, j) == FirstN(OfJob(preemptees, j), Surplus(ssn.View().jobs[j]))
  {
    hide AllChosen, OfJob, FirstN, Distinct, Session.Valid, Session.View;
    var occupied: map<JobId, int> := map[];
    victims := [];
    NoneChosen(ssn.View().jobs);
    for i := 0 to |preemptees|
      invariant forall t | t in victims :: t in preemptees[..i]
      invariant Distinct(preemptees) ==> Distinct(victims)
      invariant AllChosen(ssn.View().jobs, occupied, victims, preemptees[..i])
    {
      var preemptee := preemptees[i];
      var j := preemptee.job;
      ssn.Keys();
      ReadyNumIs(ssn, j);
      if j !in occupied {
        var ready := ssn.Jobs[j].ReadyTaskNum();
        ChosenFirst(ssn.View().jobs, occupied, victims, preemptees[..i], j);
        occupied := occupied[j := ready];
      }
      assert preemptees[..i + 1] == preemptees[..i] + [preemptee];
      StillDistinct(preemptees, i, victims);
      AllOneMore(ssn.View().jobs, occupied, victims, preemptees[..i], preemptee);
      if occupied[j] > ssn.Jobs[j].MinAvailable {
        occupied := occupied[j := occupied[j] - 1];
        victims := victims + [preemptee];
      }
    }
    assert preemptees[..|preemptees|] == preemptees;
    AllChosenIs(ssn.View().jobs, occupied, victims, preemptees);
  }

  /** What holds of job `j` once the preemptees in `seen` have been decided. */
  ghost predicate Chosen(jobs: JobMap, occupied: map<JobId, int>, victims: seq<Task>, seen: seq<Task>, j: JobId)
    requires j in jobs
  {
    OfJob(victims, j) == FirstN(OfJob(seen, j), Surplus(jobs[j])) &&
    (j in occupied ==> occupied[j] == |OccupiedSet(jobs[j].tasks, false)| - |OfJob(victims, j)|) &&
    (j !in occupied ==> OfJob(seen, j) == [])
  }

  lemma StillDistinct(preemptees: seq<Task>, i: nat, victims: seq<Task>)
    requires i < |preemptees| && forall t | t in victims :: t in preemptees[..i]
    ensures Distinct(preemptees) && Distinct(victims) ==> Distinct(victims + [preemptees[i]])
  {
    if Distinct(preemptees) && Distinct(victims) {
      NotYet(preemptees, i);
      forall k | 0 <= k < |victims|
        ensures victims[k].uid != preemptees[i].uid
      {
        assert victims[k] in preemptees[..i];
        var m :| 0 <= m < i && preemptees[..i][m] == victims[k];
        assert HasUid(preemptees[..i], victims[k].uid);
      }
    }
  }

  ghost predicate AllChosen(jobs: JobMap, occupied: map<JobId, int>, victims: seq<Task>, seen: seq<Task>) {
    forall j | j in jobs :: Chosen(jobs, occupied, victims, seen, j)
  }

  lemma NoneChosen(jobs: JobMap)
    ensures AllChosen(jobs, map[], [], []) && Distinct([])
  {
  }

  lemma AllChosenIs(jobs: JobMap, occupied: map<JobId, int>, victims: seq<Task>, seen: seq<Task>)
    requires AllChosen(jobs, occupied, victims, seen)
    ensures forall j | j in jobs :: OfJob(victims, j) == FirstN(OfJob(seen, j), Surplus(jobs[j]))
  {
  }

  lemma ReadyNumIs(ssn: Session, j: JobId)
    requires ssn.Valid() && j in ssn.Jobs
    ensures ssn.Jobs[j].Valid() && j in ssn.View().jobs && ssn.View().jobs[j] == ssn.Jobs[j].State()
  {
  }

  /** A job's first preemptee: none of its tasks has been chosen yet. */
  lemma ChosenFirst(jobs: JobMap, occupied: map<JobId, int>, victims: seq<Task>, seen: seq<Task>, j: JobId)
    requires AllChosen(jobs, occupied, victims, seen) && j in jobs && j !in occupied
    ensures AllChosen(jobs, occupied[j := |OccupiedSet(jobs[j].tasks, false)|], victims, seen)
  {
  }

  lemma AllOneMore(jobs: JobMap, occupied: map<JobId, int>, victims: seq<Task>, seen: seq<Task>, t: Task)
    requires AllChosen(jobs, occupied, victims, seen) && t.job in jobs && t.job in occupied
    ensures if occupied[t.job] > jobs[t.job].minAvailable then
              AllChosen(jobs, occupied[t.job := occupied[t.job] - 1], victims + [t], seen + [t])
            else AllChosen(jobs, occupied, victims, seen + [t])
  {
    forall j | j in jobs
      ensures if occupied[t.job] > jobs[t.job].minAvailable then
                Chosen(jobs, occupied[t.job := occupied[t.job] - 1], victims + [t], seen + [t], j)
              else Chosen(jobs, occupied, victims, seen + [t], j)
    {
      ChosenOneMore(jobs, occupied, victims, seen, t, j);
    }
  }

  lemma OfJobAppend(ts: seq<Task>, t: Task, j: JobId)
    ensures OfJob(ts + [t], j) == OfJob(ts, j) + if t.job == j then [t] else []
  {
  }

  lemma ChosenOneMore(jobs: JobMap, occupied: map<JobId, int>, victims: seq<Task>, seen: seq<Task>, t: Task, j: JobId)
    requires j in jobs && Chosen(jobs, occupied, victims, seen, j)
    requires t.job in jobs && t.job in occupied && Chosen(jobs, occupied, victims, seen, t.job)
    ensures var take := occupied[t.job] > jobs[t.job].minAvailable;
            if take then Chosen(jobs, occupied[t.job := occupied[t.job] - 1], victims + [t], seen + [t], j)
            else Chosen(jobs, occupied, victims, seen + [t], j)
  {
    OfJobAppend(seen, t, j);
    OfJobAppend(victims, t, j);
    hide OfJob;
  }

  // ----- losing victims within the surplus

  /** The members of a set of victims that belong to job `j`. */
  function Of(vs: set<Task>, j: JobId): set<Task> {
    set t | t in vs && t.job == j
  }

  /** No job would lose more victims than its surplus. */
  ghost predicate Budgeted(jobs: JobMap, vs: set<Task>) {
    forall j | j in jobs && Of(vs, j) != {} :: |Of(vs, j)| <= Surplus(jobs[j])
  }

  /** Any choice among gang's victims stays within every job's surplus. */
  lemma VictimsBudgeted(jobs: JobMap, preemptees: seq<Task>, victims: seq<Task>, vs: set<Task>)
    requires forall j | j in jobs :: OfJob(victims, j) == FirstN(OfJob(preemptees, j), Surplus(jobs[j]))
    requires forall t | t in vs :: t in victims
    ensures Budgeted(jobs, vs)
  {
    forall j | j in jobs && Of(vs, j) != {}
      ensures |Of(vs, j)| <= Surplus(jobs[j])
    {
      AtMost(victims, vs, j);
      assert |OfJob(victims, j)| > 0;
    }
  }

  lemma {:induction false} AtMost(ts: seq<Task>, vs: set<Task>, j: JobId)
    requires forall t | t in vs :: t in ts
    ensures |Of(vs, j)| <= |OfJob(ts, j)|
  {
    if ts == [] {
      assert Of(vs, j) == {};
    } else {
      var last := ts[|ts| - 1];
      AtMost(ts[..|ts| - 1], vs - {last}, j);
      if last.job == j {
        CardSubset(Of(vs, j), Of(vs - {last}, j) + {last});
      } else {
        CardSubset(Of(vs, j), Of(vs - {last}, j));
      }
    }
  }

  /** Taking a victim out of the running takes one from its job's ready tasks, and one from what it may lose. */
  lemma BudgetAfterEvict(jobs: JobMap, vs: set<Task>, v: Task)
    requires Budgeted(jobs, vs) && v in vs && v.job in jobs && v.uid in jobs[v.job].tasks
    requires jobs[v.job].tasks[v.uid] == v && v.status.Running?
    ensures Budgeted(PutTask(jobs, v.(status := Releasing)), vs - {v})
    ensures forall j | j in jobs && EnoughReady(jobs[j]) :: EnoughReady(PutTask(jobs, v.(status := Releasing))[j])
  {
    var jobs' := PutTask(jobs, v.(status := Releasing));
    var before, after := OccupiedSet(jobs[v.job].tasks, false), OccupiedSet(jobs'[v.job].tasks, false);
    assert after == before - {v.uid};
    assert |after| == |before| - 1;
    assert v in Of(vs, v.job);
    assert Of(vs - {v}, v.job) == Of(vs, v.job) - {v};
    forall j | j in jobs && j != v.job
      ensures Of(vs - {v}, j) == Of(vs, j)
    {
    }
  }
}
