/** A job's tasks, its status index and its incremental sums (pkg/scheduler/api/job_info.go). */
module Jobs {
  import opened Resources
  import opened Sums
  import opened Tasks

  /** What a job says about scheduling, without its derived fields. */
  datatype JobState = JobState(queue: string, minAvailable: int, taskMinAvailable: map<string, int>,
                               taskMinAvailableTotal: int, tasks: TaskMap)

  /** The status index recomputed: one non-empty bucket per status that occurs. */
  ghost function IndexOf(tasks: TaskMap): map<Status, set<TaskId>> {
    map s | s in (set u | u in tasks :: tasks[u].status) :: WithStatus(tasks, s)
  }

  ghost function WithStatus(tasks: TaskMap, s: Status): set<TaskId> {
    set u | u in tasks && tasks[u].status == s
  }

  /** The tasks that hold (or, best-effort, need no) resources; a pipelined task holds them only prospectively. */
  predicate Occupies(t: Task, withPipelined: bool) {
    AllocatedStatus(t.status) || t.status.Succeeded? || (withPipelined && t.status.Pipelined?) ||
    (t.status.Pending? && t.BestEffort())
  }

  ghost function OccupiedSet(tasks: TaskMap, withPipelined: bool): set<TaskId> {
    set u | u in tasks && Occupies(tasks[u], withPipelined)
  }

  ghost function OccupiedOf(tasks: TaskMap, spec: string, withPipelined: bool): set<TaskId> {
    set u | u in tasks && Occupies(tasks[u], withPipelined) && tasks[u].spec == spec
  }

  /** Every task spec has its minimum, unless the job's minimum is below the sum of those minima. */
  ghost predicate SpecsSatisfied(j: JobState, withPipelined: bool) {
    j.minAvailable < j.taskMinAvailableTotal ||
    forall spec | spec in j.taskMinAvailable ::
      |OccupiedOf(j.tasks, spec, withPipelined)| >= j.taskMinAvailable[spec]
  }

  ghost predicate EnoughReady(j: JobState) {
    |OccupiedSet(j.tasks, false)| >= j.minAvailable
  }

  /** The gang plugin's job-ready vote. */
  ghost predicate GangReady(j: JobState) {
    SpecsSatisfied(j, false) && EnoughReady(j)
  }

  /** The gang plugin's job-pipelined vote. */
  ghost predicate GangPipelined(j: JobState) {
    SpecsSatisfied(j, true) && |OccupiedSet(j.tasks, true)| >= j.minAvailable
  }

  /** The task is new, or replaces one of the same status that asked for nothing. */
  ghost predicate AddsCleanly(tasks: TaskMap, t: Task) {
    t.uid in tasks ==> tasks[t.uid].status == t.status && forall d :: Get(tasks[t.uid].resreq, d) == 0
  }

  lemma WeightsOf(t: Task)
    ensures forall d :: Weight(t, Request, d) == Get(t.resreq, d)
    ensures forall d :: Weight(t, AllocatedR, d) == if AllocatedStatus(t.status) then Get(t.resreq, d) else 0
  {
  }

  /** Filing an overwritten task again gives the right index exactly if its status is the old one. */
  lemma IndexAfterOverwrite(tasks: TaskMap, t: Task)
    requires t.uid in tasks
    ensures var index := IndexOf(tasks);
            index[t.status := (if t.status in index then index[t.status] else {}) + {t.uid}] == IndexOf(tasks[t.uid := t]) <==>
            tasks[t.uid].status == t.status
  {
    var was, tasks' := tasks[t.uid].status, tasks[t.uid := t];
    var index := IndexOf(tasks);
    var index' := index[t.status := (if t.status in index then index[t.status] else {}) + {t.uid}];
    assert was in index && t.uid in index[was];
    if was == t.status {
      forall s ensures WithStatus(tasks', s) == WithStatus(tasks, s) {
      }
      assert index[was] + {t.uid} == index[was];
      assert index' == index;
      forall s ensures s in IndexOf(tasks') <==> s in index {
        BucketIffNonEmpty(tasks', s);
        BucketIffNonEmpty(tasks, s);
      }
      assert IndexOf(tasks') == index;
    } else {
      assert t.uid in index'[was] && t.uid !in WithStatus(tasks', was);
    }
  }

  lemma AddedAmount(r: Resource, t: Task)
    ensures forall d :: Get(Add(r, t.resreq), d) == Get(r, d) + Get(t.resreq, d)
    ensures forall d :: Weight(t, AllocatedR, d) == if AllocatedStatus(t.status) then Get(t.resreq, d) else 0
  {
  }

  class JobInfo {
    const UID: JobId
    const Queue: string
    const MinAvailable: int
    const TaskMinAvailable: map<string, int>
    const TaskMinAvailableTotal: int

    var Tasks: TaskMap
    var TaskStatusIndex: map<Status, set<TaskId>>
    var Allocated: Resource
    var TotalRequest: Resource

    /** The incremental fields agree with their recomputation from `Tasks`. */
    ghost predicate Valid()
      reads this
    {
      WellFormed(Tasks) && (forall u | u in Tasks :: Tasks[u].job == UID) &&
      TaskStatusIndex == IndexOf(Tasks) &&
      SumsTo(Allocated, Tasks, AllocatedR) &&
      SumsTo(TotalRequest, Tasks, Request)
    }

    function State(): JobState
      reads this
    {
      JobState(Queue, MinAvailable, TaskMinAvailable, TaskMinAvailableTotal, Tasks)
    }

    constructor (uid: JobId, queue: string, minAvailable: int, taskMinAvailable: map<string, int>, total: int)
      ensures Valid() && Tasks == map[] && UID == uid
      ensures State() == JobState(queue, minAvailable, taskMinAvailable, total, map[])
    {
      UID, Queue, MinAvailable := uid, queue, minAvailable;
      TaskMinAvailable, TaskMinAvailableTotal := taskMinAvailable, total;
      Tasks, TaskStatusIndex, Allocated, TotalRequest := map[], map[], EMPTY, EMPTY;
      TotalEmpty();
    }

    method AddTaskIndex(t: Task)
      modifies this`TaskStatusIndex
      ensures TaskStatusIndex == old(TaskStatusIndex)[t.status :=
                (if t.status in old(TaskStatusIndex) then old(TaskStatusIndex)[t.status] else {}) + {t.uid}]
    {
      if t.status !in TaskStatusIndex {
        TaskStatusIndex := TaskStatusIndex[t.status := {}];
      }
      TaskStatusIndex := TaskStatusIndex[t.status := TaskStatusIndex[t.status] + {t.uid}];
    }

    method DeleteTaskIndex(t: Task)
      modifies this`TaskStatusIndex
      ensures t.status !in old(TaskStatusIndex) ==> TaskStatusIndex == old(TaskStatusIndex)
      ensures t.status in old(TaskStatusIndex) ==>
        var rest := old(TaskStatusIndex)[t.status] - {t.uid};
        TaskStatusIndex == if rest == {} then old(TaskStatusIndex) - {t.status}
                           else old(TaskStatusIndex)[t.status := rest]
    {
      if t.status in TaskStatusIndex {
        var rest := TaskStatusIndex[t.status] - {t.uid};
        TaskStatusIndex := TaskStatusIndex[t.status := rest];
        if |rest| == 0 {
          TaskStatusIndex := TaskStatusIndex - {t.status};
        }
      }
    }

    /**
     Files a task. One that is filed already is overwritten without taking out its old version, so the sums
     count both: the fields then stay right exactly if the old version had the same status and no request.
     */
    method AddTaskInfo(t: Task)
      requires Valid() && t.job == UID && NonNegative(t.resreq)
      modifies this
      ensures Tasks == old(Tasks)[t.uid := t]
      ensures forall d :: Get(TotalRequest, d) == Get(old(TotalRequest), d) + Get(t.resreq, d)
      ensures forall d :: Get(Allocated, d) == Get(old(Allocated), d) + Weight(t, AllocatedR, d)
      ensures Valid() <==> AddsCleanly(old(Tasks), t)
    {
      hide IndexOf, Total, Get, Add;
      ghost var before := Tasks;
      if t.uid !in Tasks {
        SumAfterAdd(Allocated, Tasks, AllocatedR, t);
        SumAfterAdd(TotalRequest, Tasks, Request, t);
        IndexAfterAdd(Tasks, t);
      }
      AddedAmount(Allocated, t);
      AddedAmount(TotalRequest, t);
      Tasks := Tasks[t.uid := t];
      AddTaskIndex(t);
      TotalRequest := Add(TotalRequest, t.resreq);
      if AllocatedStatus(t.status) {
        Allocated := Add(Allocated, t.resreq);
      }
      if t.uid in before {
        AddedTwice(before, old(TaskStatusIndex), old(TotalRequest), old(Allocated), t);
      }
    }

    /** When overwriting a filed task leaves index and sums right. */
    lemma AddedTwice(before: TaskMap, index: map<Status, set<TaskId>>, request: Resource, allocated0: Resource, t: Task)
      requires WellFormed(before) && (forall u | u in before :: before[u].job == UID) && t.uid in before
      requires index == IndexOf(before) && SumsTo(request, before, Request) && SumsTo(allocated0, before, AllocatedR)
      requires Tasks == before[t.uid := t] && t.job == UID && NonNegative(t.resreq)
      requires TaskStatusIndex == index[t.status := (if t.status in index then index[t.status] else {}) + {t.uid}]
      requires TotalRequest == Add(request, t.resreq)
      requires Allocated == if AllocatedStatus(t.status) then Add(allocated0, t.resreq) else allocated0
      ensures Valid() <==> AddsCleanly(before, t)
    {
      hide IndexOf, Total, Get, Add;
      TotalPut(before, t.uid, t);
      AddedAmount(request, t);
      AddedAmount(allocated0, t);
      WeightsOf(before[t.uid]);
      WeightsOf(t);
      IndexAfterOverwrite(before, t);
      if Valid() {
        forall d ensures Get(before[t.uid].resreq, d) == 0 {
          assert Get(TotalRequest, d) == Total(Tasks, Request, d);
        }
      }
    }

    /** Only the identifier of `ti` matters.  The result says whether the task was found. */
    method DeleteTaskInfo(ti: Task) returns (found: bool)
      requires Valid()
      modifies this
      ensures Valid() && found == (ti.uid in old(Tasks)) && Tasks == old(Tasks) - {ti.uid}
    {
      hide IndexOf, SumsTo, LessEqual, Get, Sub;
      if ti.uid in Tasks {
        var task := Tasks[ti.uid];
        SumAfterRemove(Allocated, Tasks, AllocatedR, task);
        SumAfterRemove(TotalRequest, Tasks, Request, task);
        IndexAfterDelete(Tasks, task);
        TotalRequest := Sub(TotalRequest, task.resreq);
        if AllocatedStatus(task.status) {
          Allocated := Sub(Allocated, task.resreq);
        }
        Tasks := Tasks - {task.uid};
        DeleteTaskIndex(task);
        return true;
      }
      MinusAbsent(Tasks, ti.uid);
      return false;
    }

    /**
     Moves a task to `status`, adding it when the job does not know it.  The result is the task
     object with its new status, which is what the job now stores.
     */
    method UpdateTaskStatus(task: Task, status: Status) returns (updated: Task)
      requires Valid() && task.job == UID && NonNegative(task.resreq)
      modifies this
      ensures Valid() && updated == task.(status := status)
      ensures Tasks == old(Tasks)[task.uid := updated]
    {
      if task.uid in Tasks {
        var _ := DeleteTaskInfo(task);
      }
      updated := task.(status := status);
      AddTaskInfo(updated);
      assert old(Tasks) - {task.uid} + map[task.uid := updated] == old(Tasks)[task.uid := updated];
    }

    /** `task.NodeName = node` seen through the pointer that the job stores. */
    method SetNodeName(task: Task, node: NodeName) returns (updated: Task)
      requires Valid() && task.uid in Tasks && Tasks[task.uid] == task
      modifies this
      ensures Valid() && updated == task.(node := node)
      ensures Tasks == old(Tasks)[task.uid := updated]
    {
      updated := task.(node := node);
      TotalPut(Tasks, task.uid, updated);
      Tasks := Tasks[task.uid := updated];
      assert forall s :: WithStatus(Tasks, s) == WithStatus(old(Tasks), s);
      assert IndexOf(Tasks) == IndexOf(old(Tasks)) by {
        forall s
          ensures s in IndexOf(Tasks) <==> s in IndexOf(old(Tasks))
        {
          assert s in IndexOf(Tasks) <==> WithStatus(Tasks, s) != {} by { BucketIffNonEmpty(Tasks, s); }
          BucketIffNonEmpty(old(Tasks), s);
        }
      }
    }

    method Clone() returns (info: JobInfo)
      requires Valid()
      ensures fresh(info) && info.Valid() && info.UID == UID && info.State() == State()
      ensures info.TaskStatusIndex == TaskStatusIndex
      ensures Same(info.Allocated, Allocated) && Same(info.TotalRequest, TotalRequest)
    {
      info := new JobInfo(UID, Queue, MinAvailable, TaskMinAvailable, TaskMinAvailableTotal);
      var todo := Tasks.Keys;
      while todo != {}
        invariant todo <= Tasks.Keys && info.Valid() && fresh(info)
        invariant info.Tasks == map u | u in Tasks && u !in todo :: Tasks[u]
        decreases todo
      {
        var u :| u in todo;
        info.AddTaskInfo(Tasks[u]);
        todo := todo - {u};
      }
      assert info.Tasks == Tasks;
    }

    function Bucket(s: Status): set<TaskId>
      reads this
    {
      if s in TaskStatusIndex then TaskStatusIndex[s] else {}
    }

    lemma BucketIs(s: Status)
      requires Valid()
      ensures Bucket(s) == WithStatus(Tasks, s)
    {
    }

    method ReadyTaskNum() returns (occupied: int)
      requires Valid()
      ensures occupied == |OccupiedSet(Tasks, false)|
    {
      forall s
        ensures Bucket(s) == WithStatus(Tasks, s)
      {
        BucketIs(s);
      }
      hide IndexOf;
      occupied := |Bucket(Bound)| + |Bucket(Binding)| + |Bucket(Running)| + |Bucket(Status.Allocated)|
        + |Bucket(Succeeded)|;
      SettledCount(Tasks);
      var todo := Bucket(Pending);
      ghost var counted: set<TaskId> := {};
      while todo != {}
        invariant todo <= Bucket(Pending)
        invariant counted == set u | u in Bucket(Pending) && u !in todo && Tasks[u].BestEffort()
        invariant occupied == |Settled(Tasks)| + |counted|
        decreases todo
      {
        var u :| u in todo;
        if Tasks[u].BestEffort() {
          occupied := occupied + 1;
          counted := counted + {u};
        }
        todo := todo - {u};
      }
      OccupiedIs(Tasks, counted);
    }

    method WaitingTaskNum() returns (n: int)
      requires Valid()
      ensures n == |WithStatus(Tasks, Pipelined)|
    {
      BucketIs(Pipelined);
      n := |Bucket(Pipelined)|;
    }

    /** The counting loops of CheckTaskReady and CheckTaskPipelined, which differ in one status. */
    method CountOccupied(withPipelined: bool) returns (occupied: map<string, int>)
      requires Valid()
      ensures forall spec :: Count(occupied, spec) == |OccupiedOf(Tasks, spec, withPipelined)|
    {
      hide SumsTo, WellFormed, IndexOf, Occupies;
      occupied := map[];
      var statuses := TaskStatusIndex.Keys;
      ghost var done: set<TaskId> := {};
      BucketsOf(Tasks);
      while statuses != {}
        invariant statuses <= TaskStatusIndex.Keys
        invariant done == set u | u in Tasks && Tasks[u].status !in statuses
        invariant CountsExactly(Tasks, occupied, done, withPipelined)
        decreases statuses
      {
        var s :| s in statuses;
        occupied := CountBucket(s, withPipelined, occupied, done);
        done := done + TaskStatusIndex[s];
        statuses := statuses - {s};
      }
      assert done == Tasks.Keys;
      forall spec
        ensures Count(occupied, spec) == |OccupiedOf(Tasks, spec, withPipelined)|
      {
        assert CountedIn(Tasks, done, spec, withPipelined) == OccupiedOf(Tasks, spec, withPipelined);
      }
    }

    /** One round of the outer loop: counts the tasks of status `s`. */
    method CountBucket(s: Status, withPipelined: bool, before: map<string, int>, ghost done: set<TaskId>)
      returns (occupied: map<string, int>)
      requires Valid() && s in TaskStatusIndex && done !! TaskStatusIndex[s]
      requires CountsExactly(Tasks, before, done, withPipelined)
      ensures CountsExactly(Tasks, occupied, done + TaskStatusIndex[s], withPipelined)
    {
      occupied := before;
      var bucket := TaskStatusIndex[s];
      assert forall u | u in bucket :: u in Tasks && Tasks[u].status == s;
      var all := AllocatedStatus(s) || s == Succeeded || (withPipelined && s == Pipelined);
      if all || s == Pending {
        var todo := bucket;
        assert done + (bucket - todo) == done;
        while todo != {}
          invariant todo <= bucket
          invariant CountsExactly(Tasks, occupied, done + (bucket - todo), withPipelined)
          decreases todo
        {
          var u :| u in todo;
          var spec := Tasks[u].spec;
          assert done + (bucket - (todo - {u})) == (done + (bucket - todo)) + {u};
          CountOne(Tasks, occupied, done + (bucket - todo), withPipelined, u);
          if all || IsEmpty(Tasks[u].resreq) {
            occupied := occupied[spec := Count(occupied, spec) + 1];
          }
          todo := todo - {u};
        }
        assert bucket - todo == bucket;
      } else {
        CountNone(Tasks, occupied, done, withPipelined, bucket);
      }
    }

    /** CheckTaskReady (`withPipelined` false) and CheckTaskPipelined (true). */
    method CheckTasks(withPipelined: bool) returns (ok: bool)
      requires Valid()
      ensures ok == SpecsSatisfied(State(), withPipelined)
    {
      if MinAvailable < TaskMinAvailableTotal {
        return true;
      }
      var occupied := CountOccupied(withPipelined);
      var specs := TaskMinAvailable.Keys;
      while specs != {}
        invariant specs <= TaskMinAvailable.Keys
        invariant forall spec | spec in TaskMinAvailable && spec !in specs ::
                    |OccupiedOf(Tasks, spec, withPipelined)| >= TaskMinAvailable[spec]
        decreases specs
      {
        var spec :| spec in specs;
        if Count(occupied, spec) < TaskMinAvailable[spec] {
          assert |OccupiedOf(Tasks, spec, withPipelined)| < TaskMinAvailable[spec];
          return false;
        }
        specs := specs - {spec};
      }
      return true;
    }

    /** The gang plugin's job-ready function. */
    method JobReadyFn() returns (ok: bool)
      requires Valid()
      ensures ok == GangReady(State())
    {
      var specs := CheckTasks(false);
      var ready := Ready();
      ok := specs && ready;
    }

    /** The gang plugin's job-pipelined function. */
    method PipelinedFn() returns (permit: bool)
      requires Valid()
      ensures permit == GangPipelined(State())
    {
      var waiting := WaitingTaskNum();
      var ready := ReadyTaskNum();
      var specs := CheckTasks(true);
      WaitingAndReady(Tasks);
      permit := specs && waiting + ready >= MinAvailable;
    }

    /** JobInfo.Ready. */
    method Ready() returns (ok: bool)
      requires Valid()
      ensures ok == EnoughReady(State())
    {
      var occupied := ReadyTaskNum();
      ok := occupied >= MinAvailable;
    }
  }

  function Count(occupied: map<string, int>, spec: string): int {
    if spec in occupied then occupied[spec] else 0
  }

  ghost function CountedIn(tasks: TaskMap, done: set<TaskId>, spec: string, withPipelined: bool): set<TaskId> {
    set u | u in done && u in tasks && Occupies(tasks[u], withPipelined) && tasks[u].spec == spec
  }

  ghost predicate CountsExactly(tasks: TaskMap, occupied: map<string, int>, done: set<TaskId>, withPipelined: bool) {
    forall spec :: Count(occupied, spec) == |CountedIn(tasks, done, spec, withPipelined)|
  }

  lemma CountOne(tasks: TaskMap, occupied: map<string, int>, done: set<TaskId>, withPipelined: bool, u: TaskId)
    requires CountsExactly(tasks, occupied, done, withPipelined)
    requires u in tasks && u !in done
    ensures var spec := tasks[u].spec;
            CountsExactly(tasks,
                          if Occupies(tasks[u], withPipelined) then occupied[spec := Count(occupied, spec) + 1] else occupied,
                          done + {u}, withPipelined)
  {
    forall spec
      ensures |CountedIn(tasks, done + {u}, spec, withPipelined)| ==
              |CountedIn(tasks, done, spec, withPipelined)|
              + if Occupies(tasks[u], withPipelined) && spec == tasks[u].spec then 1 else 0
    {
      CountedOne(tasks, done, spec, withPipelined, u);
    }
    hide CountedIn, Occupies;
  }

  lemma CountedOne(tasks: TaskMap, done: set<TaskId>, spec: string, withPipelined: bool, u: TaskId)
    requires u in tasks && u !in done
    ensures |CountedIn(tasks, done + {u}, spec, withPipelined)| ==
            |CountedIn(tasks, done, spec, withPipelined)|
            + if Occupies(tasks[u], withPipelined) && spec == tasks[u].spec then 1 else 0
  {
    var own := if Occupies(tasks[u], withPipelined) && spec == tasks[u].spec then {u} else {};
    var before, after := CountedIn(tasks, done, spec, withPipelined), CountedIn(tasks, done + {u}, spec, withPipelined);
    assert after == before + own;
    assert before !! own;
    hide *;
    CardDisjoint(before, own);
  }

  lemma CountNone(tasks: TaskMap, occupied: map<string, int>, done: set<TaskId>, withPipelined: bool, more: set<TaskId>)
    requires CountsExactly(tasks, occupied, done, withPipelined)
    requires forall u | u in more :: u in tasks && !Occupies(tasks[u], withPipelined)
    ensures CountsExactly(tasks, occupied, done + more, withPipelined)
  {
    forall spec
      ensures CountedIn(tasks, done + more, spec, withPipelined) == CountedIn(tasks, done, spec, withPipelined)
    {
    }
  }

  lemma BucketIffNonEmpty(tasks: TaskMap, s: Status)
    ensures s in IndexOf(tasks) <==> WithStatus(tasks, s) != {}
  {
    if s in IndexOf(tasks) {
      var u :| u in tasks && tasks[u].status == s;
      assert u in WithStatus(tasks, s);
    }
  }

  /** The buckets partition the tasks, and no bucket is empty. */
  lemma BucketsOf(tasks: TaskMap)
    ensures forall s | s in IndexOf(tasks) :: IndexOf(tasks)[s] != {}
    ensures forall u | u in tasks :: tasks[u].status in IndexOf(tasks) && u in IndexOf(tasks)[tasks[u].status]
    ensures forall s, u | s in IndexOf(tasks) && u in IndexOf(tasks)[s] :: u in tasks && tasks[u].status == s
    ensures forall s, s' | s in IndexOf(tasks) && s' in IndexOf(tasks) && s != s' :: IndexOf(tasks)[s] !! IndexOf(tasks)[s']
  {
    forall s | s in IndexOf(tasks)
      ensures IndexOf(tasks)[s] != {}
    {
      BucketIffNonEmpty(tasks, s);
    }
  }

  ghost function Settled(tasks: TaskMap): set<TaskId> {
    set u | u in tasks && (AllocatedStatus(tasks[u].status) || tasks[u].status.Succeeded?)
  }

  ghost function WithAny(tasks: TaskMap, ss: set<Status>): set<TaskId> {
    set u | u in tasks && tasks[u].status in ss
  }

  lemma WithOneMore(tasks: TaskMap, ss: set<Status>, s: Status)
    requires s !in ss
    ensures |WithAny(tasks, ss + {s})| == |WithAny(tasks, ss)| + |WithStatus(tasks, s)|
  {
    var before, own, after := WithAny(tasks, ss), WithStatus(tasks, s), WithAny(tasks, ss + {s});
    assert before !! own;
    assert after == before + own;
    hide *;
    CardDisjoint(before, own);
  }

  lemma SettledCount(tasks: TaskMap)
    ensures |Settled(tasks)| == |WithStatus(tasks, Bound)| + |WithStatus(tasks, Binding)| + |WithStatus(tasks, Running)|
                                + |WithStatus(tasks, Allocated)| + |WithStatus(tasks, Succeeded)|
  {
    var two, three, four := {Bound} + {Binding}, {Bound} + {Binding} + {Running}, {Bound} + {Binding} + {Running} + {Allocated};
    var settled := Settled(tasks);
    assert settled == WithAny(tasks, four + {Succeeded});
    assert WithStatus(tasks, Bound) == WithAny(tasks, {Bound});
    WithOneMore(tasks, {Bound}, Binding);
    WithOneMore(tasks, two, Running);
    WithOneMore(tasks, three, Allocated);
    WithOneMore(tasks, four, Succeeded);
  }

  lemma OccupiedIs(tasks: TaskMap, waiting: set<TaskId>)
    requires waiting == set u | u in WithStatus(tasks, Pending) && tasks[u].BestEffort()
    ensures |OccupiedSet(tasks, false)| == |Settled(tasks)| + |waiting|
  {
    var settled, occupied := Settled(tasks), OccupiedSet(tasks, false);
    assert settled !! waiting;
    assert settled + waiting == occupied;
    hide *;
    CardDisjoint(settled, waiting);
  }

  lemma WaitingAndReady(tasks: TaskMap)
    ensures |OccupiedSet(tasks, true)| == |WithStatus(tasks, Pipelined)| + |OccupiedSet(tasks, false)|
  {
    var waiting, ready, both := WithStatus(tasks, Pipelined), OccupiedSet(tasks, false), OccupiedSet(tasks, true);
    assert waiting !! ready;
    assert both == waiting + ready;
    hide *;
    CardDisjoint(waiting, ready);
  }

  lemma IndexAfterAdd(tasks: TaskMap, t: Task)
    requires t.uid !in tasks
    ensures IndexOf(tasks[t.uid := t]) ==
            IndexOf(tasks)[t.status := (if t.status in IndexOf(tasks) then IndexOf(tasks)[t.status] else {}) + {t.uid}]
  {
    var tasks' := tasks[t.uid := t];
    forall s
      ensures s in IndexOf(tasks') <==> s in IndexOf(tasks) || s == t.status
      ensures s != t.status ==> WithStatus(tasks', s) == WithStatus(tasks, s)
    {
      BucketIffNonEmpty(tasks, s);
      BucketIffNonEmpty(tasks', s);
      if s == t.status {
        assert t.uid in WithStatus(tasks', s);
      } else {
        assert WithStatus(tasks', s) == WithStatus(tasks, s);
      }
    }
    BucketIffNonEmpty(tasks, t.status);
    assert WithStatus(tasks', t.status) == WithStatus(tasks, t.status) + {t.uid};
  }

  lemma IndexAfterDelete(tasks: TaskMap, t: Task)
    requires t.uid in tasks && tasks[t.uid] == t
    ensures t.status in IndexOf(tasks)
    ensures var rest := IndexOf(tasks)[t.status] - {t.uid};
            IndexOf(tasks - {t.uid}) == if rest == {} then IndexOf(tasks) - {t.status} else IndexOf(tasks)[t.status := rest]
  {
    var tasks' := tasks - {t.uid};
    BucketIffNonEmpty(tasks, t.status);
    assert t.uid in WithStatus(tasks, t.status);
    assert WithStatus(tasks', t.status) == WithStatus(tasks, t.status) - {t.uid};
    forall s
      ensures s in IndexOf(tasks') <==> WithStatus(tasks', s) != {}
      ensures s in IndexOf(tasks) <==> WithStatus(tasks, s) != {}
      ensures s != t.status ==> WithStatus(tasks', s) == WithStatus(tasks, s)
    {
      BucketIffNonEmpty(tasks, s);
      BucketIffNonEmpty(tasks', s);
      if s != t.status {
        assert WithStatus(tasks', s) == WithStatus(tasks, s);
      }
    }
  }
}
