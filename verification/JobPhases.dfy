/**
 The job controller's phase machine (pkg/controllers/job/state) and the two operations that drive it,
 killJob and syncJob (pkg/controllers/job/job_controller_actions.go).
 */
module JobPhases {
  import opened Options
  import opened Sums

  datatype PodPhase = PodPending | PodRunning | PodSucceeded | PodFailed | PodOther

  /** A pod as the controller's cache has it; `task` is its task annotation. */
  datatype Pod = Pod(phase: PodPhase, deleting: bool, task: Option<string>)

  /** A pod of a job: the task it is filed under and its name. */
  datatype PodKey = PodKey(task: string, name: string)

  datatype Phase =
    | Unset | Pending | Running | Restarting | Aborting | Aborted | Completing | Completed | Terminating | Terminated | Failed

  datatype Action = RestartJob | AbortJob | CompleteJob | TerminateJob | ResumeJob | OtherAction

  datatype Tally = Tally(pending: nat, running: nat, succeeded: nat, failed: nat, terminating: nat, unknown: nat)

  datatype Class = IsPending | IsRunning | IsSucceeded | IsFailed | IsTerminating | IsUnknown

  datatype Status = Status(phase: Phase, retry: int, version: int, minAvailable: int, tally: Tally, tasks: map<string, Tally>)

  datatype TaskSpec = TaskSpec(name: string, replicas: nat, minAvailable: Option<int>)

  datatype Spec = Spec(tasks: seq<TaskSpec>, minAvailable: int, minSuccess: Option<int>, maxRetry: int)

  // ----- counting pods

  const NOBODY := Tally(0, 0, 0, 0, 0, 0)

  /** One more pod of a class. */
  function Bump(t: Tally, c: Class): Tally {
    match c
    case IsPending => t.(pending := t.pending + 1)
    case IsRunning => t.(running := t.running + 1)
    case IsSucceeded => t.(succeeded := t.succeeded + 1)
    case IsFailed => t.(failed := t.failed + 1)
    case IsTerminating => t.(terminating := t.terminating + 1)
    case IsUnknown => t.(unknown := t.unknown + 1)
  }

  function Everybody(t: Tally): nat {
    t.pending + t.running + t.succeeded + t.failed + t.terminating + t.unknown
  }

  ghost function Those(keys: set<PodKey>, sort: PodKey -> Class, c: Class): set<PodKey> {
    set k | k in keys && sort(k) == c
  }

  /** How many of the pods are in each class. */
  ghost function TallyOf(keys: set<PodKey>, sort: PodKey -> Class): Tally {
    Tally(|Those(keys, sort, IsPending)|, |Those(keys, sort, IsRunning)|, |Those(keys, sort, IsSucceeded)|,
          |Those(keys, sort, IsFailed)|, |Those(keys, sort, IsTerminating)|, |Those(keys, sort, IsUnknown)|)
  }

  lemma ThoseAdd(keys: set<PodKey>, sort: PodKey -> Class, k: PodKey, c: Class)
    requires k !in keys
    ensures |Those(keys + {k}, sort, c)| == |Those(keys, sort, c)| + if sort(k) == c then 1 else 0
  {
    if sort(k) == c {
      assert Those(keys + {k}, sort, c) == Those(keys, sort, c) + {k};
    } else {
      assert Those(keys + {k}, sort, c) == Those(keys, sort, c);
    }
  }

  lemma TallyAdd(keys: set<PodKey>, sort: PodKey -> Class, k: PodKey)
    requires k !in keys
    ensures TallyOf(keys + {k}, sort) == Bump(TallyOf(keys, sort), sort(k))
  {
    hide Those;
    forall c ensures |Those(keys + {k}, sort, c)| == |Those(keys, sort, c)| + if sort(k) == c then 1 else 0 {
      ThoseAdd(keys, sort, k, c);
    }
  }

  lemma TallyNone(sort: PodKey -> Class)
    ensures TallyOf({}, sort) == NOBODY
  {
  }

  /** Every pod is counted exactly once. */
  lemma {:induction false} EverybodyCounted(keys: set<PodKey>, sort: PodKey -> Class)
    ensures Everybody(TallyOf(keys, sort)) == |keys|
    decreases keys
  {
    hide TallyOf;
    if keys == {} {
      TallyNone(sort);
    } else {
      var k :| k in keys;
      EverybodyCounted(keys - {k}, sort);
      TallyAdd(keys - {k}, sort, k);
      assert keys - {k} + {k} == keys;
    }
  }

  /** The counts by task annotation, over the pods that have one. */
  ghost function TasksOf(keys: set<PodKey>, task: PodKey -> Option<string>, sort: PodKey -> Class): map<string, Tally> {
    map t | t in (set k | k in keys && task(k).Some? :: task(k).value) :: TallyOf(Annotated(keys, task, t), sort)
  }

  ghost function Annotated(keys: set<PodKey>, task: PodKey -> Option<string>, t: string): set<PodKey> {
    set k | k in keys && task(k) == Some(t)
  }

  /** calcPodStatus: one more pod of a task. */
  function BumpTask(tasks: map<string, Tally>, task: Option<string>, c: Class): map<string, Tally> {
    if task.None? then tasks
    else tasks[task.value := Bump(if task.value in tasks then tasks[task.value] else NOBODY, c)]
  }

  lemma TasksAdd(keys: set<PodKey>, task: PodKey -> Option<string>, sort: PodKey -> Class, k: PodKey)
    requires k !in keys
    ensures TasksOf(keys + {k}, task, sort) == BumpTask(TasksOf(keys, task, sort), task(k), sort(k))
  {
    hide TallyOf, Bump;
    var before, after := TasksOf(keys, task, sort), TasksOf(keys + {k}, task, sort);
    if task(k).None? {
      assert forall t :: Annotated(keys + {k}, task, t) == Annotated(keys, task, t);
      assert after.Keys == before.Keys;
    } else {
      var own := task(k).value;
      assert Annotated(keys + {k}, task, own) == Annotated(keys, task, own) + {k};
      assert forall t | t != own :: Annotated(keys + {k}, task, t) == Annotated(keys, task, t);
      TallyAdd(Annotated(keys, task, own), sort, k);
      TallyNone(sort);
      assert own !in before ==> Annotated(keys, task, own) == {};
      assert after.Keys == before.Keys + {own};
    }
  }

  // ----- killing a job's pods

  const NONE: set<PodPhase> := {}
  const SOFT: set<PodPhase> := {PodSucceeded, PodFailed}

  function ByPhase(p: PodPhase): Class {
    match p
    case PodPending => IsPending
    case PodRunning => IsRunning
    case PodSucceeded => IsSucceeded
    case PodFailed => IsFailed
    case PodOther => IsUnknown
  }

  /** At the last retry failed and succeeded pods are kept whatever was asked. */
  function Retained(spec: Spec, s: Status, retain: set<PodPhase>): set<PodPhase> {
    if s.retry >= spec.maxRetry - 1 then SOFT else retain
  }

  /** What becomes of a pod when no deletion fails. */
  function Killing(pods: map<PodKey, Pod>, retain: set<PodPhase>): PodKey -> Class {
    k => if k !in pods then IsUnknown
         else if pods[k].deleting || pods[k].phase !in retain then IsTerminating
         else ByPhase(pods[k].phase)
  }

  /** Only pods that stay are counted for their task. */
  function Staying(pods: map<PodKey, Pod>, retain: set<PodPhase>): PodKey -> Option<string> {
    k => if k !in pods || pods[k].deleting || pods[k].phase !in retain then None else pods[k].task
  }

  /** The status with the counts of a successful kill. */
  ghost function KillCounts(spec: Spec, s: Status, pods: map<PodKey, Pod>, retain: set<PodPhase>): Status {
    var kept := Retained(spec, s, retain);
    s.(version := s.version + 1, tally := TallyOf(pods.Keys, Killing(pods, kept)),
       tasks := TasksOf(pods.Keys, Staying(pods, kept), Killing(pods, kept)))
  }

  function Applied(update: Option<Status -> Status>, s: Status): Status {
    match update
    case None => s
    case Some(fn) => fn(s)
  }

  /** Keeping only finished pods leaves none pending, running or unknown, and every pod is finished or on its way out. */
  lemma SoftKillCounts(spec: Spec, s: Status, pods: map<PodKey, Pod>)
    ensures var t := KillCounts(spec, s, pods, SOFT).tally;
            t.pending == t.running == t.unknown == 0 && t.terminating + t.succeeded + t.failed == |pods|
  {
    hide KillCounts, TallyOf, Killing, TasksOf;
    SoftKillTally(spec, s, pods);
    NoneAlive(pods);
    EverybodyCounted(pods.Keys, Killing(pods, SOFT));
    assert |pods.Keys| == |pods|;
  }

  lemma SoftKillTally(spec: Spec, s: Status, pods: map<PodKey, Pod>)
    ensures KillCounts(spec, s, pods, SOFT).tally == TallyOf(pods.Keys, Killing(pods, SOFT))
  {
  }

  lemma NoneAlive(pods: map<PodKey, Pod>)
    ensures var t := TallyOf(pods.Keys, Killing(pods, SOFT)); t.pending == t.running == t.unknown == 0
  {
  }

  /** Keeping nothing, before the last retry, sends every pod away. */
  lemma HardKillCounts(spec: Spec, s: Status, pods: map<PodKey, Pod>)
    requires s.retry < spec.maxRetry - 1
    ensures KillCounts(spec, s, pods, NONE).tally == NOBODY.(terminating := |pods|) && KillCounts(spec, s, pods, NONE).tasks == map[]
  {
    var sort := Killing(pods, NONE);
    assert Those(pods.Keys, sort, IsTerminating) == pods.Keys;
    assert forall c | c != IsTerminating :: Those(pods.Keys, sort, c) == {};
    assert |pods.Keys| == |pods|;
  }

  /** At the last retry finished pods stay, whatever was asked; so nobody who had finished is terminating then. */
  lemma LastRetryKeepsFinished(spec: Spec, s: Status, pods: map<PodKey, Pod>, retain: set<PodPhase>, k: PodKey)
    requires s.retry >= spec.maxRetry - 1 && k in pods && !pods[k].deleting && pods[k].phase in SOFT
    ensures KillCounts(spec, s, pods, retain).tally == TallyOf(pods.Keys, Killing(pods, SOFT)) && Killing(pods, SOFT)(k) != IsTerminating
  {
    SoftKillTally(spec, s, pods);
  }

  /** After a kill that keeps finished pods, nothing is terminating exactly when every pod had finished. */
  lemma AllFinished(spec: Spec, s: Status, pods: map<PodKey, Pod>)
    ensures KillCounts(spec, s, pods, SOFT).tally.terminating == 0 <==>
            forall k | k in pods :: pods[k].phase in SOFT && !pods[k].deleting
  {
    var sort := Killing(pods, SOFT);
    var leaving := Those(pods.Keys, sort, IsTerminating);
    if leaving == {} {
      forall k | k in pods ensures pods[k].phase in SOFT && !pods[k].deleting {
        assert k !in leaving;
      }
    } else {
      var k :| k in leaving;
      assert |leaving| != 0 by { assert k in leaving; }
    }
  }

  // ----- what each phase does

  datatype Plan = Kill(retain: set<PodPhase>, update: Option<Status -> Status>) | Sync(change: Status -> Status)

  function TotalTasks(tasks: seq<TaskSpec>): nat {
    if tasks == [] then 0 else TotalTasks(tasks[..|tasks| - 1]) + tasks[|tasks| - 1].replicas
  }

  function TotalTaskMinAvailable(tasks: seq<TaskSpec>): int {
    if tasks == [] then 0
    else (if tasks[0].minAvailable.Some? then tasks[0].minAvailable.value else tasks[0].replicas) + TotalTaskMinAvailable(tasks[1..])
  }

  lemma {:induction false} TotalMinimaLast(tasks: seq<TaskSpec>, t: TaskSpec)
    ensures TotalTaskMinAvailable(tasks + [t]) == TotalTaskMinAvailable(tasks) + if t.minAvailable.Some? then t.minAvailable.value else t.replicas
  {
    if tasks == [] {
      assert [t][1..] == [];
    } else {
      assert (tasks + [t])[1..] == tasks[1..] + [t];
      TotalMinimaLast(tasks[1..], t);
    }
  }

  /** Minimums within the replicas add up to at most all replicas, and to as many exactly if no task may do with fewer. */
  lemma {:induction false} MinimaWithinReplicas(tasks: seq<TaskSpec>)
    requires forall i | 0 <= i < |tasks| && tasks[i].minAvailable.Some? :: tasks[i].minAvailable.value <= tasks[i].replicas
    ensures TotalTaskMinAvailable(tasks) <= TotalTasks(tasks)
    ensures TotalTaskMinAvailable(tasks) == TotalTasks(tasks) <==>
            forall i | 0 <= i < |tasks| && tasks[i].minAvailable.Some? :: tasks[i].minAvailable.value == tasks[i].replicas
    decreases |tasks|
  {
    if tasks != [] {
      var init, last := tasks[..|tasks| - 1], tasks[|tasks| - 1];
      assert tasks == init + [last];
      MinimaWithinReplicas(init);
      TotalMinimaLast(init, last);
    }
  }

  /** Some task with a minimum, of which pods were counted, has too few succeeded pods. */
  predicate TaskShort(tasks: seq<TaskSpec>, counts: map<string, Tally>) {
    exists i | 0 <= i < |tasks| ::
      tasks[i].minAvailable.Some? && tasks[i].name in counts && counts[tasks[i].name].succeeded < tasks[i].minAvailable.value
  }

  function RunningDecision(spec: Spec, s: Status): Phase {
    var t := s.tally;
    if TotalTasks(spec.tasks) == 0 then s.phase
    else if spec.minSuccess.Some? && t.succeeded >= spec.minSuccess.value then Completed
    else if t.succeeded + t.failed != TotalTasks(spec.tasks) then s.phase
    else if spec.minAvailable >= TotalTaskMinAvailable(spec.tasks) && TaskShort(spec.tasks, s.tasks) then Failed
    else if spec.minSuccess.Some? && t.succeeded < spec.minSuccess.value then Failed
    else if t.succeeded >= spec.minAvailable then Completed
    else Failed
  }

  function RestartingDecision(spec: Spec, s: Status): Phase {
    if s.retry >= spec.maxRetry then Failed
    else if TotalTasks(spec.tasks) - s.tally.terminating >= s.minAvailable then Pending
    else s.phase
  }

  /** No pod is alive any more, as far as these counts say. */
  predicate Quiet(t: Tally) {
    t.terminating == 0 && t.pending == 0 && t.running == 0
  }

  function To(phase: Phase): Option<Status -> Status> {
    Some((s: Status) => s.(phase := phase))
  }

  function ToRestarting(): Option<Status -> Status> {
    Some((s: Status) => s.(phase := Restarting, retry := s.retry + 1))
  }

  function WhenQuiet(phase: Phase): Option<Status -> Status> {
    Some((s: Status) => if Quiet(s.tally) then s.(phase := phase) else s)
  }

  /** NewState and the Execute of that state. */
  function PlanOf(spec: Spec, phase: Phase, action: Action): Plan {
    match phase
    case Pending | Unset =>
      (match action
       case RestartJob => Kill(NONE, ToRestarting())
       case AbortJob => Kill(SOFT, To(Aborting))
       case CompleteJob => Kill(SOFT, To(Completing))
       case TerminateJob => Kill(SOFT, To(Terminating))
       case _ => Sync((s: Status) => if spec.minAvailable <= s.tally.running + s.tally.succeeded + s.tally.failed then s.(phase := Running) else s))
    case Running =>
      (match action
       case RestartJob => Kill(NONE, ToRestarting())
       case AbortJob => Kill(SOFT, To(Aborting))
       case CompleteJob => Kill(SOFT, To(Completing))
       case TerminateJob => Kill(SOFT, To(Terminating))
       case _ => Sync((s: Status) => s.(phase := RunningDecision(spec, s))))
    case Restarting => Kill(NONE, Some((s: Status) => s.(phase := RestartingDecision(spec, s))))
    case Aborting => if action == ResumeJob then Kill(SOFT, ToRestarting()) else Kill(SOFT, WhenQuiet(Aborted))
    case Aborted => if action == ResumeJob then Kill(SOFT, ToRestarting()) else Kill(SOFT, None)
    case Completing => Kill(SOFT, WhenQuiet(Completed))
    case Terminating => Kill(SOFT, WhenQuiet(Terminated))
    case Completed | Terminated | Failed => Kill(SOFT, None)
  }

  // ----- the phase an action leaves the job in, by the counts it goes by

  predicate HasPods(p: Phase) {
    p == Unset || p == Pending || p == Running
  }

  /** The job is told to leave its phase at once. */
  predicate Told(p: Phase, action: Action) {
    (HasPods(p) && action in {RestartJob, AbortJob, CompleteJob, TerminateJob}) || (p in {Aborting, Aborted} && action == ResumeJob)
  }

  function ToldTo(action: Action): Phase {
    match action
    case AbortJob => Aborting
    case CompleteJob => Completing
    case TerminateJob => Terminating
    case _ => Restarting
  }

  /** The action counts and completes the job's pods; the others send them away. */
  predicate Synchronizes(p: Phase, action: Action) {
    HasPods(p) && !Told(p, action)
  }

  /** Finished pods go too. */
  predicate SparesNobody(p: Phase, action: Action) {
    p == Restarting || (HasPods(p) && action == RestartJob)
  }

  /** As many pods have succeeded as the job asks for. */
  predicate MinSuccessReached(spec: Spec, s: Status) {
    spec.minSuccess.Some? && s.tally.succeeded >= spec.minSuccess.value
  }

  predicate EveryReplicaFinished(spec: Spec, s: Status) {
    s.tally.succeeded + s.tally.failed == TotalTasks(spec.tasks)
  }

  /** Every task that has a minimum, and of which pods were counted, reached it. */
  predicate MinimaReached(spec: Spec, s: Status) {
    forall task <- spec.tasks | task.minAvailable.Some? && task.name in s.tasks :: s.tasks[task.name].succeeded >= task.minAvailable.value
  }

  /** A running job has succeeded: early, or with all replicas finished. */
  predicate Successful(spec: Spec, s: Status) {
    MinSuccessReached(spec, s) ||
    (EveryReplicaFinished(spec, s) && spec.minSuccess.None? && s.tally.succeeded >= spec.minAvailable &&
     (spec.minAvailable >= TotalTaskMinAvailable(spec.tasks) ==> MinimaReached(spec, s)))
  }

  /** From phase `p` the counts `s` lead to `s'`: only the phase and, on entering restarting, the retry count change. */
  predicate Judged(spec: Spec, p: Phase, action: Action, s: Status, s': Status) {
    var entered := s'.phase == Restarting && p != Restarting;
    s' == s.(phase := s'.phase, retry := s.retry + if entered then 1 else 0) &&
    (Told(p, action) ==> s'.phase == ToldTo(action)) &&
    (!Told(p, action) ==>
      (p in {Unset, Pending} ==>
        if s.tally.running + s.tally.succeeded + s.tally.failed >= spec.minAvailable then s'.phase == Running else s'.phase == Pending) &&
      (p == Running ==>
        (s'.phase == Completed <==> TotalTasks(spec.tasks) > 0 && Successful(spec, s)) &&
        (s'.phase == Failed <==> TotalTasks(spec.tasks) > 0 && EveryReplicaFinished(spec, s) && !Successful(spec, s)) &&
        s'.phase in {Running, Completed, Failed}) &&
      (p == Restarting ==>
        (s'.phase == Failed <==> s.retry >= spec.maxRetry) &&
        (s'.phase == Pending <==> s.retry < spec.maxRetry && s.minAvailable + s.tally.terminating <= TotalTasks(spec.tasks)) &&
        s'.phase in {Restarting, Failed, Pending}) &&
      (p in {Aborting, Completing, Terminating} ==>
        s'.phase == if s.tally.terminating + s.tally.pending + s.tally.running > 0 then p
                    else if p == Aborting then Aborted else if p == Completing then Completed else Terminated) &&
      (p in {Aborted, Completed, Terminated, Failed} ==> s'.phase == p))
  }

  /** What each phase plans for an action is what the counts call for. */
  lemma PlanJudges(spec: Spec, p: Phase, action: Action, s: Status)
    requires s.phase == (if p == Unset && Synchronizes(p, action) then Pending else p)
    ensures match PlanOf(spec, p, action)
            case Kill(retain, update) => !Synchronizes(p, action) && Judged(spec, p, action, s, Applied(update, s)) &&
                                         retain == (if SparesNobody(p, action) then NONE else SOFT)
            case Sync(change) => Synchronizes(p, action) && Judged(spec, p, action, s, change(s))
  {
    hide TotalTasks, TotalTaskMinAvailable, TaskShort;
    if p == Running {
      MinimaOrShort(spec, s);
    }
  }

  lemma MinimaOrShort(spec: Spec, s: Status)
    ensures MinimaReached(spec, s) <==> !TaskShort(spec.tasks, s.tasks)
  {
    if i :| 0 <= i < |spec.tasks| && spec.tasks[i].minAvailable.Some? && spec.tasks[i].name in s.tasks &&
            s.tasks[spec.tasks[i].name].succeeded < spec.tasks[i].minAvailable.value {
      assert spec.tasks[i] in spec.tasks;
    }
  }

  // ----- runs

  /** A new job gets the pending phase. */
  function Initiated(spec: Spec, s: Status): Status {
    if s.phase == Unset then s.(phase := Pending, minAvailable := spec.minAvailable) else s
  }

  /** Counting pods changes neither phase nor retries. */
  predicate SameRun(s: Status, counted: Status) {
    counted.phase == s.phase && counted.retry == s.retry
  }

  /** One action taken to its end, over some pods or some counts. */
  ghost predicate Acted(spec: Spec, s: Status, action: Action, s': Status) {
    match PlanOf(spec, s.phase, action)
    case Kill(retain, update) => exists pods: map<PodKey, Pod> :: s' == Applied(update, KillCounts(spec, s, pods, retain))
    case Sync(change) => exists counted :: SameRun(Initiated(spec, s), counted) && s' == change(counted)
  }

  /** One step of a job's stored status: nothing saved, only the initiation saved, or an action's outcome saved. */
  ghost predicate Step(spec: Spec, s: Status, s': Status) {
    s' == s || s' == Initiated(spec, s) || exists action :: Acted(spec, s, action, s')
  }

  /** The moves a job can make. */
  predicate Move(spec: Spec, s: Status, s': Status) {
    (s'.phase == s.phase && s'.retry == s.retry) ||
    (s.phase == Unset && s'.phase == Pending && s'.retry == s.retry) ||
    (s'.phase == Restarting && s'.retry == s.retry + 1 && s.phase in {Unset, Pending, Running, Aborting, Aborted}) ||
    (s.phase == Restarting && s'.retry == s.retry && s'.phase == (if s.retry >= spec.maxRetry then Failed else Pending)) ||
    (s'.retry == s.retry && s.phase in {Unset, Pending, Running} && s'.phase in {Running, Aborting, Completing, Terminating}) ||
    (s'.retry == s.retry && s.phase == Running && s'.phase in {Completed, Failed}) ||
    (s'.retry == s.retry && (s.phase, s'.phase) in {(Aborting, Aborted), (Completing, Completed), (Terminating, Terminated)})
  }

  lemma StepsAreMoves(spec: Spec, s: Status, s': Status)
    requires Step(spec, s, s')
    ensures Move(spec, s, s')
  {
    hide TallyOf, TasksOf, TotalTasks, TaskShort, TotalTaskMinAvailable;
    if s' != s && s' != Initiated(spec, s) {
      var action :| Acted(spec, s, action, s');
      ActionsAreMoves(spec, s, action, s');
    }
  }

  lemma ActionsAreMoves(spec: Spec, s: Status, action: Action, s': Status)
    requires Acted(spec, s, action, s')
    ensures Move(spec, s, s')
  {
    hide TallyOf, TasksOf, TotalTasks, TaskShort, TotalTaskMinAvailable, Killing, Staying;
  }

  /** A run of the stored status. */
  ghost predicate Run(spec: Spec, run: seq<Status>) {
    forall i | 0 <= i < |run| - 1 :: Step(spec, run[i], run[i + 1])
  }

  /** How often the job came back from restarting. */
  function Restarts(run: seq<Status>): nat {
    if |run| < 2 then 0
    else Restarts(run[..|run| - 1]) + if run[|run| - 2].phase == Restarting && run[|run| - 1].phase == Pending then 1 else 0
  }

  function Finished(p: Phase): bool {
    p == Completed || p == Failed || p == Terminated
  }

  function Retries(spec: Spec): nat {
    if spec.maxRetry <= 1 then 0 else spec.maxRetry - 1
  }

  /** Every return from restarting used up one retry, and a job that may still return has retries left. */
  ghost predicate RetryAccount(spec: Spec, run: seq<Status>) {
    run != [] &&
    var s := run[|run| - 1];
    Restarts(run) + (if s.phase == Restarting then 1 else 0) <= s.retry && Restarts(run) <= Retries(spec) &&
    (s.phase != Restarting && !Finished(s.phase) && s.phase != Completing && s.phase != Terminating ==> s.retry == 0 || s.retry < spec.maxRetry) &&
    (s.retry <= 1 || s.retry <= spec.maxRetry)
  }

  /**
   Over any run of a new job it comes back from restarting at most `maxRetry - 1` times, and its retry count
   never exceeds the limit (or one, for a limit below one).
   */
  lemma {:induction false} RestartsAreBounded(spec: Spec, run: seq<Status>)
    requires run != [] && Run(spec, run) && run[0].phase in {Unset, Pending} && run[0].retry == 0
    ensures RetryAccount(spec, run)
    decreases |run|
  {
    hide Step, Move;
    if |run| > 1 {
      var before, s, s' := run[..|run| - 1], run[|run| - 2], run[|run| - 1];
      assert before[|before| - 1] == s;
      RestartsAreBounded(spec, before);
      assert Step(spec, run[|run| - 2], run[|run| - 2 + 1]);
      StepsAreMoves(spec, s, s');
      AccountAfterMove(spec, Restarts(before), s, s');
    }
  }

  lemma AccountAfterMove(spec: Spec, n: nat, s: Status, s': Status)
    requires Move(spec, s, s')
    requires n + (if s.phase == Restarting then 1 else 0) <= s.retry && n <= Retries(spec)
    requires s.phase != Restarting && !Finished(s.phase) && s.phase != Completing && s.phase != Terminating ==> s.retry == 0 || s.retry < spec.maxRetry
    requires s.retry <= 1 || s.retry <= spec.maxRetry
    ensures var n' := n + if s.phase == Restarting && s'.phase == Pending then 1 else 0;
            n' + (if s'.phase == Restarting then 1 else 0) <= s'.retry && n' <= Retries(spec)
    ensures s'.phase != Restarting && !Finished(s'.phase) && s'.phase != Completing && s'.phase != Terminating ==> s'.retry == 0 || s'.retry < spec.maxRetry
    ensures s'.retry <= 1 || s'.retry <= spec.maxRetry
  {
  }

  /** A finished job stays as it finished, over any run. */
  lemma {:induction false} FinishedIsFinal(spec: Spec, run: seq<Status>, i: nat, j: nat)
    requires Run(spec, run) && i <= j < |run| && Finished(run[i].phase)
    ensures run[j].phase == run[i].phase
    decreases j
  {
    if i < j {
      FinishedIsFinal(spec, run, i, j - 1);
      assert Step(spec, run[j - 1], run[j - 1 + 1]);
      StepsAreMoves(spec, run[j - 1], run[j]);
    }
  }

  /** Aborting, completing and terminating end only over pods that all have finished. */
  lemma EndsWhenAllFinished(spec: Spec, s: Status, pods: map<PodKey, Pod>, action: Action)
    requires s.phase in {Aborting, Completing, Terminating} && !(s.phase == Aborting && action == ResumeJob)
    ensures var plan := PlanOf(spec, s.phase, action);
            plan.Kill? && (Applied(plan.update, KillCounts(spec, s, pods, plan.retain)).phase != s.phase <==>
                           forall k | k in pods :: pods[k].phase in SOFT && !pods[k].deleting)
  {
    hide TallyOf, TasksOf;
    SoftKillCounts(spec, s, pods);
    AllFinished(spec, s, pods);
  }

  // ----- the controller's operations

  /**
   How the API server answers during one call. `deleteFails` tells the deletions that fail, `creates` the
   phase of a created pod or that it could not be created; `prepared` covers the queue, the plugins and the
   pod group, `scheduled` that the pod group is past pending.
   */
  datatype World = World(
    deleteFails: PodKey -> bool, creates: PodKey -> Option<PodPhase>,
    initiated: bool, prepared: bool, scheduled: bool, saved: bool, cleaned: bool)

  /** Pod names within a task differ, and so do the names of a job's tasks. */
  ghost predicate NamesOk(tasks: seq<TaskSpec>, name: (string, nat) -> string) {
    (forall i, j | 0 <= i < j < |tasks| :: tasks[i].name != tasks[j].name) &&
    (forall t, i: nat, j: nat | i != j :: name(t, i) != name(t, j))
  }

  ghost function Replicas(task: string, n: nat, name: (string, nat) -> string): set<PodKey> {
    set i: nat | i < n :: PodKey(task, name(task, i))
  }

  /** The pods a job should have. */
  ghost function Desired(tasks: seq<TaskSpec>, name: (string, nat) -> string): set<PodKey> {
    if tasks == [] then {}
    else
      var last := tasks[|tasks| - 1];
      Desired(tasks[..|tasks| - 1], name) + Replicas(last.name, last.replicas, name)
  }

  ghost predicate OfTask(tasks: seq<TaskSpec>, task: string) {
    exists i | 0 <= i < |tasks| :: tasks[i].name == task
  }

  /** Pods filed under a task of the job that it should not have. */
  ghost function Stale(tasks: seq<TaskSpec>, name: (string, nat) -> string, pods: map<PodKey, Pod>): set<PodKey> {
    set k | k in pods && OfTask(tasks, k.task) && k !in Desired(tasks, name)
  }

  /** What a pod counts as in a successful sync: present pods by phase, created ones by the server's answer, stale ones as terminating. */
  ghost function Syncing(spec: Spec, name: (string, nat) -> string, pods: map<PodKey, Pod>, w: World): PodKey -> Class {
    var desired := Desired(spec.tasks, name);
    k => if k !in desired then IsTerminating
         else if k in pods then (if pods[k].deleting then IsTerminating else ByPhase(pods[k].phase))
         else if w.creates(k).Some? then ByPhase(w.creates(k).value)
         else IsUnknown
  }

  /** For its task's counts a created pod is taken as it was sent, so its phase is unknown. */
  function SyncedAs(pods: map<PodKey, Pod>): PodKey -> Class {
    k => if k in pods then ByPhase(pods[k].phase) else IsUnknown
  }

  function SyncedFor(pods: map<PodKey, Pod>): PodKey -> Option<string> {
    k => if k !in pods then Some(k.task) else if pods[k].deleting then None else pods[k].task
  }

  /** The status with the counts of a successful sync. */
  ghost function SyncCounts(spec: Spec, name: (string, nat) -> string, s: Status, pods: map<PodKey, Pod>, w: World): Status {
    Status(s.phase, s.retry, s.version, spec.minAvailable,
      TallyOf(Desired(spec.tasks, name) + Stale(spec.tasks, name, pods), Syncing(spec, name, pods, w)),
      TasksOf(Desired(spec.tasks, name), SyncedFor(pods), SyncedAs(pods)))
  }

  lemma {:induction false} DesiredOfTask(tasks: seq<TaskSpec>, name: (string, nat) -> string, k: PodKey)
    requires k in Desired(tasks, name)
    ensures OfTask(tasks, k.task)
  {
    var init, last := tasks[..|tasks| - 1], tasks[|tasks| - 1];
    if k in Desired(init, name) {
      DesiredOfTask(init, name, k);
      var i :| 0 <= i < |init| && init[i].name == k.task;
      assert tasks[i].name == k.task;
    } else {
      assert k in Replicas(last.name, last.replicas, name);
      assert tasks[|tasks| - 1].name == k.task;
    }
  }

  lemma {:induction false} ReplicasCount(task: string, n: nat, name: (string, nat) -> string)
    requires forall i: nat, j: nat | i != j :: name(task, i) != name(task, j)
    ensures |Replicas(task, n, name)| == n
    decreases n
  {
    if n > 0 {
      ReplicasCount(task, n - 1, name);
      ReplicasNext(task, n - 1, name);
    } else {
      assert Replicas(task, n, name) == {};
    }
  }

  lemma ReplicasNext(task: string, n: nat, name: (string, nat) -> string)
    requires forall i: nat, j: nat | i != j :: name(task, i) != name(task, j)
    ensures Replicas(task, n + 1, name) == Replicas(task, n, name) + {PodKey(task, name(task, n))}
    ensures PodKey(task, name(task, n)) !in Replicas(task, n, name)
  {
  }

  /** The names of a task are no names of the tasks before it. */
  lemma Separate(tasks: seq<TaskSpec>, name: (string, nat) -> string, n: nat)
    requires NamesOk(tasks, name) && n < |tasks|
    ensures !OfTask(tasks[..n], tasks[n].name) && NamesOk(tasks[..n], name)
    ensures forall k | k in Desired(tasks[..n], name) :: k.task != tasks[n].name
  {
    forall k | k in Desired(tasks[..n], name) ensures k.task != tasks[n].name {
      DesiredOfTask(tasks[..n], name, k);
    }
  }

  lemma {:induction false} DesiredCount(tasks: seq<TaskSpec>, name: (string, nat) -> string)
    requires NamesOk(tasks, name)
    ensures |Desired(tasks, name)| == TotalTasks(tasks)
    decreases |tasks|
  {
    if tasks != [] {
      var n := |tasks| - 1;
      Separate(tasks, name, n);
      DesiredCount(tasks[..n], name);
      var own := Replicas(tasks[n].name, tasks[n].replicas, name);
      ReplicasCount(tasks[n].name, tasks[n].replicas, name);
      assert Desired(tasks[..n], name) !! own;
      assert Desired(tasks, name) == Desired(tasks[..n], name) + own;
    }
  }

  /** A successful sync counts every replica of the job once, and every stale pod once, as terminating. */
  lemma SyncCountsEverybody(spec: Spec, name: (string, nat) -> string, s: Status, pods: map<PodKey, Pod>, w: World)
    requires NamesOk(spec.tasks, name)
    ensures var t := SyncCounts(spec, name, s, pods, w).tally;
            Everybody(t) == TotalTasks(spec.tasks) + |Stale(spec.tasks, name, pods)| &&
            t.terminating >= |Stale(spec.tasks, name, pods)|
  {
    hide NamesOk, TotalTasks, TasksOf;
    var desired, stale, sync := Desired(spec.tasks, name), Stale(spec.tasks, name, pods), Syncing(spec, name, pods, w);
    DesiredCount(spec.tasks, name);
    EverybodyCounted(desired + stale, sync);
    assert |desired + stale| == |desired| + |stale|;
    StaleTerminating(spec, name, pods, w);
  }

  lemma StaleTerminating(spec: Spec, name: (string, nat) -> string, pods: map<PodKey, Pod>, w: World)
    ensures TallyOf(Desired(spec.tasks, name) + Stale(spec.tasks, name, pods), Syncing(spec, name, pods, w)).terminating >= |Stale(spec.tasks, name, pods)|
  {
    hide NamesOk, Desired;
    var desired, stale, sync := Desired(spec.tasks, name), Stale(spec.tasks, name, pods), Syncing(spec, name, pods, w);
    var leaving := Those(desired + stale, sync, IsTerminating);
    assert stale <= leaving;
    assert leaving == stale + (leaving - stale);
  }

  /** In the counts of a sync every replica is finished exactly if each of the job's pods is. */
  lemma FinishedOverPods(spec: Spec, name: (string, nat) -> string, s: Status, pods: map<PodKey, Pod>, w: World)
    requires NamesOk(spec.tasks, name)
    ensures EveryReplicaFinished(spec, SyncCounts(spec, name, s, pods, w)) <==>
            forall k | k in Desired(spec.tasks, name) :: Syncing(spec, name, pods, w)(k) in {IsSucceeded, IsFailed}
  {
    hide NamesOk, TotalTasks, TasksOf, TallyOf, Desired, Stale, Syncing;
    var desired, stale, sync := Desired(spec.tasks, name), Stale(spec.tasks, name, pods), Syncing(spec, name, pods, w);
    DesiredCount(spec.tasks, name);
    TallyIs(desired + stale, sync, IsSucceeded);
    TallyIs(desired + stale, sync, IsFailed);
    var good, bad := Those(desired + stale, sync, IsSucceeded), Those(desired + stale, sync, IsFailed);
    forall k | k in good + bad ensures k in desired {
      CountedTwice(spec, name, pods, w, k, sync(k));
    }
    CardDisjoint(good, bad);
    SameCount(good + bad, desired);
  }

  function CountOf(t: Tally, c: Class): nat {
    match c
    case IsPending => t.pending
    case IsRunning => t.running
    case IsSucceeded => t.succeeded
    case IsFailed => t.failed
    case IsTerminating => t.terminating
    case IsUnknown => t.unknown
  }

  /** The counts of all tasks for one class, added up. */
  ghost function PerTask(tasks: map<string, Tally>, c: Class): int {
    Sum(map t | t in tasks :: CountOf(tasks[t], c))
  }

  ghost function CountedFor(keys: set<PodKey>, task: PodKey -> Option<string>, sort: PodKey -> Class, c: Class): set<PodKey> {
    set k | k in keys && task(k).Some? && sort(k) == c
  }

  lemma BumpCounts(t: Tally, sort: Class, c: Class)
    ensures CountOf(Bump(t, sort), c) == CountOf(t, c) + if sort == c then 1 else 0
    ensures CountOf(NOBODY, c) == 0
  {
  }

  lemma PerTaskBump(tasks: map<string, Tally>, task: Option<string>, sort: Class, c: Class)
    ensures PerTask(BumpTask(tasks, task, sort), c) == PerTask(tasks, c) + if task.Some? && sort == c then 1 else 0
  {
    hide Bump, CountOf;
    if task.Some? {
      var was := if task.value in tasks then tasks[task.value] else NOBODY;
      var counts: map<string, int> := map t | t in tasks :: CountOf(tasks[t], c);
      var tasks' := BumpTask(tasks, task, sort);
      var counts': map<string, int> := map t | t in tasks' :: CountOf(tasks'[t], c);
      BumpCounts(was, sort, c);
      assert counts' == counts[task.value := CountOf(Bump(was, sort), c)];
      SumPut(counts, task.value, CountOf(Bump(was, sort), c));
    }
  }

  lemma CountedForAdd(keys: set<PodKey>, task: PodKey -> Option<string>, sort: PodKey -> Class, c: Class, k: PodKey)
    requires k !in keys
    ensures |CountedFor(keys + {k}, task, sort, c)| == |CountedFor(keys, task, sort, c)| + if task(k).Some? && sort(k) == c then 1 else 0
    ensures CountedFor({}, task, sort, c) == {}
  {
    var before, after := CountedFor(keys, task, sort, c), CountedFor(keys + {k}, task, sort, c);
    if task(k).Some? && sort(k) == c {
      assert after == before + {k};
    } else {
      assert after == before;
    }
  }

  /** The per-task counts add up to the number of pods counted for some task. */
  lemma {:induction false} PerTaskCounts(keys: set<PodKey>, task: PodKey -> Option<string>, sort: PodKey -> Class, c: Class)
    ensures PerTask(TasksOf(keys, task, sort), c) == |CountedFor(keys, task, sort, c)|
    decreases keys
  {
    hide TasksOf, BumpTask, PerTask, CountedFor;
    if keys == {} {
      TasksNone(task, sort);
      NoTaskNoCount(c);
      CountedForAdd(keys, task, sort, c, PodKey("", ""));
    } else {
      var k :| k in keys;
      var rest := keys - {k};
      PerTaskCounts(rest, task, sort, c);
      TasksAdd(rest, task, sort, k);
      assert rest + {k} == keys;
      PerTaskBump(TasksOf(rest, task, sort), task(k), sort(k), c);
      CountedForAdd(rest, task, sort, c, k);
    }
  }

  lemma NoTaskNoCount(c: Class)
    ensures PerTask(map[], c) == 0
  {
  }

  /** How one pod is counted in the totals and for its task. */
  lemma CountedTwice(spec: Spec, name: (string, nat) -> string, pods: map<PodKey, Pod>, w: World, k: PodKey, c: Class)
    requires c != IsTerminating
    ensures Syncing(spec, name, pods, w)(k) == c ==> k in Desired(spec.tasks, name)
    ensures k in Desired(spec.tasks, name) && k in pods ==>
              ((SyncedFor(pods)(k).Some? && SyncedAs(pods)(k) == c) <==> (Syncing(spec, name, pods, w)(k) == c && pods[k].task.Some?))
    ensures k in Desired(spec.tasks, name) && k !in pods ==> SyncedFor(pods)(k).Some? && SyncedAs(pods)(k) == IsUnknown
  {
    hide Desired;
  }

  lemma SameCount<T>(a: set<T>, b: set<T>)
    requires a <= b
    ensures |a| <= |b| && (|a| == |b| <==> b <= a)
  {
    CardDisjoint(a, b - a);
    assert a + (b - a) == b;
  }

  /**
   For pending, running, succeeded and failed pods the per-task counts add up to at most the total, and to
   the total exactly if every pod counted there was present and has a task annotation: created pods are
   missing from these counts.
   */
  lemma TaskCountsAddUp(spec: Spec, name: (string, nat) -> string, s: Status, pods: map<PodKey, Pod>, w: World, c: Class)
    requires c in {IsPending, IsRunning, IsSucceeded, IsFailed}
    ensures var counted := SyncCounts(spec, name, s, pods, w);
            PerTask(counted.tasks, c) <= CountOf(counted.tally, c) &&
            (PerTask(counted.tasks, c) == CountOf(counted.tally, c) <==>
             forall k | k in Desired(spec.tasks, name) && Syncing(spec, name, pods, w)(k) == c :: k in pods && pods[k].task.Some?)
  {
    hide TallyOf, TasksOf, PerTask, Desired, Stale, Syncing, SyncedFor, SyncedAs;
    var desired, stale, sync := Desired(spec.tasks, name), Stale(spec.tasks, name, pods), Syncing(spec, name, pods, w);
    var a, b := CountedFor(desired, SyncedFor(pods), SyncedAs(pods), c), Those(desired + stale, sync, c);
    PerTaskCounts(desired, SyncedFor(pods), SyncedAs(pods), c);
    TallyIs(desired + stale, sync, c);
    forall k
      ensures k in a <==> k in desired && k in pods && sync(k) == c && pods[k].task.Some?
      ensures k in b <==> k in desired && sync(k) == c
    {
      CountedTwice(spec, name, pods, w, k, c);
    }
    SameCount(a, b);
  }

  /** Created pods that are not unknown by the server's answer. */
  ghost function KnownNew(desired: set<PodKey>, pods: map<PodKey, Pod>, sync: PodKey -> Class): set<PodKey> {
    set k | k in desired && k !in pods && sync(k) != IsUnknown
  }

  /** Present unknown pods without a task annotation. */
  ghost function BareUnknown(desired: set<PodKey>, pods: map<PodKey, Pod>, sync: PodKey -> Class): set<PodKey> {
    set k | k in desired && k in pods && sync(k) == IsUnknown && pods[k].task.None?
  }

  /** For unknown pods they agree exactly if as many created pods were not unknown as present unknown ones lack the annotation. */
  lemma UnknownCountsAddUp(spec: Spec, name: (string, nat) -> string, s: Status, pods: map<PodKey, Pod>, w: World)
    ensures var counted, sync := SyncCounts(spec, name, s, pods, w), Syncing(spec, name, pods, w);
            PerTask(counted.tasks, IsUnknown) - CountOf(counted.tally, IsUnknown) ==
            |KnownNew(Desired(spec.tasks, name), pods, sync)| - |BareUnknown(Desired(spec.tasks, name), pods, sync)|
  {
    hide TallyOf, TasksOf, PerTask, Desired, Stale, Syncing, SyncedFor, SyncedAs, CountedFor, Those, KnownNew, BareUnknown, CountOf;
    var desired, stale, sync := Desired(spec.tasks, name), Stale(spec.tasks, name, pods), Syncing(spec, name, pods, w);
    PerTaskCounts(desired, SyncedFor(pods), SyncedAs(pods), IsUnknown);
    TallyIs(desired + stale, sync, IsUnknown);
    UnknownSets(spec, name, pods, w);
    Exchanged(CountedFor(desired, SyncedFor(pods), SyncedAs(pods), IsUnknown), BareUnknown(desired, pods, sync),
              Those(desired + stale, sync, IsUnknown), KnownNew(desired, pods, sync));
  }

  lemma UnknownSets(spec: Spec, name: (string, nat) -> string, pods: map<PodKey, Pod>, w: World)
    ensures var desired, sync := Desired(spec.tasks, name), Syncing(spec, name, pods, w);
            var a, b := CountedFor(desired, SyncedFor(pods), SyncedAs(pods), IsUnknown), Those(desired + Stale(spec.tasks, name, pods), sync, IsUnknown);
            var bare, known := BareUnknown(desired, pods, sync), KnownNew(desired, pods, sync);
            a !! bare && b !! known && a + bare == b + known
  {
    hide Desired, Stale, Syncing, SyncedFor, SyncedAs;
    var desired, sync := Desired(spec.tasks, name), Syncing(spec, name, pods, w);
    var a, b := CountedFor(desired, SyncedFor(pods), SyncedAs(pods), IsUnknown), Those(desired + Stale(spec.tasks, name, pods), sync, IsUnknown);
    forall k
      ensures k in a <==> k in desired && (k in pods ==> sync(k) == IsUnknown && pods[k].task.Some?)
      ensures k in b <==> k in desired && sync(k) == IsUnknown
    {
      CountedTwice(spec, name, pods, w, k, IsUnknown);
    }
  }

  lemma Exchanged<T>(a: set<T>, x: set<T>, b: set<T>, y: set<T>)
    requires a !! x && b !! y && a + x == b + y
    ensures |a| - |b| == |y| - |x|
  {
    CardDisjoint(a, x);
    CardDisjoint(b, y);
  }

  lemma TallyIs(keys: set<PodKey>, sort: PodKey -> Class, c: Class)
    ensures CountOf(TallyOf(keys, sort), c) == |Those(keys, sort, c)|
  {
  }

  /** A pod that is to go can be deleted. */
  predicate Killed(pod: Pod, kept: set<PodPhase>, fails: bool) {
    pod.deleting || pod.phase in kept || !fails
  }

  ghost predicate Killable(pods: map<PodKey, Pod>, kept: set<PodPhase>, w: World) {
    forall k | k in pods :: Killed(pods[k], kept, w.deleteFails(k))
  }

  lemma NoTask(tasks: map<string, Tally>, sort: Class)
    ensures BumpTask(tasks, None, sort) == tasks
  {
  }

  /** The pods of a job and its status, as the controller's cache holds them. */
  class JobController {
    const spec: Spec
    const name: (string, nat) -> string
    var deleting: bool
    var status: Status
    var pods: map<PodKey, Pod>

    constructor (spec: Spec, name: (string, nat) -> string, status: Status, pods: map<PodKey, Pod>, deleting: bool)
      ensures this.spec == spec && this.name == name && this.status == status && this.pods == pods && this.deleting == deleting
    {
      this.spec, this.name, this.status, this.pods, this.deleting := spec, name, status, pods, deleting;
    }

    /** killJob: nothing is saved unless every deletion succeeds. */
    method KillJob(retain: set<PodPhase>, update: Option<Status -> Status>, w: World) returns (ok: bool)
      modifies this`status
      ensures status == old(status) || status == Applied(update, KillCounts(spec, old(status), pods, retain))
      ensures ok ==> if deleting then status == old(status)
                     else status == Applied(update, KillCounts(spec, old(status), pods, retain))
      ensures deleting || Killable(pods, Retained(spec, old(status), retain), w) || (!ok && status == old(status))
      ensures ok <==> deleting || (Killable(pods, Retained(spec, old(status), retain), w) && w.saved && w.cleaned)
    {
      hide TallyOf, TasksOf, Bump, BumpTask;
      if deleting {
        return true;
      }
      var tally, tasks, failures := NOBODY, map[], 0;
      var todo := pods.Keys;
      ghost var kept := Retained(spec, status, retain);
      ghost var done: set<PodKey> := {};
      TallyNone(Killing(pods, kept));
      TasksNone(Staying(pods, kept), Killing(pods, kept));
      while todo != {}
        invariant todo <= pods.Keys && done == pods.Keys - todo
        invariant status == old(status)
        invariant failures == 0 ==> forall k | k in done :: Killed(pods[k], kept, w.deleteFails(k))
        invariant failures > 0 ==> exists k | k in done :: !Killed(pods[k], kept, w.deleteFails(k))
        invariant failures == 0 ==> tally == TallyOf(done, Killing(pods, kept)) && tasks == TasksOf(done, Staying(pods, kept), Killing(pods, kept))
        decreases todo
      {
        var k :| k in todo;
        todo := todo - {k};
        TallyAdd(done, Killing(pods, kept), k);
        TasksAdd(done, Staying(pods, kept), Killing(pods, kept), k);
        done := done + {k};
        NoTask(tasks, Killing(pods, kept)(k));
        var pod := pods[k];
        if pod.deleting {
          tally := Bump(tally, IsTerminating);
          continue;
        }
        var lastRetry := status.retry >= spec.maxRetry - 1;
        var retainPhase := if lastRetry then SOFT else retain;
        if pod.phase !in retainPhase {
          if !w.deleteFails(k) {
            tally := Bump(tally, IsTerminating);
            continue;
          }
          failures := failures + 1;
          assert !Killed(pods[k], kept, w.deleteFails(k));
        }
        tally := Bump(tally, ByPhase(pod.phase));
        tasks := BumpTask(tasks, pod.task, ByPhase(pod.phase));
      }
      assert done == pods.Keys;
      if failures > 0 {
        assert !Killable(pods, kept, w);
        return false;
      }
      var job := status.(version := status.version + 1, tally := tally, tasks := tasks);
      job := Applied(update, job);
      if !w.saved {
        return false;
      }
      status := job;
      return w.cleaned;
    }

    /** The Execute of the job's state. */
    method Execute(action: Action, w: World) returns (ok: bool)
      requires NamesOk(spec.tasks, name)
      modifies this`status
      ensures Step(spec, old(status), status)
      ensures ok && deleting ==> status == old(status)
      ensures ok && !deleting ==> Judged(spec, old(status).phase, action, Counted(old(status), action, w), status)
      ensures ok || status == old(status) || status == Initiated(spec, old(status)) ||
              Judged(spec, old(status).phase, action, Counted(old(status), action, w), status)
    {
      hide TallyOf, TasksOf, TotalTasks, TaskShort, TotalTaskMinAvailable, Desired, Stale, NamesOk, Judged, SyncCounts, KillCounts, Killable, Servable, Retained;
      var plan := PlanOf(spec, status.phase, action);
      CountingKeepsPhase(status, action, w);
      PlanJudges(spec, old(status).phase, action, Counted(old(status), action, w));
      match plan {
        case Kill(retain, update) =>
          ok := KillJob(retain, update, w);
          assert status == old(status) || Acted(spec, old(status), action, status);
        case Sync(change) =>
          ok := SyncJob(change, w);
          ghost var counted := Synced(old(status), w);
          assert status == change(counted) ==> SameRun(Initiated(spec, old(status)), counted);
          assert status == old(status) || status == Initiated(spec, old(status)) || Acted(spec, old(status), action, status);
      }
    }

    /** The counts an action goes by: of a sync while the job is to have its pods, of a kill once they are to go. */
    ghost function Counted(s: Status, action: Action, w: World): Status
      reads this`pods
    {
      if Synchronizes(s.phase, action) then Synced(s, w)
      else KillCounts(spec, s, pods, if SparesNobody(s.phase, action) then NONE else SOFT)
    }

    lemma CountingKeepsPhase(s: Status, action: Action, w: World)
      ensures SameRun(if Synchronizes(s.phase, action) then Initiated(spec, s) else s, Counted(s, action, w))
    {
    }

    /**
     syncJob: desired pods are counted or created, stale ones deleted. The outcome is saved only if nothing
     failed; while the pod group is pending the old counts are judged again.
     */
    method SyncJob(change: Status -> Status, w: World) returns (ok: bool)
      requires NamesOk(spec.tasks, name)
      modifies this`status
      ensures status == old(status) || status == Initiated(spec, old(status)) ||
              (!deleting && status == change(Synced(old(status), w)))
      ensures ok ==> status == if deleting then old(status) else change(Synced(old(status), w))
      ensures ok <==> deleting || ((old(status).phase == Unset ==> w.initiated) && w.prepared && w.saved && (w.scheduled ==> Servable(w)))
    {
      hide TallyOf, TasksOf, Desired, Stale, NamesOk, Bump, BumpTask;
      if deleting {
        return true;
      }
      if status.phase == Unset {
        if !w.initiated {
          return false;
        }
        status := Initiated(spec, status);
      }
      if !w.prepared {
        return false;
      }
      if !w.scheduled {
        var job := change(status);
        if !w.saved {
          return false;
        }
        status := job;
        return true;
      }
      var tally, tasks, toCreate, toDelete := Partition(w);
      var created: bool;
      created, tally, tasks := CreatePods(toCreate, tally, tasks, w);
      if !created {
        return false;
      }
      var deleted: bool;
      deleted, tally := DeletePods(toDelete, tally, w);
      if !deleted {
        return false;
      }
      var job := Status(status.phase, status.retry, status.version, spec.minAvailable, tally, tasks);
      job := change(job);
      if !w.saved {
        return false;
      }
      status := job;
      return true;
    }

    /** The status a sync judges: with fresh counts, or with the old ones while the pod group is pending. */
    ghost function Synced(s: Status, w: World): Status
      reads this`pods
    {
      var s' := Initiated(spec, s);
      if w.scheduled then SyncCounts(spec, name, s', pods, w) else s'
    }

    /** Every missing pod can be created and every stale one deleted. */
    ghost predicate Servable(w: World)
      reads this`pods
    {
      (forall k | k in Desired(spec.tasks, name) - pods.Keys :: w.creates(k).Some?) &&
      (forall k | k in Stale(spec.tasks, name, pods) :: !w.deleteFails(k))
    }

    ghost function Present(): set<PodKey>
      reads this`pods
    {
      set k | k in Desired(spec.tasks, name) && k in pods
    }

    /** Counts the desired pods that are there; the others are to be created, and stale ones deleted. */
    method Partition(ghost w: World) returns (tally: Tally, tasks: map<string, Tally>, toCreate: set<PodKey>, toDelete: set<PodKey>)
      requires NamesOk(spec.tasks, name)
      ensures toCreate == Desired(spec.tasks, name) - pods.Keys && toDelete == Stale(spec.tasks, name, pods)
      ensures tally == TallyOf(Present(), Syncing(spec, name, pods, w)) && tasks == TasksOf(Present(), SyncedFor(pods), SyncedAs(pods))
    {
      hide TallyOf, TasksOf, Bump, BumpTask, NamesOk, Desired, Stale, Replicas;
      tally, tasks, toCreate, toDelete := NOBODY, map[], {}, {};
      TallyNone(Syncing(spec, name, pods, w));
      TasksNone(SyncedFor(pods), SyncedAs(pods));
      var n := 0;
      NoTasks(name, pods);
      assert spec.tasks[..0] == [] && Desired([], name) * pods.Keys == {};
      while n < |spec.tasks|
        invariant 0 <= n <= |spec.tasks|
        invariant toCreate == Desired(spec.tasks[..n], name) - pods.Keys && toDelete == Stale(spec.tasks[..n], name, pods)
        invariant tally == TallyOf(Desired(spec.tasks[..n], name) * pods.Keys, Syncing(spec, name, pods, w))
        invariant tasks == TasksOf(Desired(spec.tasks[..n], name) * pods.Keys, SyncedFor(pods), SyncedAs(pods))
      {
        var task := spec.tasks[n];
        var rest := set k | k in pods && k.task == task.name;
        ghost var before := Desired(spec.tasks[..n], name);
        ghost var seen := before;
        NoReplicas(task.name, name);
        var i := 0;
        while i < task.replicas
          invariant 0 <= i <= task.replicas
          invariant seen == before + Replicas(task.name, i, name)
          invariant rest == (set k | k in pods && k.task == task.name) - Replicas(task.name, i, name)
          invariant toCreate == seen - pods.Keys
          invariant tally == TallyOf(seen * pods.Keys, Syncing(spec, name, pods, w))
          invariant tasks == TasksOf(seen * pods.Keys, SyncedFor(pods), SyncedAs(pods))
        {
          var k := PodKey(task.name, name(task.name, i));
          NextReplica(spec.tasks, name, n, i);
          NoTask(tasks, SyncedAs(pods)(k));
          if k in rest {
            rest := rest - {k};
            TallyAdd(seen * pods.Keys, Syncing(spec, name, pods, w), k);
            TasksAdd(seen * pods.Keys, SyncedFor(pods), SyncedAs(pods), k);
            assert (seen + {k}) * pods.Keys == seen * pods.Keys + {k};
            if pods[k].deleting {
              tally := Bump(tally, IsTerminating);
            } else {
              tally := Bump(tally, ByPhase(pods[k].phase));
              tasks := BumpTask(tasks, pods[k].task, ByPhase(pods[k].phase));
            }
          } else {
            toCreate := toCreate + {k};
            assert (seen + {k}) * pods.Keys == seen * pods.Keys;
          }
          seen := seen + {k};
          i := i + 1;
        }
        toDelete := toDelete + rest;
        StaleOneMore(spec.tasks, name, n, pods);
        n := n + 1;
      }
      assert spec.tasks[..n] == spec.tasks;
      assert Present() == Desired(spec.tasks, name) * pods.Keys;
    }

    /** Creates pods; true if none failed. */
    method CreatePods(missing: set<PodKey>, tally0: Tally, tasks0: map<string, Tally>, w: World) returns (ok: bool, tally: Tally, tasks: map<string, Tally>)
      requires missing == Desired(spec.tasks, name) - pods.Keys
      requires tally0 == TallyOf(Present(), Syncing(spec, name, pods, w)) && tasks0 == TasksOf(Present(), SyncedFor(pods), SyncedAs(pods))
      ensures ok <==> forall k | k in missing :: w.creates(k).Some?
      ensures ok ==> tally == TallyOf(Desired(spec.tasks, name), Syncing(spec, name, pods, w)) &&
                     tasks == TasksOf(Desired(spec.tasks, name), SyncedFor(pods), SyncedAs(pods))
    {
      hide TallyOf, TasksOf, Desired, Bump, BumpTask;
      ok, tally, tasks := true, tally0, tasks0;
      var todo := missing;
      ghost var done := Present();
      while todo != {}
        invariant todo <= missing && done == Desired(spec.tasks, name) - todo
        invariant ok <==> forall k | k in missing - todo :: w.creates(k).Some?
        invariant ok ==> tally == TallyOf(done, Syncing(spec, name, pods, w)) && tasks == TasksOf(done, SyncedFor(pods), SyncedAs(pods))
        decreases todo
      {
        var k :| k in todo;
        todo := todo - {k};
        TallyAdd(done, Syncing(spec, name, pods, w), k);
        TasksAdd(done, SyncedFor(pods), SyncedAs(pods), k);
        done := done + {k};
        var answer := w.creates(k);
        if answer.None? {
          ok := false;
        } else {
          tally := Bump(tally, ByPhase(answer.value));
          tasks := BumpTask(tasks, Some(k.task), IsUnknown);
        }
      }
      assert done == Desired(spec.tasks, name);
    }

    /** Deletes pods; true if none failed. */
    method DeletePods(stale: set<PodKey>, tally0: Tally, w: World) returns (ok: bool, tally: Tally)
      requires stale == Stale(spec.tasks, name, pods) && tally0 == TallyOf(Desired(spec.tasks, name), Syncing(spec, name, pods, w))
      ensures ok <==> forall k | k in stale :: !w.deleteFails(k)
      ensures ok ==> tally == TallyOf(Desired(spec.tasks, name) + stale, Syncing(spec, name, pods, w))
    {
      hide TallyOf, Desired, Bump;
      ok, tally := true, tally0;
      var todo := stale;
      ghost var done := Desired(spec.tasks, name);
      while todo != {}
        invariant todo <= stale && done == Desired(spec.tasks, name) + (stale - todo)
        invariant ok <==> forall k | k in stale - todo :: !w.deleteFails(k)
        invariant ok ==> tally == TallyOf(done, Syncing(spec, name, pods, w))
        decreases todo
      {
        var k :| k in todo;
        todo := todo - {k};
        TallyAdd(done, Syncing(spec, name, pods, w), k);
        done := done + {k};
        if w.deleteFails(k) {
          ok := false;
        } else {
          tally := Bump(tally, IsTerminating);
        }
      }
      assert done == Desired(spec.tasks, name) + stale;
    }
  }

  lemma NoTasks(name: (string, nat) -> string, pods: map<PodKey, Pod>)
    ensures Desired([], name) == {} && Stale([], name, pods) == {}
  {
  }

  lemma NoReplicas(task: string, name: (string, nat) -> string)
    ensures Replicas(task, 0, name) == {}
  {
  }

  /** The next replica of a task has not been seen, and is desired. */
  lemma NextReplica(tasks: seq<TaskSpec>, name: (string, nat) -> string, n: nat, i: nat)
    requires NamesOk(tasks, name) && n < |tasks| && i < tasks[n].replicas
    ensures var k := PodKey(tasks[n].name, name(tasks[n].name, i));
            k !in Desired(tasks[..n], name) && k !in Replicas(tasks[n].name, i, name) && k in Desired(tasks, name) &&
            Replicas(tasks[n].name, i + 1, name) == Replicas(tasks[n].name, i, name) + {k}
  {
    hide Desired;
    Separate(tasks, name, n);
    ReplicasNext(tasks[n].name, i, name);
    ReplicaDesired(tasks, name, n, i);
  }

  lemma {:induction false} ReplicaDesired(tasks: seq<TaskSpec>, name: (string, nat) -> string, n: nat, i: nat)
    requires n < |tasks| && i < tasks[n].replicas
    ensures PodKey(tasks[n].name, name(tasks[n].name, i)) in Desired(tasks, name)
    decreases |tasks|
  {
    var last := |tasks| - 1;
    if n < last {
      ReplicaDesired(tasks[..last], name, n, i);
    } else {
      assert PodKey(tasks[n].name, name(tasks[n].name, i)) in Replicas(tasks[n].name, tasks[n].replicas, name);
    }
  }

  lemma StaleOneMore(tasks: seq<TaskSpec>, name: (string, nat) -> string, n: nat, pods: map<PodKey, Pod>)
    requires NamesOk(tasks, name) && n < |tasks|
    ensures var task := tasks[n];
            Desired(tasks[..n + 1], name) == Desired(tasks[..n], name) + Replicas(task.name, task.replicas, name) &&
            Stale(tasks[..n + 1], name, pods) ==
            Stale(tasks[..n], name, pods) + ((set k | k in pods && k.task == task.name) - Replicas(task.name, task.replicas, name))
  {
    hide NamesOk, Replicas;
    Separate(tasks, name, n);
    var task := tasks[n];
    assert tasks[..n + 1][..n] == tasks[..n] && tasks[..n + 1][n] == task;
    forall k: PodKey ensures OfTask(tasks[..n + 1], k.task) <==> OfTask(tasks[..n], k.task) || k.task == task.name {
      OfOneMore(tasks, n, k.task);
    }
    assert forall k | k in Replicas(task.name, task.replicas, name) :: k.task == task.name by {
      ReplicasOf(task.name, task.replicas, name);
    }
  }

  lemma ReplicasOf(task: string, n: nat, name: (string, nat) -> string)
    ensures forall k | k in Replicas(task, n, name) :: k.task == task
  {
  }

  lemma OfOneMore(tasks: seq<TaskSpec>, n: nat, t: string)
    requires n < |tasks|
    ensures OfTask(tasks[..n + 1], t) <==> OfTask(tasks[..n], t) || t == tasks[n].name
  {
  }

  lemma TasksNone(task: PodKey -> Option<string>, sort: PodKey -> Class)
    ensures TasksOf({}, task, sort) == map[]
  {
  }
}
