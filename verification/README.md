# A verified model of the Volcano scheduler's ledgers

Volcano schedules batch jobs on Kubernetes. Its scheduler keeps the same facts in several mutable places: a
job's tasks, status index and sums; a node's tasks and its idle, used, releasing and pipelined resources; the
shares of the drf plugin. Every step of every action touches all of them, and the code promises rollback, gang
scheduling and no over-commitment. This project models that code and proves what it promises.

The modules follow the program:

- `Resources.dfy`, `Tasks.dfy`, `JobInfo.dfy`, `NodeInfo.dfy`: resource vectors, tasks, and the two classes
  whose fields are updated in place. `Valid()` says that every incremental field equals its recomputation from
  the tasks; the methods keep it, `AddTaskInfo` under the exact condition it states.
- `Options.dfy` and `Sums.dfy` hold a missing value and sums over maps.
- `Session.dfy`, `Statement.dfy`: the session's operations and the statement that records and undoes them.
  `View()` is the state the ledgers are computed from; `Discard` is proved to be an exact inverse on it, and
  `LedgersRestored` carries that over to the ledgers.
- `Promises.dfy`: what all actions keep. Jobs and nodes agree about every task, and on every node idle plus
  releasing minus pipelined stays non-negative in every dimension.
- `Allocate.dfy`, `Preempt.dfy`, `Reclaim.dfy`, `Enqueue.dfy`: the actions as loops over their heaps, each proved
  to terminate. A ghost log of each run says what was done, and who was served. `VictimSearch.dfy` is the search
  of one preemptor, `Takings.dfy` says who may lose running tasks to whom. `Gang.dfy` and `Votes.dfy` are the gang
  plugin's victims and the tiered votes.
- `Ordering.dfy`, `Quantities.dfy`, `Hdrf.dfy`, `HdrfReclaim.dfy`: job and queue orders, and drf's hierarchical tree
  with its rescaling and its reclaim probes, over real quantities.
- `NodeSearch.dfy`: the lock-free parallel search for nodes, as interleaved atomic actions.
- `Cache.dfy`: the scheduler cache under pod events, bindings and evictions. `Snapshot.dfy` opens a session over it,
  which starts with everything the actions need.
- `AssumeCache.dfy`, `Volumes.dfy`: the volume binder's assume, revert and bind protocol.
- `JobPhases.dfy`: the job controller's phase machine, driven through killJob and syncJob.

Conventions. Quantities of the scheduling core are whole milli-units, as `NewResource` makes them, so that
conservation is exact; `Quantities.ExactOnIntegers` shows that the tolerance of comparisons makes no difference
there. drf, overcommit and the tolerance itself are over reals. Answers of plugins, of the cache, of the API
server and of volume libraries are arbitrary: they are parameters or non-deterministic choices. A precondition
of a method is an assertion, a dereference or a process exit in the source, or an invariant that the other
methods establish.

Where the code surprises:

- `Statement.Allocate` that fails after the job has moved the task leaves the job's allocation behind, without
  a charge and without an operation to undo it. Its contract says so; the actions' guards are proved to exclude
  it.
- `AddTaskInfo` of a task that is filed already counts it twice; its contract says exactly when that shows.
- Cloning a node writes the clone's name into the node's own copies. For a node first heard of through a pod
  that name is empty, so a dry run of `SetNode` takes the node name off its copies until the next clone.
- Queue comparison is no weak order across depths of the hierarchy; `WeakExactlyAtDepths` says for which depths
  it is.
- A drf reclaim probe of a task of the reclaimer's own job drops the reclaimer's request from the tree for all
  later candidates (`OwnProbeLeavesResidue`, `ProbingStep`). Reclaim never passes such tasks.
- A failed `AssumePodVolumes` also drops assumptions that were made before it on the volumes it processed;
  `FailureIsInvisible` says exactly when that shows.
- The number of nodes to find falls below the configured share where its 32-bit product wraps around
  (`WantedAsIntended`, `WrappedPercentage`).
- Of scalar resources a running job reserves whole units less thousandths held, which is next to nothing
  (`ScalarsReserveLess`, `DevicesNotReserved`).
- Reclaim does not push a queue back after a task that is not allocatable or whose job has no tasks left, so the
  other jobs of that queue are not served (`ReclaimAction.Next`).
- Preempt's first phase of a later queue finds heaps that the second phase of an earlier queue has used up: they
  are shared (`PreemptAction.AfterRun`).
- syncJob counts a pod it has just created by its server answer in the totals, but as unknown in the counts of
  its task; `TaskCountsAddUp` and `UnknownCountsAddUp` say when the two agree.

## Model

| member | source | states |
|---|---|---|
| Resources.LessEqualIsPerDimension | pkg/scheduler/api/resource_info.go:364-390 | LessEqual holds exactly when every dimension, listed or absent on either side, is at most the other side's (quantities not negative) |
| Resources.Sub | pkg/scheduler/api/resource_info.go:245-263 | under the assertion of Sub, subtraction is exact in every dimension |
| Tasks.SumAfterAdd | pkg/scheduler/api/job_info.go:502-509 | adding a task's request keeps an incremental sum equal to the sum recomputed over all tasks |
| Tasks.SumAfterRemove | pkg/scheduler/api/job_info.go:543-556 | taking a task out never trips the assertion of Sub, and leaves the recomputed sum |
| Jobs.JobInfo.AddTaskInfo | pkg/scheduler/api/job_info.go:502-509 | the new task set and by how much the sums grow; index and sums equal their recomputation exactly if the task is new, or replaces one of the same status that asked for nothing |
| Jobs.IndexAfterOverwrite | pkg/scheduler/api/job_info.go:494-509 | filing an overwritten task again gives the recomputed index exactly if its status is the old one |
| Jobs.JobInfo.DeleteTaskInfo | pkg/scheduler/api/job_info.go:543-556 | the task is gone, or is reported missing and nothing changed; index and sums stay right |
| Jobs.JobInfo.UpdateTaskStatus | pkg/scheduler/api/job_info.go:513-530 | exactly this task has the new status; index and sums stay right |
| Jobs.JobInfo.Clone | pkg/scheduler/api/job_info.go:559-592 | the copy has the same tasks and index, and sums equal in every dimension |
| Jobs.BucketsOf | pkg/scheduler/api/job_info.go:494-540 | the status index partitions the tasks and has no empty bucket |
| Jobs.IndexAfterAdd | pkg/scheduler/api/job_info.go:494-499 | filing a task in its bucket is the index recomputed |
| Jobs.IndexAfterDelete | pkg/scheduler/api/job_info.go:532-540 | unfiling a task, and dropping its bucket when it was the last, is the index recomputed |
| Jobs.JobInfo.ReadyTaskNum | pkg/scheduler/api/job_info.go:676-693 | the sum over buckets is the number of tasks that hold resources or are pending best-effort ones |
| Jobs.JobInfo.WaitingTaskNum | pkg/scheduler/api/job_info.go:696-698 | the number of pipelined tasks |
| Jobs.JobInfo.CheckTasks | pkg/scheduler/api/job_info.go:733-795 | true exactly when every task kind has its minimum of occupied tasks (with pipelined ones for CheckTaskPipelined), or the job's minimum is below the sum of those minima |
| Jobs.JobInfo.JobReadyFn | pkg/scheduler/plugins/gang/gang.go:137-143 | gang calls a job ready exactly when every task kind and the whole job have their minima |
| Jobs.JobInfo.PipelinedFn | pkg/scheduler/plugins/gang/gang.go:145-152 | gang permits exactly when the minima are met with pipelined tasks counted |
| Jobs.JobInfo.Ready | pkg/scheduler/api/job_info.go:846-850 | ready tasks reach MinAvailable |
| Nodes.LedgerAfterAdd | pkg/scheduler/api/node_info.go:402-448 | the four fields after AddTask are the ledger recomputed from the tasks: Used, Releasing and Pipelined are sums by status, and Idle is what is not used |
| Nodes.LedgerAfterRemove | pkg/scheduler/api/node_info.go:453-486 | no subtraction of RemoveTask can fail its assertion, and the ledger stays the recomputed one |
| Nodes.NodeInfo.constructor | pkg/scheduler/api/node_info.go:130-162 | a fresh node has an empty, right ledger, and without a Kubernetes node no name |
| Nodes.NodeInfo.FutureIdle | pkg/scheduler/api/node_info.go:94-96 | under its assertion: idle plus releasing minus pipelined, in every dimension |
| Nodes.NodeInfo.AddTask | pkg/scheduler/api/node_info.go:402-448 | which of the three errors occurs or none; on an error nothing changes, else the task set grows by a copy naming the node, and the ledger stays right |
| Nodes.NodeInfo.RemoveTask | pkg/scheduler/api/node_info.go:453-486 | the task is gone and the ledger is right; a task that is not there changes nothing |
| Nodes.NodeInfo.UpdateTask | pkg/scheduler/api/node_info.go:503-515 | the task is replaced; with a request already accounted the re-adding always fits |
| Nodes.NodeInfo.ResetNode | pkg/scheduler/api/node_info.go:355-385 | the rebuilt Used is the sum over tasks, and if it is within the allocatable the whole ledger is right |
| Nodes.NodeInfo.SetNode | pkg/scheduler/api/node_info.go:281-343 | the node is adopted, and ready, exactly when it is ready and in every dimension the tasks fit; otherwise of the ledger only State changes; the dry run renames the recorded copies, and exactly when that changes something |
| Nodes.NamedSame | pkg/scheduler/api/node_info.go:190-217 | renaming changes nothing exactly if every copy has that name |
| Nodes.DryRunForgets | pkg/scheduler/api/node_info.go:332-336 | so on a node without a Kubernetes node a dry run changes a copy that has a node name |
| Nodes.NodeInfo.Clone | pkg/scheduler/api/node_info.go:190-217 | re-adding every task in any order meets no error and reproduces the ledger; the own copies take the name of the clone, which is empty without a Kubernetes node |
| Nodes.PartBelowWhole | pkg/scheduler/api/node_info.go:190-217 | no part of the tasks with one more of them sums to more than all tasks, whatever the order |
| Sessions.ShareAfterCharge | pkg/scheduler/plugins/drf/drf.go:349-366 | charging keeps every job's drf share the sum over its allocated and pipelined tasks |
| Sessions.ShareAfterRefund | pkg/scheduler/plugins/drf/drf.go:367-384 | refunding a charged task passes the assertion of Sub and keeps the shares right |
| Sessions.Session.Evict | pkg/scheduler/framework/session.go:434-471 | accepted: job, node and share move together; refused: nothing changes |
| Sessions.Session.Pipeline | pkg/scheduler/framework/session.go:295-335 | the reservation, charged; or, when the node refuses, the moved job with no charge |
| Sessions.Session.Allocate | pkg/scheduler/framework/session.go:338-409 | the placement, after which only bindings of this job's allocated tasks happen, each while its gang is ready; or, when volumes or node refuse, exactly what is left behind |
| Sessions.Session.Dispatch | pkg/scheduler/framework/session.go:411-431 | binding changes nothing but Allocated to Binding, in this job only, and every bind request is made while the gang is ready; if none is refused no task of the job is left allocated |
| Sessions.GangReadyAfterBinding | pkg/scheduler/plugins/gang/gang.go:137-143 | binding tasks neither makes a gang ready nor takes its readiness |
| Statements.UndoneExactly | pkg/scheduler/framework/statement.go:60-350 | undoing one operation restores every task set exactly if the task had been running, or pending on no node: both directions |
| Statements.DiscardIsInverse | pkg/scheduler/framework/statement.go:353-376 | after any sequence of such operations, undoing them in reverse order gives back every job's and every node's tasks |
| Statements.LedgersRestored | pkg/scheduler/framework/statement.go:353-376 | with the tasks restored, the status index, Allocated, TotalRequest, drf share, Idle, Used, Releasing and Pipelined are restored by value |
| Statements.Statement.Evict | pkg/scheduler/framework/statement.go:60-97 | the evicted state and the recorded operation |
| Statements.Statement.Pipeline | pkg/scheduler/framework/statement.go:146-186 | the pipelined state and the recorded operation; a node that already holds the task is left alone |
| Statements.Statement.Allocate | pkg/scheduler/framework/statement.go:228-293 | exactly when it fails, and what that leaves behind: the moved job, no charge, no operation; else the placed state and the recorded operation |
| Statements.Statement.Unevict | pkg/scheduler/framework/statement.go:111-143 | the task runs again in job, node and share |
| Statements.Statement.Unplace | pkg/scheduler/framework/statement.go:191-350 | the task is pending on no node again, in job, node and share |
| Statements.Statement.Discard | pkg/scheduler/framework/statement.go:353-376 | the state reached is all operations undone in reverse order |
| Statements.Statement.Commit | pkg/scheduler/framework/statement.go:379-399 | every allocated task, in order, is handed to the cache for binding, without evictions only while its gang is ready; all evictions succeed exactly if the cache refuses none, and then nothing but bindings happens; jobs without operations are untouched |
| Promises.PlaceKeeps | pkg/scheduler/actions/allocate/allocate.go:99-224 | placing a pending task within a node's future idle keeps jobs and nodes consistent and every future idle non-negative |
| Promises.EvictKeeps | pkg/scheduler/framework/statement.go:60-97 | evicting a running task keeps the same, and adds its request to the node's future idle |
| Promises.BindKeeps | pkg/scheduler/framework/session.go:411-431 | binding keeps the same |
| Promises.FutureIdleIs | pkg/scheduler/api/node_info.go:94-96 | while nothing is over-promised, the assertion inside FutureIdle holds and it equals the recomputed future idle |
| Promises.StartsKept | pkg/scheduler/framework/session.go:103-191 | a session in which nothing is pipelined over-promises nothing |
| Opening.OpenSession | pkg/scheduler/cache/cache.go:1046-1139 | a session over the clones of a right cache is right and sound: jobs and nodes agree about every task and nothing is over-promised; the cache is as before |
| Opening.OpensSound | pkg/scheduler/framework/session.go:103-191 | because every copy on a node is its job's task in the same version, and nothing is pipelined |
| Opening.ShareOf | pkg/scheduler/plugins/drf/drf.go:193-213 | the share added up when the session opens is the sum drf keeps from then on |
| Promises.GuardedStep | pkg/scheduler/framework/statement.go:60-350 | whatever passes the actions' guards is accepted, keeps the session sound, and is undone exactly |
| Promises.StepExtends | pkg/scheduler/framework/statement.go:353-376 | a guarded step of a statement keeps: discarding leads back to the statement's start |
| AllocateAction.PlaceOne | pkg/scheduler/actions/allocate/allocate.go:185-224 | the task is allocated when the node is idle enough, unless its volumes fail, and otherwise pipelined; either is a step of the turn that a discard undoes |
| AllocateAction.FindNodes | pkg/scheduler/actions/allocate/allocate.go:98-106 | exactly the nodes that pass the predicates and whose future idle resource covers the task |
| AllocateAction.PlaceTasks | pkg/scheduler/actions/allocate/allocate.go:160-241 | the task loop as a chain of tries: a task is passed over exactly if it is not allocatable, ends the loop exactly for want of a candidate node or a failing pre-predicate, and otherwise takes a place on a candidate; the loop ends only with an empty heap, such a task, or a ready job, which is pushed back exactly if tasks are left |
| AllocateAction.PlacedIfPossible | pkg/scheduler/actions/allocate/allocate.go:163-235 | every popped task that is allocatable, passes the pre-predicate and has a candidate node is among the operations of the turn, unless its volumes fail |
| AllocateAction.Turn | pkg/scheduler/actions/allocate/allocate.go:158-249 | a turn is its chain of tries, from where discarding leads back; if the gang is ready there and the other votes agree, all it allocated is handed over for binding; else, if the votes of JobPipelined are for it, things stay; else all jobs and nodes are as before. So a gang neither ready nor pipelined, whose vote is heard, leaves nothing behind; other jobs are untouched |
| AllocateAction.Execute | pkg/scheduler/actions/allocate/allocate.go:44-251 | the loop ends although queues and jobs are pushed back; all ledgers stay right, nothing is over-promised, every AddBindTask comes from a ready gang. What happened is a log of pops that leads from the first state to the last and is determined by the answers; every eligible job of a known queue that was never overused, with pending tasks that are not best-effort, had a turn, and after its last one its heap is empty or a task had found no node |
| AllocateAction.AllServed | pkg/scheduler/actions/allocate/allocate.go:112-151 | once no queue is left, nobody who deserved a turn is still waiting |
| AllocateAction.JobsAccounted | pkg/scheduler/actions/allocate/allocate.go:237-240 | at every moment of the log a job with tasks either still waits, with tasks, or had a last turn that left nothing to come back for |
| Gang.PreemptableFn | pkg/scheduler/plugins/gang/gang.go:83-105 | of every job exactly the first preemptees, as many as it has ready tasks beyond MinAvailable |
| Gang.VictimsBudgeted | pkg/scheduler/plugins/gang/gang.go:83-105 | any subset of gang's victims stays within every job's surplus |
| Gang.BudgetAfterEvict | pkg/scheduler/plugins/gang/gang.go:83-105 | evicting a budgeted victim leaves every job that had its minimum with it, and the rest of the victims budgeted |
| VictimSearch.ValidateVictims | pkg/scheduler/util/scheduler_helper.go:174-189 | true exactly when there are victims and future idle plus all their requests covers the preemptor |
| VictimSearch.Preemptees | pkg/scheduler/actions/preempt/preempt.go:229-240 | exactly the running tasks that the node holds and that ask for something: of the preemptor's job in the second phase, preemptable and of another job in its queue in the first |
| VictimSearch.ChooseVictims | pkg/scheduler/actions/preempt/preempt.go:241-241 | the victims are the verdict of the tiers on what gang and the others say, gang naming the first of each job within its surplus; where a tier with gang decides, no job loses more victims than its surplus |
| VictimSearch.EvictVictims | pkg/scheduler/actions/preempt/preempt.go:259-291 | victims are evicted one by one exactly as long as the preemptor does not fit or its queue is overused; it is placed exactly if it then fits and the queue is not overused; discarding leads back to the start |
| VictimSearch.Preempt | pkg/scheduler/actions/preempt/preempt.go:198-295 | the rounds over the nodes, each determined by the state it starts from and the answers for its node; nothing is over-promised, discarding restores the start, a placed preemptor is pipelined on the last node tried; each other job with its minimum keeps it if in every round a tier with gang decides, as it does when gang votes in every tier in which somebody can vote |
| VictimSearch.RoundsTake | pkg/scheduler/actions/preempt/preempt.go:118-133 | on the states: over all rounds the only tasks that stop running are those the filter permits, and they become releasing |
| PreemptAction.SelectNodes | pkg/scheduler/actions/preempt/preempt.go:212-216 | the nodes found, each exactly once, best scores first |
| PreemptAction.PreemptForJob | pkg/scheduler/actions/preempt/preempt.go:100-136 | attempts go on exactly while the job starves and has tasks; each is determined by its task, state and answers; nobody loses a task but preemptable ones of other jobs in the queue |
| PreemptAction.PreemptorJob | pkg/scheduler/actions/preempt/preempt.go:96-143 | one turn of a preemptor job: what its attempts led to is committed exactly if the votes of JobPipelined, with gang's if heard, are for it, and otherwise all jobs and nodes are as before; only preemptable tasks of other jobs in its queue were taken; it is pushed back exactly if something was committed for it |
| PreemptAction.PreemptInQueue | pkg/scheduler/actions/preempt/preempt.go:86-148 | every starving job of the queue had a turn, after whose last one, with no tasks left or not starving any more, it was not pushed back; what stopped running belonged to other jobs of the queue and was preemptable |
| PreemptAction.EverybodyHadTurn | pkg/scheduler/actions/preempt/preempt.go:145-147 | a job that does not wait any more had a last turn after which it was not pushed back |
| PreemptAction.PreemptOnce | pkg/scheduler/actions/preempt/preempt.go:169-182 | one preemptor within its own job, always committed: only tasks of that job were taken |
| PreemptAction.PreemptInJob | pkg/scheduler/actions/preempt/preempt.go:152-189 | all pending tasks of the job are tried, until the first that is not placed; only tasks of the job itself were taken |
| PreemptAction.Execute | pkg/scheduler/actions/preempt/preempt.go:42-194 | both phases end, every ledger stays right, and nothing is over-promised as long as evictions are accepted, as they are by a reliable cache; then each queue was dealt with once, first between all its starving jobs, then within every starving job; what stopped running was preemptable and shared the queue of another, starving job, or belonged to a starving job; and if gang votes in every tier in which somebody can vote, no gang but those of the starving jobs loses its minimum |
| Takings.TakesThen | pkg/scheduler/actions/preempt/preempt.go:118-180 | what is taken in two steps is covered by the claims of both: a released task stays released, and none starts to run |
| Takings.OnlyGrantedStop | pkg/scheduler/actions/preempt/preempt.go:118-180 | so over any run a task that was running still runs unchanged, or is releasing and was covered by a claim |
| ReclaimAction.ReclaimEvicts | pkg/scheduler/actions/reclaim/reclaim.go:172-186 | each eviction adds the same to the node's future idle as to what counts as reclaimed |
| ReclaimAction.ReclaimedSuffices | pkg/scheduler/actions/reclaim/reclaim.go:188-200 | the guard "request at most what was reclaimed" implies the request is within future idle, although it never looks at it |
| ReclaimAction.Reclaimees | pkg/scheduler/actions/reclaim/reclaim.go:134-154 | exactly the preemptable running tasks that the node holds and whose job is of another queue, one that allows reclaiming |
| ReclaimAction.ReclaimOn | pkg/scheduler/actions/reclaim/reclaim.go:168-200 | the victims that the cache accepts are evicted in order up to the first that makes what was reclaimed cover the request, or all; the task is pipelined there exactly if it is covered; everything stays sound |
| ReclaimAction.ReclaimFor | pkg/scheduler/actions/reclaim/reclaim.go:122-201 | every node is tried until one is a gain; victims are the verdict of the tiers on exactly the reclaimees, and are evicted only if all together make room; what stopped running was preemptable and of another, reclaimable queue |
| ReclaimAction.SearchTakes | pkg/scheduler/actions/reclaim/reclaim.go:134-154 | on the states: a search takes nothing else |
| ReclaimAction.Execute | pkg/scheduler/actions/reclaim/reclaim.go:39-208 | the action ends, every ledger stays right and nothing is over-promised. What happened is a log of pops determined by the answers; of every job with pending tasks one was searched for in vain unless its queue was dropped; and what stopped running was preemptable and of a reclaimable queue other than that of a job that searched |
| ReclaimAction.JobsAccounted | pkg/scheduler/actions/reclaim/reclaim.go:90-207 | at every moment of the log a job waits in a queue that waits, had a search in vain, or its queue was dropped: overused, or with a job whose heap is empty or whose task is refused |
| Votes.Evictable | pkg/scheduler/framework/session_plugins.go:148-247 | the result of the loops with their init flag across tiers: nothing if no tier is heard, else what all ballots of the first heard tier share |
| Votes.NonEmptyVerdict | pkg/scheduler/framework/session_plugins.go:198-247 | a non-empty result is the identifier-intersection of all voting plugins of one single tier |
| Votes.HeardTierIsFinal | pkg/scheduler/framework/session_plugins.go:198-247 | the first tier whose first voter offers somebody decides, even if its voters agree on nobody |
| Votes.UnheardVeto | pkg/scheduler/framework/session_plugins.go:198-247 | a tier without voters, or whose first voter offers nobody, makes no difference |
| Votes.TierVictims | pkg/scheduler/framework/session_plugins.go:199-243 | one tier, entered with or without votes so far |
| Votes.Intersect | pkg/scheduler/framework/session_plugins.go:223-232 | the victims that also are candidates, in the order of the victims |
| Votes.GangsBallot | pkg/scheduler/framework/session_plugins.go:198-247 | if gang votes in the deciding tier, all victims are among gang's |
| Votes.EverywhereDecides | pkg/scheduler/framework/session_plugins.go:198-247 | a configuration with gang in every tier in which somebody can vote leaves every decision to a tier with gang, whatever is replied |
| Votes.Permitted | pkg/scheduler/framework/session_plugins.go:312-417 | JobPipelined and JobEnqueueable refuse exactly if somebody rejects in a tier no earlier permit shields |
| Ordering.JobOrderTotal | pkg/scheduler/framework/session_plugins.go:497-520 | for comparators that are weak orders, of two jobs with different identifiers exactly one comes first |
| Ordering.JobOrderTransitive | pkg/scheduler/framework/session_plugins.go:497-520 | and the order is transitive |
| Ordering.GangAndDrfOrder | pkg/scheduler/framework/session_plugins.go:497-520 | hence for gang and drf in any tiers |
| Ordering.PluginOrdersAreWeak | pkg/scheduler/plugins/gang/gang.go:111-134 | gang's and drf's comparators are weak orders |
| Ordering.FirstDifferenceDecides | pkg/scheduler/framework/session_plugins.go:497-520 | the first comparator that sees a difference decides: for gang the job that is not ready comes first, for drf the smaller share; without any, the older job, then the smaller identifier |
| Ordering.CompareQueues | pkg/scheduler/plugins/drf/drf.go:155-185 | the walk down both paths computes the first difference of saturation, then of share by weight |
| Ordering.WhoComesFirst | pkg/scheduler/plugins/drf/drf.go:166-183 | a queue comes first exactly if, at the first level where the nodes of the two paths do not tie, its node demands where the other is saturated, or has less share for its weight |
| Ordering.QueueOrder | pkg/scheduler/plugins/drf/drf.go:155-185 | antisymmetric and transitive on existing paths; not-after passes on exactly unless the middle queue is shallower than both others and tied with both while these are out of order |
| Ordering.WeakExactlyAtDepths | pkg/scheduler/plugins/drf/drf.go:155-185 | for queues of three depths not-after passes on in every tree exactly if the middle one is at least as deep as one of the others |
| Ordering.TiesAcrossDepths | pkg/scheduler/plugins/drf/drf.go:155-185 | at different depths ties are not transitive: a queue at the root ties with two children that differ |
| Quantities.ExactOnIntegers | pkg/scheduler/api/resource_info.go:364-390 | on whole quantities the comparison tolerance makes no difference |
| Quantities.IdleStaysAbove | pkg/scheduler/api/node_info.go:387-397 | over real quantities idle stays above minus the tolerance however many tasks are added |
| Hdrf.CalculateShare | pkg/scheduler/plugins/drf/drf.go:502-514 | the largest portion over the noticeable dimensions of the total, in any order of names |
| Hdrf.ShareScales | pkg/scheduler/plugins/drf/drf.go:502-514 | the dominant share scales with the vector |
| Hdrf.UpdateShares | pkg/scheduler/plugins/drf/drf.go:434-479 | the recursion with its two loops is the tree function the following rows are about; after it a job that holds all it asks for of a dimension, or some of an exhausted one it asks for, is saturated, one that does neither is not, and an inner node is exactly if all jobs below it are |
| Hdrf.UpdatedFlags | pkg/scheduler/plugins/drf/drf.go:77-90 | the saturation flags of any updated tree, leaf by leaf and for inner nodes over all leaves below |
| Hdrf.SaturationGrows | pkg/scheduler/plugins/drf/drf.go:77-90 | saturation survives a larger allocation and fewer demanding dimensions |
| Hdrf.UpdatedIsFair | pkg/scheduler/plugins/drf/drf.go:434-479 | in a tree of any shape every node's vector is at most what its jobs hold, and unsaturated non-empty children contribute one common dominant share |
| Hdrf.ShareAtMostOne | pkg/scheduler/plugins/drf/drf.go:434-479 | where the jobs fit in the total a node's share is at most one |
| Hdrf.CombinedIsFair | pkg/scheduler/plugins/drf/drf.go:434-479 | the same for one node over fair children |
| HdrfReclaim.FindInserted | pkg/scheduler/plugins/drf/drf.go:389-431 | after buildHierarchy the job's node is found on its path, and every other job's node is unchanged |
| HdrfReclaim.InsertSame | pkg/scheduler/plugins/drf/drf.go:389-431 | inserting changes nothing exactly when the node is already there |
| HdrfReclaim.InsertedWeights | pkg/scheduler/plugins/drf/drf.go:389-418 | putting in a job keeps the weights on its path; nodes made for it weigh what is given, and at least one |
| HdrfReclaim.UpdateHierarchicalShare | pkg/scheduler/plugins/drf/drf.go:481-491 | the insertion followed by the recomputed shares, whose saturation flags are right for the resources of which a noticeable amount exists and less is allocated |
| HdrfReclaim.MirrorsKept | pkg/scheduler/plugins/drf/drf.go:349-385 | every charge leaves every job's node in the tree with that job's current attributes |
| HdrfReclaim.ProbeLeavesNoResidue | pkg/scheduler/plugins/drf/drf.go:290-310 | subtracting a reclaimee and resuming gives back every share, vector and saturation flag of the tree exactly if the tree held the job's current attributes |
| HdrfReclaim.OwnProbeLeavesResidue | pkg/scheduler/plugins/drf/drf.go:278-310 | for a task of the reclaimer's own job there is residue exactly unless the reclaimer's request adds nothing |
| HdrfReclaim.RefreshedSame | pkg/scheduler/plugins/drf/drf.go:481-491 | refreshing a job's node changes nothing exactly if it is there with these attributes |
| HdrfReclaim.ProbeAndResume | pkg/scheduler/plugins/drf/drf.go:286-315 | one turn of the loop: the verdict on the tree as it is, and the tree with the job's node refreshed |
| HdrfReclaim.ProbingStep | pkg/scheduler/plugins/drf/drf.go:286-310 | so the tree is unchanged, unless the task was of the reclaimer's own job: then it is the tree without the request |
| HdrfReclaim.ReclaimFn | pkg/scheduler/plugins/drf/drf.go:268-323 | the victims are the candidates judged each alone, in the tree with the reclaimer's request up to the first candidate of its own job, and in the tree without it from then on |
| HdrfReclaim.OrderDoesNotMatter | pkg/scheduler/plugins/drf/drf.go:286-319 | so among candidates of other jobs, which is all that reclaim passes, the order does not matter |
| NodeSearch.StepKeepsInv | pkg/scheduler/util/predicate_helper.go:49-94 | every atomic action of every worker, in any interleaving, keeps counter, claims and slots in step |
| NodeSearch.WritesInRange | pkg/scheduler/util/predicate_helper.go:87-93 | no write outside the slots |
| NodeSearch.WrittenOnce | pkg/scheduler/util/predicate_helper.go:87-93 | no slot is written twice |
| NodeSearch.SearchResult | pkg/scheduler/util/predicate_helper.go:87-100 | when all workers are done: the first slots hold fitting nodes at distinct positions, the counter is the smaller of wanted and passed, and a short count means every node was examined |
| NodeSearch.Search.Step | pkg/scheduler/util/predicate_helper.go:49-94 | one atomic action changes the shared state as the step function says |
| NodeSearch.PredicateNodes | pkg/scheduler/util/predicate_helper.go:31-101 | under every schedule the search ends with that result; a short list contains every fit node; the start index stays below the node count; the error cache learns only unfit nodes |
| NodeSearch.StepShrinks | pkg/scheduler/util/predicate_helper.go:49-97 | every action brings the search closer to its end |
| NodeSearch.WantedWithin | pkg/scheduler/util/scheduler_helper.go:43-62 | for any number of nodes never more are wanted than there are, never fewer than the minimum, even where the 32-bit product wraps around |
| NodeSearch.WantedAsIntended | pkg/scheduler/util/scheduler_helper.go:43-62 | the intended share of the nodes is wanted exactly if the 32-bit product does not wrap around or the minimum is at least that share |
| NodeSearch.WrappedLess | pkg/scheduler/util/scheduler_helper.go:57-57 | a product that wraps around always gives less than its hundredth |
| NodeSearch.WrappedPercentage | pkg/scheduler/util/scheduler_helper.go:57-57 | a number of nodes for which it does: half of them is intended, the minimum results |
| EnqueueAction.Overcommit.constructor | pkg/scheduler/plugins/overcommit/overcommit.go:72-108 | idle is factor times total minus used; the reservation is the sum over inqueue and running jobs, in any order; a factor below one is replaced |
| EnqueueAction.ReservedIs | pkg/scheduler/plugins/overcommit/overcommit.go:87-108 | an admitted job reserves its whole minimum; a running one with enough pods what it lacks of cpu and memory; any other nothing |
| EnqueueAction.ReservesLacking | pkg/scheduler/plugins/util/util.go:93-103 | of cpu and memory a running job reserves what it lacks of its minimum |
| EnqueueAction.ScalarsReserveLess | pkg/scheduler/plugins/util/util.go:118-128 | of a scalar it reserves at most that, and as much exactly if it asks for no more than a thousandth or holds all it asks for, since whole units are compared with thousandths |
| EnqueueAction.DevicesNotReserved | pkg/scheduler/plugins/util/util.go:118-128 | eight devices asked for and two held: nothing is reserved, six are lacking |
| EnqueueAction.Overcommit.JobEnqueueable | pkg/scheduler/plugins/overcommit/overcommit.go:110-130 | permits exactly a job without minimum or one whose minimum fits beside the reservation |
| EnqueueAction.AccountAfterAdmission | pkg/scheduler/plugins/overcommit/overcommit.go:132-139 | an admission adds the job's minimum to the reservation in every dimension, keeps it within what may be promised, and leaves every earlier refusal justified |
| EnqueueAction.RejectionIsFinal | pkg/scheduler/framework/session_plugins.go:389-417 | a rejection in the first voting tier is not overruled |
| EnqueueAction.Enqueue.Enqueueable | pkg/scheduler/framework/session_plugins.go:389-417 | an admitted job fits; a fitting job nobody else rejects is admitted |
| EnqueueAction.Enqueue.Execute | pkg/scheduler/actions/enqueue/enqueue.go:44-104 | each pending job of a known queue is considered exactly once; the reservation grows by exactly the admitted minimums; once a job with a minimum is admitted it stays within what may be promised; what was refused would not fit at the end either |
| EnqueueAction.StillTooMuch | pkg/scheduler/plugins/overcommit/overcommit.go:110-139 | a reservation only grows, so what does not fit now never will |
| PodCache.ChargedOnce | pkg/scheduler/cache/event_handlers.go:69-98 | a pod is on at most one node |
| PodCache.OnNodeIffHolding | pkg/scheduler/cache/event_handlers.go:69-98 | a pod of a job is on the node its cached task names exactly when it is placed and not terminated |
| PodCache.FiledKeeps | pkg/scheduler/cache/event_handlers.go:69-98 | adding a new pod keeps every pod charged once |
| PodCache.UnfiledKeeps | pkg/scheduler/cache/event_handlers.go:169-216 | taking out the cached version removes the pod from wherever it is charged, and nothing else |
| PodCache.MovedKeeps | pkg/scheduler/cache/cache.go:946-988 | a task that takes a place, or a new status in its place, stays charged once |
| PodCache.IgnoredKeeps | pkg/scheduler/cache/event_handlers.go:152-158 | an ignored update changes no charge |
| PodCache.SchedulerCache.AddTask | pkg/scheduler/cache/event_handlers.go:69-98 | charged and filed, or refused and filed nowhere; exactly when it is refused; for a task filed already, exactly when the job's sums stay right |
| PodCache.SchedulerCache.DeleteTask | pkg/scheduler/cache/event_handlers.go:169-193 | out of its job and off its node |
| PodCache.SchedulerCache.AddPod | pkg/scheduler/cache/event_handlers.go:101-105 | keeps all ledgers right and every pod charged once |
| PodCache.SchedulerCache.UpdatePod | pkg/scheduler/cache/event_handlers.go:152-167 | ignored exactly while a binding is not shown yet; otherwise the cached version is taken out, and the new one added exactly if it holds nothing or fits beside the tasks left on its node; so an update that shows a node, or is about a pod not placed in the cache, reaches the books if it succeeds |
| PodCache.SchedulerCache.DeletePod | pkg/scheduler/cache/event_handlers.go:196-216 | the cached version, which knows of bindings, is taken out |
| PodCache.SchedulerCache.Evict | pkg/scheduler/cache/cache.go:718-768 | succeeds exactly for a cached task on a known node, which becomes releasing in job and node; else nothing changes |
| PodCache.SchedulerCache.AddBindTask | pkg/scheduler/cache/cache.go:946-988 | exactly when it succeeds; then job and node hold the binding task; on any failure job and node ledgers are as they were |
| AssumeCaches.AssumeCache.Add | pkg/scheduler/capabilities/volumebinding/assume_cache.go:157-198 | replaces both versions only by a newer object |
| AssumeCaches.AssumeCache.Assume | pkg/scheduler/capabilities/volumebinding/assume_cache.go:298-330 | replaces only the latest version, and never by an older one |
| AssumeCaches.AssumeCache.Restore | pkg/scheduler/capabilities/volumebinding/assume_cache.go:332-344 | latest becomes the API's version again |
| AssumeCaches.AssumeCache.Get | pkg/scheduler/capabilities/volumebinding/assume_cache.go:254-263 | the latest version, assumed or delivered |
| AssumeCaches.AssumeCache.GetAPIObj | pkg/scheduler/capabilities/volumebinding/assume_cache.go:265-274 | the delivered version |
| AssumeCaches.AssumptionsAreLocal | pkg/scheduler/capabilities/volumebinding/assume_cache.go:298-344 | which no assumption and no restoring touches |
| AssumeCaches.VersionsOverRuns | pkg/scheduler/capabilities/volumebinding/assume_cache.go:157-344 | over any run the latest version is never older than the API's, and between deletes the API's only grows |
| AssumeCaches.RestoringUndoesAssuming | pkg/scheduler/capabilities/volumebinding/binder.go:907-917 | restoring the touched entries forgets every assumption made on them |
| VolumeBinding.VolumeBinder.AssumePodVolumes | pkg/scheduler/capabilities/volumebinding/binder.go:371-431 | a failure restores exactly the entries before the one that cannot be bound or assumed, and leaves all others; success assumes exactly the changed volumes and all claims |
| VolumeBinding.VolumeBinder.BindAPIUpdate | pkg/scheduler/capabilities/volumebinding/binder.go:479-538 | a failure at any position restores exactly the volumes and claims from there on |
| VolumeBinding.FailureIsInvisible | pkg/scheduler/capabilities/volumebinding/binder.go:907-917 | a failed attempt leaves the cache unchanged exactly when none of the touched entries had been assumed before |
| VolumeBinding.FindMatchingVolumes | pkg/scheduler/capabilities/volumebinding/binder.go:821-857 | every claim is bound or left over; each volume is the one found for its claim with the volumes of the earlier bindings taken, so none is given out twice; what is left over found no match; smaller claims are served first |
| VolumeBinding.CheckVolumeProvisions | pkg/scheduler/capabilities/volumebinding/binder.go:862-905 | all claims listed exactly when all are eligible; otherwise none, with the right cause |
| VolumeBinding.SplitClaims | pkg/scheduler/capabilities/volumebinding/binder.go:329-341 | claims promised to this node, claims to match, or a claim promised elsewhere |
| VolumeBinding.FindPodVolumes | pkg/scheduler/capabilities/volumebinding/binder.go:260-364 | without error and reasons every claim is in exactly one of the two lists, bound to the volume found for it, or to be provisioned because it is promised to this node or found no match, and eligible; every reason and error has its cause |
| JobPhases.EverybodyCounted | pkg/controllers/job/job_controller_actions.go:58-103 | every pod falls in exactly one count |
| JobPhases.SoftKillCounts | pkg/controllers/job/job_controller_actions.go:47-165 | after a kill that keeps finished pods nothing is pending, running or unknown, and terminating, succeeded and failed make up all pods |
| JobPhases.HardKillCounts | pkg/controllers/job/job_controller_actions.go:69-83 | a kill that keeps nothing, before the last retry, sends every pod away |
| JobPhases.LastRetryKeepsFinished | pkg/controllers/job/job_controller_actions.go:69-76 | at the last retry finished pods stay, whatever the state asked for |
| JobPhases.AllFinished | pkg/controllers/job/job_controller_actions.go:66-103 | nothing is terminating exactly when every pod had finished |
| JobPhases.EndsWhenAllFinished | pkg/controllers/job/state/aborting.go:29-47 | aborting, completing and terminating reach their final phase exactly when every pod has finished |
| JobPhases.StepsAreMoves | pkg/controllers/job/state/factory.go:62-85 | the only moves between phases, with what each does to the retry count |
| JobPhases.RestartsAreBounded | pkg/controllers/job/state/restarting.go:29-51 | over any run a job comes back from restarting at most max(0, MaxRetry-1) times, and its retry count never passes max(1, MaxRetry) |
| JobPhases.FinishedIsFinal | pkg/controllers/job/state/finished.go:28-31 | Completed, Failed and Terminated are never left |
| JobPhases.DesiredCount | pkg/controllers/job/job_controller_actions.go:320-335 | the desired pods are as many as the replicas of all tasks |
| JobPhases.MinimaWithinReplicas | pkg/controllers/job/state/util.go:35-47 | task minimums add up to at most the replicas, and to as many exactly if no task may do with fewer |
| JobPhases.SyncCountsEverybody | pkg/controllers/job/job_controller_actions.go:310-440 | a successful sync counts every replica once and every stale pod once, as terminating |
| JobPhases.FinishedOverPods | pkg/controllers/job/job_controller_actions.go:310-440 | in the counts of a sync every replica is finished exactly if each desired pod succeeded or failed |
| JobPhases.JobController.KillJob | pkg/controllers/job/job_controller_actions.go:47-165 | succeeds exactly if every deletion and the saving do; then the counts of a kill, and an unchanged status whenever a deletion fails |
| JobPhases.JobController.SyncJob | pkg/controllers/job/job_controller_actions.go:225-478 | succeeds exactly if every answer it needs is positive; the status judged on fresh counts, or on the old ones while the pod group is pending; on a failure unchanged but for the initiation |
| JobPhases.TaskCountsAddUp | pkg/controllers/job/job_controller_actions.go:336-392 | for pending, running, succeeded and failed pods the per-task counts add up to the total exactly if every pod counted there was present and has a task annotation |
| JobPhases.UnknownCountsAddUp | pkg/controllers/job/job_controller_actions.go:336-392 | for unknown pods they differ by the created pods that are not unknown, less the present unknown ones without annotation |
| JobPhases.JobController.Partition | pkg/controllers/job/job_controller_actions.go:314-352 | present pods counted by phase and task, missing ones to create, stale ones to delete |
| JobPhases.JobController.Execute | pkg/controllers/job/state/running.go:31-97 | every call is one step of the phase machine; when it succeeds, the phase is what the counts it goes by call for: pending turns running exactly with minAvailable pods running or finished; running completes exactly if minSuccess is reached or, with none set, every replica finished, minAvailable succeeded and no task fell short where that matters, fails exactly if every replica finished otherwise; restarting, aborting, completing, terminating and commands likewise |
| JobPhases.PlanJudges | pkg/controllers/job/state/restarting.go:29-51 | what each state plans for an action leads to the phase the counts call for |

## Left out

- Statements.Statement.Commit: after an eviction that the cache refuses in the middle of a commit, ledgers stay right but future idle is not claimed to be non-negative; the actions stop there in the model.
- Nodes.NodeInfo.UpdateTask: the source ends the process when the new version does not fit; that is its precondition.
- PodCache.SchedulerCache.Evict: for a finished task that no longer fits on its node the source ends the process in UpdateTask; that is its precondition.
- HdrfReclaim.ReclaimFn: the tree is a value, so node pointers and the sharing of a job's attributes with its node are not modelled; candidates have been charged to their jobs.
- HdrfReclaim.UpdateHierarchicalShare: parsing of paths and weights is left out, weights are numbers and there is one per path element.
- Opening.OpenSession: which jobs have a pod group, a known queue and pass the validity check is a parameter; a ready node has a Kubernetes node, as SetNode leaves it.
- AllocateAction.Execute: whether the error cache or a limit on the number of nodes hides a node from a task is part of the answer `passes`; changing a pending pod group to inqueue is left out.
- PreemptAction.Execute: which nodes the search finds and how they are scored are answers; what happens after an eviction is refused is not claimed.
- NodeSearch.PredicateNodes: the fit errors collected for events are left out; the predicate answers the same for the same node throughout one search.
- EnqueueAction.Overcommit.constructor: filtering of count quotas and ignored devices from minimum resources is left out.
- Tasks and resources are values: a task shared by pointer between a statement and its job is passed along and stored back, and a nil map of scalar resources is the same as an empty one.
- Pods are identified by their UID throughout, where nodes use namespace and name.
- Priority queues are bags from which any element may come, which covers every order; nothing is claimed about the order in which jobs or queues are served.
- Other plugins (proportion, priority, predicates, sla, tdm) are arbitrary voters; drf's own preemptable vote is one of them. A reply outside what was asked counts as choosing nothing.
- Victim tasks of rescheduling plugins, which preempt evicts directly at its end, are not modelled.
- GPU and vGPU devices, NUMA topology, image states, oversubscription, revocable zones and CSI translation are not part of this model.
- Task resynchronisation with the API server, node deletion and job clean-up in the cache, and a failing resource decision in AddBindTask (its encoding does not fail) are not part of this model.
- Objects without metadata or of a wrong type in the assume cache are not part of this model.
- Rounding of floating-point numbers is not modelled.
- The backfill and shuffle actions, the queue controller, webhooks, the command line, leader election, metrics, events and condition messages are not part of this model.
- Waiting for dependencies between tasks of a job, pod group and volume creation, and job plugins appear in the job controller only as answers that may fail.
- The job controller's cache is taken to hold the status that was stored last.
