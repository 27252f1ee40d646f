# Task Spooler PLUS: a verified model

Task Spooler PLUS queues the jobs of several users on one machine, gives each
running job a number of slots, binds it to CPUs, keeps the queue in a database so
that a crash loses nothing, and speaks JSON to its clients. This project models
the parts of the server that keep state by small steps, and proves what those
steps add up to.

| part | modules |
|---|---|
| NUMA CPU binding (`cpu_bind.c`) | `CpuBind` (the allocator), `CpuTopology`, `CpuOwnership`, `CpuSteps`, `CpuLedger`, `CpuPlacement`, `GreedyGroups`, `NodeChoice`, `CpuDefrag`, `CpuRebuild` (what a defragmentation does), `CpuSample`, `DisjointFamily`, `Qsort` |
| its text files and its restart | `Cpuset`, `CpuRestart` |
| its background I/O thread | `DefragIo` |
| slot scheduler (`jobs.c`, `server_user.c`) | `Scheduler` (the server), `JobRecord`, `SlotBooks`, `SlotMoves`, `Dispatch`, `Requests`, `UserRequests`, `Roster`, `ServerHistory` (requests and whole runs), `Promises` (what a user is promised, field by field), `PromisesKept`, `ServerEffects` (the same for every request of a run), `SchedulerLimits` |
| error levels between dependent jobs | `DependencyLedger` |
| work time, pause time and limits | `JobClock` (one job), `ServerClock` (all jobs of the server) |
| scheduler and allocator together | `SlotBinding`, `ServerBinding`; `Scheduler.Server` holds the allocator of `CpuBind` and calls it |
| order of the queue in the database (`sqlite.c`) | `QueueOrder` (the table), `JobTable` (the table beside the jobs of the server) |
| JSON printer and parser (`cjson/cJSON.c`) | `JsonText`, `JsonGrammar`, `JsonRoundTrip`, `JsonSpelling` (which texts stand for a value), `JsonParser`, `JsonPrinter` |
| growable vector (`vec.c`) | `Vec` |
| shared | `Wrappers` (a value that may be missing), `Numerals` (decimal digits) |

Code that changes state step by step is modelled by classes with methods and
loops; each method is proved against a description of the new state in terms of
the old one, and the laws are lemmas about those descriptions. `dafny verify
dfyconfig.toml` checks everything.

## What is assumed

- The topology is what `tools/gen_topology.py` emits: groups partition the CPUs,
  nodes partition the groups, node ids are indices, and there are fewer than 31
  nodes (`CpuTopology.WellFormed`).
- `qsort` returns some ordered permutation, so results hold for every way of
  breaking ties (`Qsort.Sort`).
- The clock, the set of live and stopped processes, CPU times and which jobs look
  idle are inputs, fixed while one request is served (`JobRecord.Env`).
- A job asks for at least one slot. Memory allocation and SQL statements succeed.
  C `int` arithmetic does not overflow.
- Rows found at a restart have distinct ids, known users and dependencies with
  smaller ids, as an earlier server wrote them (`Requests.RowsOk`), and come in the
  order of their order_id (`JobTable.Listed`).
- The monotonic clock never shows 0, which the code uses for "not paused"
  (`ServerHistory.ClockShown`).

## Where the code falls short of its promises

- `primary_node` need not be one of the nodes used: with three or more tied nodes
  it is chosen among all of them. `NodeChoice.CrossPrimary` says exactly when it
  is one of them (the job id modulo the number of fullest nodes is below the number
  of nodes needed), `CpuBind.PrimaryOutside` is a binding where it is not.
- A wait of more than 30 seconds clears the busy flag, and then the main thread
  can write in the middle of a background section:
  `DefragIo.TimeoutAllowsOverlap`. `DefragIo.NoOverlap` is the law for all runs in
  which no wait gave up while a background thread was unfinished; other timeouts
  do no harm, and every such wait can be followed by an overlap
  (`DefragIo.CutAllowsOverlap`).
- `next_run_job` passes over a user whose queue counter is 0. That never hides a
  queued job, but it can hide a job paused by a time-out that could run again:
  `Dispatch.Exhausted` and `Dispatch.PathPassesOver` give the exact condition,
  `SchedulerLimits.PausedJobOverlooked` a case.
- A comment in `next_run_job` promises one job per user and pass. The loop variable
  goes on while `last_uid` moves, so a pass can ask a user twice and another one not
  at all: `SchedulerLimits.RoundSkipsUser`. The first start of a pass goes to the
  first user behind `last_uid` that has a job to start (`Dispatch.FirstServed`), a
  later one if and only if nobody could be served at the positions already passed
  (`Dispatch.LaterServed`).
- A `TS_SLOTS` line of the user file takes effect even when the refresh is then
  rejected: `Scheduler.Server.Refresh`.
- `s_resume_user` starts jobs without looking at any limit:
  `SchedulerLimits.ResumeOvercommits`. `Scheduler.Server.Resume` gives the exact
  condition: both counters rise by the slots of the user's paused jobs with a
  process, so each limit holds afterwards if and only if that sum fits below it.
- A comment in `s_newjob` calls a limit of 0 "unlimited (e.g. root)";
  `next_run_job` never starts a job of such a user: `SchedulerLimits.RootNeverStarts`.
- Only queued and running dependencies hold a job back, not paused, locked, held or
  abnormal ones: `SchedulerLimits.PausedDependencyIsReady`.
- After a restart paused jobs hold CPUs again (`cgroups.c:1028-1053`), so a running
  job may find none although there are slots: `SchedulerLimits.PausedJobKeepsCpus`.
  Every binding succeeds while only running jobs hold CPUs and neither the slot
  limit nor the slots in use exceed the CPUs: the last clauses of
  `Scheduler.Server.Run`.
- Four characters behind `\u` that are not all hexadecimal digits are read as 0
  instead of being refused: `JsonSpelling.Unit`, part of the exact grammar of
  `JsonSpelling.Accepts`.
- Removing a finished job announces a failure to its dependents a second time. The
  ledger counts both announcements (`DependencyLedger.ForgetKeeps`).
- A job requeued before its process was reported starts with negative work time:
  `JobClock.PauseBeforeStart`. `JobClock.WorkSinceReport` gives the exact condition:
  work time is the time worked since the report if and only if no pause was counted
  before it.
- Rows of held and abnormal jobs are left in the database without a job after a
  restart. `QueueOrder` calls them orphans; the queue is still what remains when
  they are skipped.

## Model

| member | source | states |
|---|---|---|
| `GreedyGroups.FewestGroups` | cpu_bind.c:81-139 | emptying the largest groups first and finishing with the tightest fit touches no more groups than any choice of candidate groups holding as many free cores |
| `GreedyGroups.AtMostOneFragment` | cpu_bind.c:67-74 | every touched group but possibly the last is drained completely |
| `GreedyGroups.OutcomeTight` | cpu_bind.c:93-108 | what one candidate group can supply is taken from a single group with the fewest free cores among those that can |
| `GreedyGroups.DrainOneMore` | cpu_bind.c:110-132 | taking the largest remaining group keeps the drained groups the largest ones |
| `NodeChoice.FewestNodes` | cpu_bind.c:221-237 | no smaller set of nodes holds N free cores than the nodes that cross_node_merge collects |
| `NodeChoice.PrefixIsNeeded` | cpu_bind.c:221-237 | the number of nodes that cross_node_merge collects is the least number of nodes with N free cores |
| `NodeChoice.ChosenAreTouched` | cpu_bind.c:221-241 | whichever N free cores of the collected nodes are taken, every collected node contributes one and no other node does |
| `NodeChoice.SortedIsRanked` | cpu_bind.c:182-203 | any sorted permutation of the node ids ranks the nodes by free cores |
| `CpuSteps.Advance` | cpu_bind.c:86-136 | each round of alloc_from_groups takes something and leads to another round or to the finished selection |
| `CpuPlacement.SelectedIsOptimal` | cpu_bind.c:81-139 | a finished selection uses the fewest groups, and quality counts at most one broken group |
| `CpuPlacement.ExactFit` | cpu_bind.c:93-108 | if some candidate group has exactly N free cores, the N cores are a whole such group and no group is broken |
| `CpuPlacement.PlacedIsBooked` | cpu_bind.c:150-179 | after a placement the record matches the owner map, so the check that follows never fires |
| `CpuPlacement.NothingHeld` | cpu_bind.c:296-312 | a record without CPUs frees nothing when it is dropped, as after a refused allocation |
| `CpuLedger.Book` | cpu_bind.c:54-75 | placing an allocation on free CPUs keeps the owned CPUs the disjoint union of the live allocations |
| `CpuLedger.Unbook` | cpu_bind.c:339-362 | freeing one allocation leaves all others owning exactly what they list |
| `CpuLedger.LiveAlloc` | cpu_bind.c:339-352 | a live allocation owns its CPUs, all of them in the topology |
| `CpuDefrag.LedgerFits` | cpu_bind.c:770-800 | what the live allocations hold fits the machine, and is what is not free |
| `CpuDefrag.RoomFor` | cpu_bind.c:802-844 | half-way through a defragmentation there is always room for every allocation that waits: no shortfall |
| `CpuDefrag.OldCpusFree` | cpu_bind.c:790-800 | the old CPUs of an allocation that broke no group are still free when it is restored |
| `CpuDefrag.SettleMoved` | cpu_bind.c:802-844 | a moved allocation keeps its CPU count and node settings, breaks no more groups than before and gets no error flag |
| `CpuDefrag.AllSettled` | cpu_bind.c:770-845 | when all are settled the ledger is complete and as many CPUs are free as before |
| `CpuDefrag.LedgerPermuted` | cpu_bind.c:770-773 | sorting the list of allocations changes nothing else |
| `CpuDefrag.SomeBroken` | cpu_bind.c:775-780 | after sorting, everything from the split point on broke a group |
| `CpuBind.Allocator.constructor` | cpu_bind.c:249-274 | the start: every CPU free, counts and reverse index as the topology says |
| `CpuBind.Allocator.TakeFromGroup` | cpu_bind.c:54-75 | takes as many free CPUs of the group as there are, at most N, lowers group and node count by that, and counts a broken group |
| `CpuBind.Allocator.BestFit` | cpu_bind.c:93-108 | the candidate with the smallest sufficient count, or -1 if there is none |
| `CpuBind.Allocator.Largest` | cpu_bind.c:110-122 | the candidate with the largest count, or -1 if all are empty |
| `CpuBind.Allocator.AllocFromGroups` | cpu_bind.c:81-139 | with enough free cores in the given groups exactly N are taken, from the fewest groups; otherwise all of them and the error flag |
| `CpuBind.Allocator.CollectNodes` | cpu_bind.c:221-237 | collects the shortest prefix of the ranked nodes that holds N free cores, and all its groups |
| `CpuBind.Allocator.PrimaryNode` | cpu_bind.c:205-219 | none for requests beyond a group, else one of the fullest nodes by job id |
| `CpuBind.Allocator.CrossNodeMerge` | cpu_bind.c:196-243 | N CPUs on exactly the nodes named in mem_nodes, as few nodes as possible; the primary node is among them exactly when the job id modulo the number of fullest nodes is below the number of nodes needed |
| `CpuBind.Allocator.PostAlloc` | cpu_bind.c:150-179 | the record comes back sorted and without an error whenever it matches the owner map |
| `CpuBind.Allocator.TotalFree` | cpu_bind.c:303-306 | the sum of the node counts is the number of free CPUs |
| `CpuBind.Allocator.FullestNode` | cpu_bind.c:316-325 | the fullest node that can hold the job alone, or -1 |
| `CpuBind.Allocator.Place` | cpu_bind.c:314-336 | all or nothing beyond the free-count check: N CPUs, on one node if one can hold them |
| `CpuBind.Allocator.Alloc` | cpu_bind.c:296-337 | succeeds exactly when binding is on and 0 < N <= free CPUs; then N CPUs on exactly the nodes of mem_nodes, as few as possible; otherwise only the error flag changes |
| `CpuBind.Allocator.AllocInit` | cpu_bind.c:364-376 | an empty record joins the list |
| `CpuBind.Allocator.FreeAlloc` | cpu_bind.c:339-362 | exactly the CPUs of the record become free, the counts follow, the record leaves the list |
| `CpuBind.Allocator.Claim` | cpu_bind.c:951-983 | the named free CPUs go to the job, sorted, and the counts follow |
| `CpuBind.Allocator.Bind` | jobs.c:1334-1348 | init, alloc and free on failure: bound exactly when binding is on and 0 < N <= free CPUs, else nothing has changed |
| `CpuBind.Allocator.DefragStart` | cpu_bind.c:763-845 | for every valid state and every way of breaking ties: starting from the unbroken allocations alone, the others are placed one by one, fewest broken groups first and large before small: first those that their primary node can hold at their turn, on its fewest groups and in the tightest one if one suffices, then the rest on the fewest nodes; each keeps its CPU count, primary node, memory nodes and broken-group count or better, none gains an error flag, unbroken ones keep their CPUs, and as many CPUs are free as before |
| `CpuRebuild.ExactTurn` | cpu_bind.c:802-822 | an allocation for which some group of its primary node has exactly as many free cores as it needs, when its turn comes, breaks no group afterwards |
| `CpuSample.DefragHelps` | cpu_bind.c:763-845 | on every machine of one node and two groups of four: three jobs bind two CPUs each, the first one leaves, and a defragmentation puts the third one beside the second, so that a whole group is free |
| `CpuBind.Allocator.FreeEverything` | cpu_bind.c:339-362 | freeing all allocations one by one leads back to the initial state |
| `CpuBind.Allocator.Run` | cpu_bind.c:249-376 | every sequence of bind, claim, free, switching and defragmentation keeps the allocator valid, and releasing what is left restores the initial state |
| `CpuBind.PrimaryOutside` | cpu_bind.c:205-219 | three nodes tied at two free cores and job 2 asking for three: the binding succeeds and its primary node is not among its memory nodes |
| `Cpuset.ParsedJoin` | cpu_bind.c:905-945 | single CPUs and ranges with any blanks and commas between them are read as exactly the CPUs they denote, up to the caller's room, if every entry lies below the limit and no range is upside down, and refused otherwise |
| `Cpuset.ParsedList` | cpu_bind.c:905-945 | the same for the List format of cpuset(7) |
| `Cpuset.ParseCpuset` | cpu_bind.c:905-945 | the reading loop computes that result on every text of digits, dashes, commas and blanks |
| `Cpuset.FormatCpus` | cpu_bind.c:985-1004 | the text is the comma-separated list and never fills the buffer of 12 bytes a CPU plus one |
| `CpuRestart.ReadBack` | cpu_bind.c:905-1004 | what was written for an allocation is read back unchanged |
| `CpuRestart.Rebuild` | cgroups.c:1028-1053 | formatting, parsing and claiming all live allocations in any order rebuilds the same owner map and counts |
| `DefragIo.RunInvariant` | cpu_bind.c:412-427 | what mutex, flag and threads keep in every interleaving |
| `DefragIo.NoOverlap` | cpu_bind.c:661-705 | while no wait has timed out before every background thread was done, the main thread never writes between a freeze and its thaw |
| `DefragIo.OneInSection` | cpu_bind.c:669-705 | at most one background thread is in its section, even with timeouts |
| `DefragIo.FlagIsCleared` | cpu_bind.c:875-896 | the busy flag never stays set once every background thread is done |
| `DefragIo.TimeoutAllowsOverlap` | cpu_bind.c:419-424 | a run in which a timeout leads to an overlap |
| `DefragIo.CutAllowsOverlap` | cpu_bind.c:419-424 | from every reachable state, a wait that gives up over an unfinished background thread has a continuation in which the main thread writes inside that thread's section |
| `SlotMoves.StopSteady` | jobs.c:140-149 | giving slots back keeps every counter at or above what it counts, and exact counters exact |
| `SlotMoves.StartSteady` | jobs.c:151-168 | starting a job keeps every counter at or above what it counts, and exact counters exact |
| `SlotMoves.QuitSteady` | jobs.c:1195-1216 | so does leaving the list |
| `SlotMoves.LaunchCapped` | jobs.c:1082-1105 | starting a job that fits raises neither busy_slots nor the user's counter above its limit |
| `SlotMoves.FitsNeedsSlots` | jobs.c:1082-1083 | a job fits only if its user has a positive limit |
| `SlotBooks.Replaced` | jobs.c:140-168 | one job changing keeps all invariants when the counters move as far as what they count |
| `SlotBooks.OnlyReordered` | jobs.c:1642-1666 | moving jobs about changes no counter |
| `Dispatch.QueueCounted` | jobs.c:1056 | user.queue is never 0 while the user has a queued or held job |
| `Dispatch.NothingFound` | jobs.c:1054-1109 | a pass that starts nothing leaves nothing to start, except paused jobs of users whose queue counter is 0 |
| `Dispatch.PathPassesOver` | jobs.c:1056 | a user whose queue counter is 0 is passed over by the whole call: its jobs stay as they are |
| `Dispatch.LaunchAdvances` | jobs.c:1085-1105 | each start lowers the weighted count of held, queued and paused jobs, so next_run_job ends |
| `Dispatch.EveryUser` | jobs.c:1054-1055 | a pass that does not move last_uid asks every user |
| `Dispatch.NextTurn` | jobs.c:1054-1055 | a pass begins at last_uid and goes on from each user to the next, in a circle |
| `Dispatch.FirstServed` | jobs.c:1052-1061 | the first start of a pass goes to the first user, counted from last_uid, with a non-zero queue counter and a job to start |
| `Dispatch.LaterServed` | jobs.c:1052-1105 | a later start of the pass does so if and only if nobody could be served at the positions up to that of the start before |
| `Dispatch.MustPick` | jobs.c:1052-1109 | a user that can be served at a position still to come, while slots are free, is not passed by: the next start is at that position or before |
| `Dispatch.FirstIsReady` | jobs.c:1064-1077 | when nothing runs, the queued job with the smallest id has no dependency that holds it back |
| `Dispatch.NoDeadlock` | jobs.c:1044-1114 | with nothing running, slot counters equal to what they count, and every queued job connected, due and fitting an empty machine, something can start |
| `Scheduler.Server.constructor` | server.c:264-270 | a server without jobs on a fresh allocator and an empty table is valid, exact and fully bound |
| `Scheduler.Server.FreeCores` | jobs.c:140-149 | refunds the slots of a job that has them recorded, once |
| `Scheduler.Server.FreeCpus` | jobs.c:1149-1153 | the allocator gives back the CPUs of this job and leaves every other allocation as it is |
| `Scheduler.Server.Defrag` | jobs.c:1154-1155 | a defragmentation happens, as `CpuBind.Allocator.DefragStart` tells, and keeps every job matched with as many CPUs as it says it has |
| `Scheduler.Server.BindCpus` | jobs.c:1334-1348 | the allocator grants all or nothing, exactly as the CPUs that other jobs hold allow, and still matches the jobs |
| `Scheduler.Server.ConfigRunning` | jobs.c:151-189 | a paused or queued job is charged, runs, gets its limit back positive, its pause closed and CPUs if it has a process; any other job is refused |
| `Scheduler.Server.SafePause` | jobs.c:1560-1569 | slots and CPUs are given back and the pause begins |
| `Scheduler.Server.IsReady` | jobs.c:1064-1077 | true exactly when no dependency is queued or running |
| `Scheduler.Server.ScanUser` | jobs.c:1061-1107 | starts the first job of the user in the queue that may start, whereupon last_uid is the next user; finds none only if there is none |
| `Scheduler.Server.Round` | jobs.c:1052-1109 | every start of a pass is the first job in the queue of its user that may start; the users are asked in turn from last_uid, none that could be served is passed over between two starts, and last_uid moves behind each one served; if it starts none, none is left |
| `Scheduler.Server.WakeHeld` | jobs.c:1036-1042 | all held clients are queued, the first in the queue first, and nothing else changes |
| `Scheduler.Server.NextRunJob` | jobs.c:1044-1114 | ends; it is a sequence of such passes, each but the last with a start and followed by the waking of held clients; every step starts the first job of its user that is connected, due, has no queued or running dependency and fits both limits; no such job is left; limits hold; an idle server with equal counters and work starts some |
| `PromisesKept.StartableIs` | jobs.c:1064-1083 | which job may start, field by field: queued, connected, with its scheduled time reached and no queued or running dependency, or paused with a negative limit above the CPU time used; within both limits |
| `PromisesKept.TimelyPath` | jobs.c:1079-1081 | along every run of steps each queued job that starts has reached its scheduled time |
| `Scheduler.Server.Relegate` | jobs.c:213-219 | the job is paused and its limit becomes the old one plus a day, negated |
| `Scheduler.Server.CheckTimeout` | jobs.c:221-264 | a running job with a process is paused, with the negated limit plus a day, if and only if now - start - pauses exceeds both its limit and two seconds; every other job is unchanged; the late ones stand behind the others, the last of them first, in memory and in the table; counters and ledger are kept |
| `PromisesKept.TimedOutIs` | jobs.c:221-236 | the test of check_timeout over the fields of the record, and what a relegation leaves |
| `Scheduler.Server.Notify` | jobs.c:1397-1409 | every job on the list inherits the error level once per mention, no other does |
| `Scheduler.Server.Archive` | jobs.c:1133-1141 | the job is the last of the finished list, and the oldest entry is dropped exactly when the list was full |
| `Scheduler.Server.Finish` | jobs.c:1181-1216 | slots and CPUs come back, dependents inherit the error level, the job is the newest finished one, as skipped or finished, and the oldest is dropped exactly when the list was full; its row leaves the table and its announcement enters the ledger; the remaining allocations are rebuilt as `CpuBind.Allocator.DefragStart` tells |
| `Scheduler.Server.BuryDead` | jobs.c:342-360 | afterwards no started job is without a live process, every job that had one is still there as it was, and exactly the dead ones have announced a 1; without dead jobs nothing changes |
| `Scheduler.Server.Recount` | jobs.c:362-380 | all counters are equal to what they count: user.queue is the number of the user's jobs that do not run, user.jobs the number of those that do |
| `PromisesKept.RestCounted` | jobs.c:362-380 | the sum behind user.queue is the number of jobs that do not run |
| `Scheduler.Server.UpdateSlotsUsage` | jobs.c:339-385 | busy_slots and every user.busy are restored to equality, every late job has been prolonged, no job without a live process is left, only those have gone, no limit of a user has changed; after a time-out nothing is left to start, and without late and dead jobs the list of jobs is as it was |
| `Scheduler.Server.Renew` | jobs.c:339-380 | its part before dispatching |
| `Scheduler.Server.Hold` | server_user.c:238-296 | refused exactly when the caller is suspended or the job unknown. A caller who is neither the owner nor root changes no state, slots, CPUs or counters; the owner's or root's queued job is locked and leaves the queue counter, a running one with a process is paused and gives slots and CPUs back; a paused one with a negative limit gets the positive one; everything else is unchanged |
| `PromisesKept.HeldKept` | server_user.c:238-296 | the same of the step alone |
| `Scheduler.Server.Cont` | server_user.c:298-357 | refused exactly when the caller is suspended or the job is not there after the update. A caller who is neither the owner nor root changes no state, slots, CPUs or counters; a locked job of the owner is queued again and counted; a paused one with a process goes on when it fits the caller's and the global limit, and else waits with a negative limit; everything else is unchanged |
| `PromisesKept.ContinuedKept` | server_user.c:298-357 | the same of the step alone |
| `PromisesKept.HoldThenCont` | server_user.c:238-357 | continuing after holding a queued job gives jobs, users and counters back as they were |
| `Scheduler.Server.Requeue` | server_user.c:359-389 | a running or paused job that the caller may touch is relegated and goes to the back; every other request is refused |
| `Scheduler.Server.Suspend` | server_user.c:132-156 | the limit turns negative, no live job is lost, and with root's limit 0 no job of the user with a process runs: only jobs that never reported one still count as running |
| `Scheduler.Server.Resume` | server_user.c:117-130 | the limit turns positive, exactly the paused jobs of the user that have a process run now, all others are as they were; busy_slots and the user's counter rise by exactly the slots of those jobs, so each stays within its limit if and only if that sum fits |
| `Scheduler.Server.SuspendAll` | server_user.c:107-110 | every user but root has the negated limit and, with root's limit 0, no running job with a process; root keeps its own limit |
| `Scheduler.Server.ResumeAll` | server_user.c:112-115 | all users but root get their limits back, and exactly their paused jobs with a process go on |
| `Scheduler.Server.ReadUserFile` | user.c:120-176 | each user has the limit of the last line that names it, users named for the first time join behind the others while there are fewer than 100, and max_slots is the last positive TS_SLOTS line |
| `UserRequests.RefreshTest` | server_user.c:59-105 | a refresh is accepted if and only if no line that stands changes the limit of a known user |
| `Scheduler.Server.Refresh` | server_user.c:59-105 | a refresh that would change a limit leaves users, jobs and counters as they were; an accepted one only adds users behind those there were, whose limits stay; max_slots follows the file in both cases |
| `Scheduler.Server.RunJobOk` | jobs.c:1319-1355 | accepted exactly for a running job without process and CPUs; then the process is recorded, the clock starts, and the job gets all its CPUs while only running jobs hold CPUs and busy_slots is within the topology; start is set only if it was 0 |
| `Scheduler.Server.Disconnect` | server.c:481-526 | an unknown job changes nothing; a started job ends as killed and announces a 1, any other one is dropped |
| `Scheduler.Server.CleanupOrphans` | jobs.c:1737-1751 | every queued job that is left has a client, and no other job has gone |
| `Scheduler.Server.Remove` | jobs.c:1421-1534 | accepted exactly when the job meant belongs to the caller or the caller is root, and it has neither started nor become abnormal, or is finished; then it is gone and announces a 1; refused requests change nothing |
| `Scheduler.Server.CheckHealth` | jobs.c:277-337 | of the running jobs not yet found healthy, five minutes after their start, exactly the idle ones become abnormal and lose slots and CPUs, the busy ones are marked healthy; every other job is unchanged |
| `Scheduler.Server.Urgent` | jobs.c:1619-1652 | the job goes to the front in memory and in the table, the others keep their order |
| `Scheduler.Server.Swap` | jobs.c:1654-1675 | the two jobs change places in memory and in the table |
| `Scheduler.Server.AddWallTime` | jobs.c:571-615 | accepted exactly when the id is not 0, the job is active and the limit neither overflows nor stops being positive; the sign is kept |
| `Scheduler.Server.Reconnect` | server.c:734-778 | accepted exactly for a queued, running or locked job of the same user whose process, if both name one, is the same; only its client changes |
| `Scheduler.Server.DependOnId` | jobs.c:901-919 | a named dependency is awaited while active, counts at once by its error level when finished, and counts as a failure when unknown; the ledger records which |
| `Scheduler.Server.LatestQueued` | jobs.c:848-858 | the newest job in the queue, or none exactly when a later one has ended |
| `Scheduler.Server.LatestError` | jobs.c:876-899 | the error level of the newest stored job, or the last one seen if that is later |
| `Scheduler.Server.DependOnLast` | jobs.c:845-900 | a dependency on the last job awaits the newest in the queue, or inherits at once; the ledger records which |
| `Scheduler.Server.Depend` | jobs.c:829-923 | over the whole list: whom the job depends on, what it inherits at once and whom it awaits are functions of the state before; the ledger is exactly extended by that and stays balanced |
| `PromisesKept.DependencyIs` | jobs.c:845-919 | what one requested dependency stands for, by the ids and error levels of the records: a named job is awaited while active, counts by its error level when stored and as a failure otherwise; the last job is the newest in the queue unless a later one has ended, else the newest stored one |
| `Scheduler.Server.Enqueue` | jobs.c:768-1016 | refused exactly when it asks for more than its user's limit; else the job joins with the next id and what its client asked for, the smaller of the two limits, queued or held by the number of jobs, is counted as waiting, and its inherited error level and awaited dependencies are fixed in the ledger |
| `Scheduler.Server.Submit` | jobs.c:738-1016 | a submission after an update: dead jobs announce a 1, then the job joins; entries of the ledger for earlier ids stay as they were |
| `Scheduler.Server.Restart` | jobs.c:1219-1292 | whatever rows an earlier server left and whatever the cpuset files name: for every row that is queued, locked or paused, or running with a live process, and whose process has not died, a job with its id, user, slots, dependencies and limit, up to whole days added by time-outs, is active, and every active job comes from such a row; a late one has got a day; without late and dead jobs every record is that of its row, a running one as paused if its row had an open pause; no job without a live process is left; without late and dead jobs, files that name separate CPUs of the machine, each fitting its job, are all claimed; the slot counters are equal to what they count, the allocator and the table match the jobs, the limits are those of the users, and the jobs taken up stand in the order in which the server before had them |
| `PromisesKept.RestoredKept` | jobs.c:1219-1263 | which rows are taken up and with which fields, said without the function that does it |
| `PromisesKept.LoadedKept` | jobs.c:1219-1278 | every row that can be taken up is, and every job comes from such a row |
| `PromisesKept.RecoveredFrom` | jobs.c:1219-1292 | the same after the update that follows, outside dead jobs |
| `Scheduler.Server.Boot` | jobs.c:1219-1278 | every queued, locked or paused row and every running one with a live process becomes a job with the fields of its row, and nothing else does; exactly the rows of running jobs without a live process are deleted, all others without a job are orphans, and the order of the queue has survived |
| `Scheduler.Server.PutBack` | jobs.c:254-261 | the late jobs go behind the others in memory and in the table |
| `Scheduler.Server.RestoreCpus` | cgroups.c:1028-1053 | over all cpuset files only the CPUs of jobs change, each only to as many as a file of that job names; if the files name separate free CPUs and each fits its job, all are claimed; jobs and allocator still match |
| `Scheduler.Server.ClaimCpus` | cgroups.c:1028-1053 | granted exactly for a running or paused job without CPUs whose file names free CPUs of the topology, at most its slots; then the job has exactly those |
| `Scheduler.Server.Load` | jobs.c:1219-1278 | the restored jobs are those of which `PromisesKept.LoadedKept` speaks, in table order |
| `Scheduler.Server.Serve` | server.c:400-452 | one request: what it does to jobs, users and limits, request by request (`ServerEffects.Does`), the invariants of `SlotBooks.Steady`, who announces what (`ServerHistory.Announces`), what a new job depends on, inherits and awaits (`ServerHistory.Joins`), no ledger entry of an earlier job changes, no clock reading moves, no job of a user without slots starts unless the user is resumed, and full binding is kept while the slots fit the CPUs |
| `Scheduler.Server.Run` | server.c:345-455 | over every sequence of requests: each has its own effect (`ServerEffects.Does`); busy_slots and each user.busy and user.queue are never below what they count; only running jobs hold slots; exact counters stay exact and then bound CPUs are within the slots of running jobs; jobs and allocator match; the table read back lists the jobs in their order, and exactly them if no orphan rows were left at the start; if neither the slot limit nor busy_slots ever exceeds the CPUs, every running job that reported a process has all its CPUs; work and pause time of every started job are what they were plus the time between requests spent not paused and paused; the limit of every job grows by accepted additions, a day per requeue and whole days at updates, the last of them only while the work time exceeded the limit; from every moment on, also for jobs that joined in the run, the inherited error level has risen by exactly what the awaited dependencies announced; and with root's limit 0 no job of a user without slots starts at any moment before the user is resumed |
| `ServerHistory.HistoryClock` | runtime_limit.c:162-177 | between any two moments of a run the work time of a started job grows by exactly the time between requests in which it was not paused, its pause time by the rest |
| `ServerHistory.HistoryLimit` | jobs.c:571-615 | between any two moments of a run the limit of a job, without its sign, grows by the accepted additions and a day per requeue, plus whole days that only updates (time-outs) add |
| `ServerHistory.HistoryDays` | jobs.c:221-264 | at every moment of a run at which the limit of a started job grows beyond what the request gives outright, its work time exceeds two seconds and the new limit less a day, that is the limit it had before the last day was added |
| `ServerHistory.HistoryQuiet` | server_user.c:132-156 | from the moment a user has no slots until it is resumed, at no moment has it a running job that it had not before |
| `ServerHistory.HistoryLevels` | jobs.c:1397-1409 | from every moment of a run to its end the error level of each job grows by what its awaited dependencies announced, also for jobs that joined meanwhile |
| `ServerHistory.ElapsedFills` | runtime_limit.c:162-177 | both together are all the time that has passed |
| `ServerHistory.HistoryInStep` | jobs.c:122-138 | in every run a pause is open exactly while the job is paused |
| `ServerClock.TickedPath` | jobs.c:1085-1105 | a whole dispatching pass moves no reading of a clock |
| `ServerClock.TickedContinued` | server_user.c:298-357 | nor does continuing a job, whether it starts, waits or is queued again |
| `ServerClock.TickedChecked` | jobs.c:238-264 | nor do time-outs |
| `JobTable.TableIsQueue` | sqlite.c:497-510 | however the table is listed by order_id, the active jobs come in the order of the vector, and nothing else does when there are no orphans |
| `JobTable.OrderSurvives` | jobs.c:1265-1278 | the jobs that a new server takes up stand in the order of the vector of the server before |
| `JobTable.FiledLoaded` | jobs.c:1219-1263 | what a new server takes up agrees with the rows it leaves |
| `ServerHistory.HistoryInherits` | jobs.c:1397-1409 | between any two moments of a run a job's inherited error level grows by exactly what the dependencies it awaits announced in between, once per mention |
| `ServerHistory.HistoryBound` | jobs.c:1334-1348 | full binding at the start and slots within the CPUs at every moment give full binding at the end |
| `ServerHistory.HistoryGrows` | jobs.c:1397-1409 | the announcements of the requests add up to those of the run, and what was fixed at enqueue stays fixed |
| `UserRequests.CapSteady` | server_user.c:132-134 | changing the sign of a limit keeps the invariants |
| `UserRequests.GrownSteady` | user.c:160-176 | new users keep the invariants |
| `Requests.LoadedOk` | jobs.c:1219-1263 | restored jobs are well-formed, distinct and known to the roster |
| `Requests.EndedBalance` | jobs.c:1195-1216 | ending a job keeps the dependency ledger balanced |
| `SlotMoves.RoomForRunning` | jobs.c:1334-1348 | while only running jobs hold CPUs, held CPUs leave room for a running job without any, if busy_slots is within the topology |
| `SlotMoves.RoomForStarting` | jobs.c:169-187 | the same for a paused job that starts again |
| `DependencyLedger.EndKeeps` | jobs.c:1397-1409 | for every active job the inherited error level stays the amount at enqueue plus what its awaited dependencies announced since |
| `DependencyLedger.ForgetKeeps` | jobs.c:1489-1522 | removing a finished job adds one more announcement of 1, and the equation still holds |
| `DependencyLedger.EnqueueKeeps` | jobs.c:839-843 | a new job starts balanced |
| `DependencyLedger.AwaitKeeps` | jobs.c:525-540 | awaiting an active job links both sides once more |
| `DependencyLedger.BalancedFrom` | jobs.c:238-264 | reordering, dropping and other edits do not touch the ledger |
| `DependencyLedger.Inherits` | jobs.c:1397-1409 | two balanced states with growing books: the difference of error levels is what the awaited dependencies announced |
| `DependencyLedger.OwedIsTold` | jobs.c:1397-1409 | what a job is owed by a list of endings is what it is told when each ending goes through its notify list |
| `SchedulerLimits.RootNeverStarts` | jobs.c:1083 | with limit 0 no job of root can start |
| `SchedulerLimits.PausedJobOverlooked` | jobs.c:1056 | on a server with one paused job that could start, next_run_job starts nothing |
| `SchedulerLimits.RoundSkipsUser` | jobs.c:1051-1105 | two slots, user 1 with two jobs waiting and user 2 with one: a pass that begins at user 1 gives both slots to user 1 |
| `SchedulerLimits.ResumeOvercommits` | server_user.c:121-127 | resuming a user with two paused jobs, limit 1 and max_slots 1, leaves busy_slots and the user's counter at 2 |
| `SchedulerLimits.PausedJobKeepsCpus` | cgroups.c:1028-1053 | a restart leaves a paused job with both CPUs; a queued job reconnects, is started and reports, and gets none although busy_slots is within the topology |
| `SchedulerLimits.PausedDependencyIsReady` | jobs.c:1070-1071 | a job is ready if and only if no active dependency is queued or running; paused, locked, held and abnormal ones do not count |
| `SlotBinding.FreeIsRest` | cpu_bind.c:303-312 | the allocator's free CPUs are the topology's total minus what the scheduler's jobs hold |
| `SlotBinding.SameVerdict` | cpu_bind.c:303-312 | the allocator grants a request exactly when the scheduler's own count of held CPUs leaves room |
| `SlotBinding.MatchesKept` | cpu_bind.c:763-845 | allocations rearranged by a defragmentation still match the jobs |
| `SlotBinding.MatchesReleased` | jobs.c:1149-1153 | giving back one job's allocation leaves all others matched |
| `JobClock.TimesAddUp` | runtime_limit.c:162-177 | over every history work time is the sum of the intervals spent not paused and pause time the sum of the others |
| `JobClock.Conservation` | runtime_limit.c:162-177 | for a started job work time plus pause time is the time since the start |
| `JobClock.FrozenWhilePaused` | runtime_limit.c:167 | over every history without a continuation, the work time of a paused job stands still, whatever else is done to it |
| `JobClock.PauseBeforeStart` | jobs.c:213-219 | a job relegated before its first report starts with a negative work time |
| `JobClock.WorkSinceReport` | runtime_limit.c:162-177 | work time is the time worked since the report minus the pauses counted before it, so it is the time worked if and only if there were none |
| `JobClock.LimitAddsUp` | jobs.c:571-615 | the limit without its sign is the first one plus a day per relegation plus accepted additions, and never 0 |
| `QueueOrder.ListingIsQueue` | sqlite.c:497-510 | the rows sorted by order_id are the queue, with orphan rows in between; without orphans exactly the queue |
| `QueueOrder.OneListing` | sqlite.c:497-510 | rows with distinct order_ids can be listed in one way only |
| `QueueOrder.Store.EditRow` | sqlite.c:324-333 | a row keeps its order_id, a new one goes above all others |
| `QueueOrder.Store.Enqueue` | jobs.c:1001-1016 | the new job is last in memory and in the table |
| `QueueOrder.Store.Drop` | jobs.c:1019-1027 | the job leaves both, the rest agree |
| `QueueOrder.Store.Urgent` | sqlite.c:445-452 | the job is first in both; an unknown id changes nothing |
| `QueueOrder.Store.Requeue` | sqlite.c:454-461 | the job is last in both |
| `QueueOrder.Store.Swap` | sqlite.c:429-443 | the two jobs change places in both |
| `QueueOrder.Store.TimeOut` | jobs.c:238-264 | the late jobs go behind the others, in reverse order, in both |
| `QueueOrder.Store.Restart` | jobs.c:1265-1278 | the loaded jobs agree with the table; rows neither loaded nor deleted become orphans |
| `QueueOrder.Store.ReadJobIds` | sqlite.c:476-513 | reading the table gives the queue |
| `QueueOrder.Store.Run` | sqlite.c:429-461 | after every sequence of requests and restarts the table read back gives the queue, and without restarts exactly the queue |
| `JsonText.EscapedLength` | cjson/cJSON.c:929-952 | the escaped length computed beforehand is the length written |
| `JsonText.PrintVisible` | cjson/cJSON.c:1367-1438 | printed text holds no control character and begins with the byte of its kind |
| `JsonText.DigitsDenote` | cjson/cJSON.c:565-568 | decimal digits denote the number printed |
| `JsonRoundTrip.StringRound` | cjson/cJSON.c:773-899 | a quoted string is read back as the string |
| `JsonRoundTrip.NumberRound` | cjson/cJSON.c:305-379 | a printed C int is read back as the number |
| `JsonRoundTrip.ValueRound` | cjson/cJSON.c:1312-1364 | inside any text and at any depth, a printed value followed by a delimiter is read back whole exactly when it is not nested too deeply |
| `JsonRoundTrip.RoundTrip` | cjson/cJSON.c:1175-1260 | parsing the printed text gives the value back if and only if its depth is at most 1000 |
| `JsonSpelling.Accepts` | cjson/cJSON.c:1095-1178 | for every text, value and end: cJSON_Parse accepts the text up to there as that value if and only if, behind an optional byte order mark and white space, the bytes stand for it in a grammar that is defined without the parser (white space between tokens, all escapes, surrogate pairs and their UTF-8 bytes, numbers that are C ints) and it is at most 1000 deep |
| `JsonSpelling.ValueIs` | cjson/cJSON.c:1312-1364 | the same for a value at any place and depth |
| `JsonSpelling.ClosesIs` | cjson/cJSON.c:773-822 | the scan for the end of a string finds the first quote with an even number of backslashes before it |
| `JsonSpelling.EncodesIs` | cjson/cJSON.c:712-762 | the bytes written for a code point are the only ones that decode to it in shortest form |
| `JsonRoundTrip.PrintInjective` | cjson/cJSON.c:1367-1438 | values with the same text are equal |
| `JsonParser.ParseBuffer.SkipWhitespace` | cjson/cJSON.c:1038-1061 | the cursor moves as `JsonGrammar.Skip` tells, one step back at the end |
| `JsonParser.ParseBuffer.ParseHex4` | cjson/cJSON.c:615-648 | four hexadecimal digits, 0 for anything else |
| `JsonParser.ParseBuffer.Utf16Literal` | cjson/cJSON.c:652-770 | a literal or surrogate pair becomes the UTF-8 bytes of its code point, or fails |
| `JsonParser.ParseBuffer.EncodeUtf8` | cjson/cJSON.c:712-762 | the loop from the last byte gives the UTF-8 form |
| `JsonParser.ParseBuffer.ParseString` | cjson/cJSON.c:773-899 | the two loops read what `JsonGrammar.StringAt` tells |
| `JsonParser.ParseBuffer.ParseNumber` | cjson/cJSON.c:305-379 | the number and the cursor behind it, for texts that denote C ints |
| `JsonParser.ParseBuffer.ParseValue` | cjson/cJSON.c:1312-1364 | value, cursor and depth as `JsonGrammar.ValueAt` tells |
| `JsonParser.ParseBuffer.ParseArray` | cjson/cJSON.c:1441-1536 | refused at the nesting limit; else the elements up to the closing bracket |
| `JsonParser.ParseBuffer.ParseObject` | cjson/cJSON.c:1601-1711 | refused at the nesting limit; else the members up to the closing brace |
| `JsonParser.ParseDocument` | cjson/cJSON.c:1095-1178 | cJSON_Parse computes the function of which `JsonRoundTrip.RoundTrip` speaks |
| `JsonPrinter.PrintBuffer.Ensure` | cjson/cJSON.c:439-522 | room is made, nothing written is lost, and it fails exactly beyond INT_MAX |
| `JsonPrinter.PrintBuffer.UpdateOffset` | cjson/cJSON.c:525-535 | the offset moves to the NUL |
| `JsonPrinter.PrintBuffer.PrintString` | cjson/cJSON.c:902-1021 | the escaped string and its NUL fill exactly the room made for them |
| `JsonPrinter.PrintBuffer.PrintValue` | cjson/cJSON.c:1367-1438 | the text of the value stands behind the old offset and what was before is kept; fails exactly when the buffer would outgrow INT_MAX |
| `JsonPrinter.PrintBuffer.PrintArray` | cjson/cJSON.c:1539-1598 | the same for an array |
| `JsonPrinter.PrintBuffer.PrintObject` | cjson/cJSON.c:1714-1825 | the same for an object |
| `JsonPrinter.PrintDocument` | cjson/cJSON.c:1187-1260 | cJSON_PrintUnformatted gives the text of which `JsonRoundTrip.RoundTrip` speaks |
| `Vec.Vector.Reserve` | vec.c:92-101 | the contents stay, the capacity only grows |
| `Vec.Vector.Push` | vec.c:29-38 | appends, doubling a full vector; fails exactly when the capacity cannot double |
| `Vec.Vector.Pop` | vec.c:40-44 | takes the last element off |
| `Vec.Vector.Get` | vec.c:46-50 | the element, or nothing beyond the end |
| `Vec.Vector.Set` | vec.c:52-58 | replaces an element and gives the old one |
| `Vec.Vector.Insert` | vec.c:60-71 | the elements behind move up, none is lost |
| `Vec.Vector.Remove` | vec.c:73-80 | the elements behind move down, none is lost |
| `Vec.Vector.Clear` | vec.c:103-108 | nothing is left, the capacity stays |
| `Vec.RemoveInserted` | vec.c:60-80 | removing undoes inserting |
| `Vec.InsertRemoved` | vec.c:60-80 | inserting undoes removing |

## Left out

- cgroup files, signals, /proc, sockets and SQL text: only their effect on the modelled state is kept.
- The message loop of server.c: its requests are the steps of `Scheduler.Server.Run`; connection bookkeeping, the server lock and KILL_ALL are not modelled.
- Job records, allocations and users are values in sequences, found by id or index; pointers between them and their freeing are not modelled.
- mem_nodes is a set of node ids instead of a bitmap, and `best_excess` has no INT_MAX start value.
- Cpuset.ParseCpuset: only digits, dashes, commas and blanks; the source loops for ever on other characters, and digits beyond the int range are not modelled.
- parse_mems and format_mems: a claim takes its node settings as parameters, because the two functions are not meant to undo each other.
- CpuBind.Allocator.Claim: the CPUs named must be free and in the topology, as the source assumes without looking.
- Scheduler.Server.RunJobOk: only the first report of a dispatched job; a repeated one would bind CPUs twice and lose the first record.
- Scheduler.Server.Restart: the model counts once before s_update_slots_usage as well; restored jobs have nothing recorded as allocated, so that call changes no counter before it counts itself. The ledger of dependencies is promised for runs without a restart.
- Scheduler.Server.ClaimCpus: a cpuset file that names taken or unknown CPUs, more CPUs than slots, or belongs to a job that has CPUs already is passed over; the source claims without looking.
- Switching CPU binding on or off while the server runs is a request of `CpuBind.Allocator.Run` and not of `Scheduler.Server.Run`.
- Scheduler.Server.Run: one server lifetime; a restart gives the valid state from which the next run starts.
- ServerHistory.HistoryLimit: an update that suspends all users can relegate a job more than once; that the work time exceeded the limit is said for the last of the days one request adds (`ServerHistory.HistoryDays`).
- QueueOrder.Store: holds the ids of the jobs only; it is the table with its restarts, on the same table operations as `Scheduler.Server`.
- JobClock: follows the changes of one job record, each the effect of the request named beside it; readings of the jobs of the server are the subject of `ServerHistory.HistoryClock`; the unbounded integers do not show an overflow of a 64-bit limit by relegation.
- Client-chosen job ids, the WAIT and DELINK states, s_clear_finished and s_sort_jobs (TS_SORTJOBS is taken to be off).
- JSON: floating-point numbers, integers outside C int, formatted printing, raw items, comments and the editing functions. Child lists are sequences, and a decoded string keeps bytes behind a NUL that C code would not see.
- JsonParser.ParseBuffer.ParseNumber: texts that are not C ints, or longer than 62 characters, are answered by `Beyond`, of which nothing is said.
- Vec.Vector: allocation always succeeds; vec_create, vec_free and vec_destroy are not modelled.
