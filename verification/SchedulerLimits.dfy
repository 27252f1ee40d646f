/** What the scheduler does not promise, shown by calls on small servers. */
module SchedulerLimits {
  import opened JobRecord
  import opened SlotBooks
  import opened SlotMoves
  import opened Roster
  import opened Requests
  import opened Dispatch
  import UserRequests
  import opened PromisesKept
  import ServerHistory
  import ServerClock
  import opened SlotBinding
  import opened ServerBinding
  import opened JobTable
  import QueueOrder
  import opened Scheduler
  import CpuTopology
  import CO = CpuOwnership
  import CP = CpuPlacement
  import CpuBind

  /** With its limit of 0 root never gets a job started: next_run_job reads a
      limit of 0 as no slots, although s_newjob reads it as no limit. */
  lemma RootNeverStarts(c: Call, b: Books, i: nat)
    requires Sound(b) && RootIdle(b.users) && i < |b.active| && b.active[i].user == 0
    ensures !Startable(b, c.maxSlots, c.env, b.active[i])
  {
    if Fits(b, c.maxSlots, b.active[i]) {
      FitsNeedsSlots(b, c.maxSlots, i);
    }
  }

  function Sample(id: int, state: State, slots: int, held: int, bound: nat, wall: int, pid: int): Job {
    Job(id, state, 1, slots, held, bound, false, wall, 0, pid, 1, [], [], 0, 0, false, 1, 0, 0)
  }

  function TwoUsers(cap: int, busy: int, jobs: int): seq<User> {
    [User(0, 0, 0, 0, 0, false), User(1000, cap, busy, jobs, 0, false)]
  }

  lemma {:induction false} NoWeight(s: seq<Job>, m: Meter)
    requires forall k :: 0 <= k < |s| ==> Weight(s[k], m) == 0
    ensures Sum(s, m) == 0
  {
    if s != [] {
      NoWeight(s[..|s| - 1], m);
    }
  }

  /** Paused jobs without CPUs or dependencies. */
  ghost predicate OnlyPaused(s: seq<Job>) {
    && DistinctIds(s)
    && forall k :: 0 <= k < |s| ==> s[k].state.Paused? && JobOk(s[k], 2) && s[k].bound == 0 && 0 < s[k].id < 9 && s[k].deps == []
  }

  lemma NoCounters(cap: int)
    ensures RootFirst(TwoUsers(cap, 0, 0))
    ensures forall u :: 0 <= u < 2 ==> TwoUsers(cap, 0, 0)[u].busy == 0 && TwoUsers(cap, 0, 0)[u].jobs == 0 && TwoUsers(cap, 0, 0)[u].queue == 0
  {
  }

  lemma PausedSound(s: seq<Job>, cap: int)
    requires OnlyPaused(s)
    ensures Sound(Books(TwoUsers(cap, 0, 0), s, 0)) && OnRoster(s, [], 9) && Matches(s, [])
    ensures DistinctIds(s) && forall k :: 0 <= k < |s| ==> s[k].id < 9
  {
    var b := Books(TwoUsers(cap, 0, 0), s, 0);
    hide Sum;
    forall m: Meter | Counted(m, 2)
      ensures Sum(s, m) <= Reading(b.users, 0, m)
    {
      NoWeight(s, m);
    }
    NothingHeldYet(s);
  }

  /** A server whose only jobs are paused ones of user 1. */
  method PausedServer(jobs: seq<Job>, cap: int, slots: int, a: CpuBind.Allocator) returns (s: Server)
    requires OnlyPaused(jobs) && a.Valid() && a.allocs == []
    ensures fresh(s) && s.Valid() && s.cpu == a && s.maxSlots == slots
    ensures s.Now() == Books(TwoUsers(cap, 0, 0), jobs, 0) && Sound(s.Now()) && s.finished == [] && s.jobids == 9
  {
    hide CpuBind.Allocator.Valid, Matches, Sound, OnRoster, OnlyPaused, Exact, FullyBound, InBalance, CpuTopology.AllCpus, Filed, DistinctIds, QueueOrder.Members, Ids, RootFirst;
    NoCounters(cap);
    s := new Server(TwoUsers(cap, 0, 0), slots, 9, a, 100, 100);
    PausedSound(jobs, cap);
    assert [] + jobs == jobs;
    s.PutBack(jobs, {});
  }

  /** next_run_job leaves a job that could start: it was paused by a time-out, its
      limit has been raised, there are slots, and its user's queue counter is 0. */
  method PausedJobOverlooked(a: CpuBind.Allocator, env: Env) returns (s: Server, dispatched: nat)
    requires a.Valid() && a.allocs == [] && env.cpuTime(7) == 0
    modifies a`allocs, a.owner, a.groupFree, a.nodeFree
    ensures s.Valid() && dispatched == 0
    ensures s.active == [Sample(7, Paused, 1, 0, 0, -100, 7)] && Startable(s.Now(), s.maxSlots, env, s.active[0])
  {
    hide CpuBind.Allocator.Valid, Sound, Server.Valid, InBalance, Exhausted, Capped, Path, Advances, IdleWithWork;
    var j := Sample(7, Paused, 1, 0, 0, -100, 7);
    s := PausedServer([j], 2, 2, a);
    ghost var path;
    ghost var laps;
    dispatched, path, laps := s.NextRunJob(env);
    PathPassesOver(s.Calls(env), path, 1);
  }

  lemma TwoFrozen(s: seq<Job>)
    requires s == [Sample(7, Paused, 1, 0, 0, 100, 7), Sample(8, Paused, 1, 0, 0, 100, 8)]
    ensures OnlyPaused(s) && Sum(s, Frozen(1)) == 2
  {
    hide Sum;
    SumOne(s[0], Frozen(1));
    SumAppend([s[0]], s[1], Frozen(1));
    assert [s[0]] + [s[1]] == s;
  }

  /** s_resume_user starts paused jobs without looking at either limit. */
  method ResumeOvercommits(a: CpuBind.Allocator, env: Env) returns (s: Server)
    requires a.Valid() && a.allocs == []
    modifies a`allocs, a.owner, a.groupFree, a.nodeFree
    ensures s.Valid() && |s.users| == 2
    ensures s.maxSlots == 1 && s.busySlots == 2 && s.users[1].cap == 1 && s.users[1].busy == 2
  {
    hide CpuBind.Allocator.Valid, Sum, Sound, Server.Valid, InBalance, Steady, UserRequests.ResumedUpTo, OnlyPaused;
    var jobs := [Sample(7, Paused, 1, 0, 0, 100, 7), Sample(8, Paused, 1, 0, 0, 100, 8)];
    TwoFrozen(jobs);
    s := PausedServer(jobs, 1, 1, a);
    s.Resume(1, env);
  }

  /** Two rows of a database: a paused job and a queued one, two slots each. */
  function TwoRows(): seq<Job> {
    [Sample(7, Paused, 2, 0, 0, 100, 7), Sample(8, Queued, 2, 0, 0, 100, 0)]
  }

  /** The paused job as a restart at time `now` takes it up. */
  function Holder(now: int, bound: nat): Job {
    Sample(7, Paused, 2, 0, bound, 100, 7).(client := 0, pauseTime := now)
  }

  function Waiting(client: int): Job {
    Sample(8, Queued, 2, 0, 0, 100, 0).(client := client)
  }

  lemma RowsRead(env: Env, table: map<int, int>)
    requires table == map[7 := 1, 8 := 2]
    ensures RowsOk(TwoRows(), 2) && Apart(TwoRows(), []) && Listed(TwoRows(), table, 9) && OnRoster([], [], 9)
    ensures Loaded(TwoRows(), env) == [Holder(env.now, 0), Waiting(0)]
  {
    var rows := TwoRows();
    assert Ids(rows) == [7, 8];
    assert 7 in Ids(rows) by { assert Ids(rows)[0] == 7; }
    assert 8 in Ids(rows) by { assert Ids(rows)[1] == 8; }
    LoadedStep(rows, 0, env);
    LoadedStep(rows, 1, env);
    assert rows[..0] == [] && rows[..2] == rows;
  }

  lemma NoneStarted(env: Env)
    requires 7 in env.alive
    ensures var s := [Holder(env.now, 0), Waiting(0)]; !SomeLate(s, env.now) && NoneDead(env, s, 0)
  {
  }

  /** The server after a restart on these rows. */
  method Restarted(a: CpuBind.Allocator, env: Env) returns (s: Server)
    requires a.Valid() && a.allocs == [] && 7 in env.alive
    modifies a`allocs, a.owner, a.groupFree, a.nodeFree
    ensures fresh(s) && s.Valid() && Even(s.Now()) && s.cpu == a && s.maxSlots == 4 && s.binding == !a.disabled
    ensures SameCaps(TwoUsers(4, 0, 0), s.users) && s.active == [Holder(env.now, 0), Waiting(0)]
    ensures a.disabled == old(a.disabled)
  {
    hide CpuBind.Allocator.Valid, Matches, Sound, OnRoster, Exact, FullyBound, InBalance, CpuTopology.AllCpus, Filed, RowsOk, Apart, Listed, RootFirst, Even, Loaded, SomeLate, NoneDead, Survive, InOrder, SameCaps, Rebound;
    NoCounters(4);
    s := new Server(TwoUsers(4, 0, 0), 4, 9, a, 100, 100);
    s.table := map[7 := 1, 8 := 2];
    RowsRead(env, s.table);
    NoneStarted(env);
    s.Restart(TwoUsers(4, 0, 0), TwoRows(), [], 9, [], env);
    ReboundNone([Holder(env.now, 0), Waiting(0)], s.active);
  }

  /** Nothing runs, so the counters are 0. */
  lemma NothingRuns(b: Books, now: int, client: int, bound: nat)
    requires Even(b) && |b.users| == 2 && b.active == [Holder(now, bound), Waiting(client)]
    ensures b.busySlots == 0 && b.users[1].busy == 0
  {
    NoWeight(b.active, AllSlots);
    NoWeight(b.active, Slots(1));
    hide Sum;
    assert Sum(b.active, AllSlots) == Reading(b.users, b.busySlots, AllSlots);
    assert Sum(b.active, Slots(1)) == Reading(b.users, b.busySlots, Slots(1));
  }

  /** One step can only start the queued job. */
  lemma OnlyStep(c: Call, a: Books, b: Books, client: int, bound: nat)
    requires StepOf(c, a, b) && |a.users| == 2
    requires a.active == [Holder(c.env.now, bound), Waiting(client)]
    ensures b == Launch(a, 1, c.env.now, c.cpus, c.binding)
  {
    hide Launch;
    var i: nat :| Launches(c, a, b, i) || Wakes(a, b, i);
    assert i == 1;
  }

  lemma LaunchedJob(a: Books, now: int, cpus: nat, binding: bool, client: int, bound: nat)
    requires |a.users| == 2 && a.active == [Holder(now, bound), Waiting(client)]
    ensures var b := Launch(a, 1, now, cpus, binding);
      && b.active == [Holder(now, bound), Waiting(client).(state := Running, held := 2)]
      && b.busySlots == a.busySlots + 2 && |b.users| == 2
  {
  }

  lemma NoMore(c: Call, a: Books, b: Books, client: int, bound: nat)
    requires a.active == [Holder(c.env.now, bound), Waiting(client).(state := Running, held := 2)]
    ensures !StepOf(c, a, b)
  {
  }

  /** The queued job is the only one that a pass can start. */
  lemma {:induction false} OnlyStart(c: Call, p: seq<Books>, client: int, bound: nat)
    requires Path(c, p) && |p[0].users| == 2 && p[0].active == [Holder(c.env.now, bound), Waiting(client)]
    ensures p[|p| - 1] == p[0] || p[|p| - 1] == Launch(p[0], 1, c.env.now, c.cpus, c.binding)
    decreases |p|
  {
    hide StepOf, Launch;
    if |p| > 1 {
      var n := |p| - 1;
      OnlyStart(c, p[..n], client, bound);
      assert StepOf(c, p[n - 1], p[n]);
      LaunchedJob(p[0], c.env.now, c.cpus, c.binding, client, bound);
      if p[n - 1] == p[0] {
        OnlyStep(c, p[0], p[n], client, bound);
      } else {
        NoMore(c, p[n - 1], p[n], client, bound);
      }
    }
  }

  /** And it does start: it is connected and there is room. */
  lemma MustStart(c: Call, b: Books, bound: nat)
    requires Sound(b) && |b.users| == 2 && b.active == [Holder(c.env.now, bound), Waiting(5)]
    requires b.busySlots == 0 && b.users[1].busy == 0 && b.users[1].cap == 4 && c.maxSlots == 4
    ensures !Exhausted(c, b)
  {
    var y := b.active[1];
    assert Startable(b, c.maxSlots, c.env, y) && !y.state.Paused?;
  }

  lemma CapOfUser(us: seq<User>)
    requires SameCaps(TwoUsers(4, 0, 0), us)
    ensures |us| == 2 && us[1].cap == 4
  {
  }

  lemma SoundNow(s: Server)
    requires s.Valid()
    ensures Sound(s.Now()) && s.cpus == |CpuTopology.AllCpus(s.cpu.topo)|
  {
  }

  /** The client of job 8 comes back, and the next pass starts the job. */
  method Dispatched(s: Server, env: Env)
    requires s.Valid() && Even(s.Now()) && s.maxSlots == 4 && s.active == [Holder(env.now, 2), Waiting(0)]
    requires SameCaps(TwoUsers(4, 0, 0), s.users)
    modifies s`users, s`active, s`busySlots, s`lastUid, s.cpu`allocs, s.cpu.owner, s.cpu.groupFree, s.cpu.nodeFree
    ensures s.Valid() && s.busySlots == 2 && s.active == [Holder(env.now, 2), Waiting(5).(state := Running, held := 2)]
  {
    hide Server.Valid, Sound, Even, SameCaps, Launch, Exhausted, Steady, Path, Advances, Capped, IdleWithWork, MoreRun, InBalance, ServerClock.ClocksKept, ServerClock.Ticked;
    CapOfUser(s.users);
    NothingRuns(s.Now(), env.now, 0, 2);
    var ok, k := s.Reconnect(8, 1, 0, 5);
    SoundNow(s);
    ghost var b := s.Now();
    assert b.active == [Holder(env.now, 2), Waiting(5)];
    ghost var path;
    var n;
    ghost var laps;
    n, path, laps := s.NextRunJob(env);
    OnlyStart(s.Calls(env), path, 5, 2);
    LaunchedJob(b, env.now, s.cpus, s.binding, 5, 2);
    MustStart(s.Calls(env), b, 2);
  }

  lemma NoneLeft(now: int, y: Job)
    requires y == Waiting(5).(state := Running, held := 2, pid := 5)
    ensures BoundTo([Holder(now, 2), Waiting(5).(state := Running, held := 2)], 2, true, y) == 0
  {
    var p, q := Holder(now, 2), Waiting(5).(state := Running, held := 2);
    assert [p] + [q] == [p, q];
    SumAppend([p], q, Cpus);
    SumOne(p, Cpus);
    hide Sum;
  }

  lemma WholeMachine(a: CpuBind.Allocator, c: seq<nat>)
    requires CpuTopology.Elements(c) == CpuTopology.AllCpus(a.topo) && CpuTopology.Distinct(c)
    ensures Mountable(a.topo, c)
  {
    assert forall k :: 0 <= k < |c| ==> c[k] in CpuTopology.Elements(c);
  }

  /** Job 7 holds both CPUs of the machine, as its cpuset file says. */
  method Held(s: Server, c: seq<nat>, env: Env)
    requires s.Valid() && Even(s.Now()) && s.active == [Holder(env.now, 0), Waiting(0)] && |c| == 2
    requires CpuTopology.Distinct(c) && CpuTopology.Elements(c) == CpuTopology.AllCpus(s.cpu.topo)
    modifies s`active, s.cpu`allocs, s.cpu.owner, s.cpu.groupFree, s.cpu.nodeFree
    ensures s.Valid() && Even(s.Now()) && s.active == [Holder(env.now, 2), Waiting(0)]
  {
    hide CpuBind.Allocator.Valid, Matches, Sound, OnRoster, Even, Filed, CpuTopology.AllCpus, CpuTopology.Elements, CpuTopology.Distinct, CP.Claimed, CpuBind.Allocator.Claimable, Mountable, Vacant;
    NoAllocs(s.active, s.cpu.allocs);
    WholeMachine(s.cpu, c);
    AllVacant(s.cpu, c);
    VacantIs(s.cpu, c);
    var granted := s.ClaimCpus(0, Claim(7, c, {}, -1));
  }

  /** A restart leaves a paused job with all CPUs. A queued job starts and reports its
      process, and finds none, although busy_slots is within the topology: the
      condition that only running jobs hold CPUs cannot be dropped. */
  method PausedJobKeepsCpus(a: CpuBind.Allocator, c: seq<nat>, env: Env) returns (s: Server, i: int)
    requires a.Valid() && a.allocs == [] && !a.disabled && |c| == 2 && 7 in env.alive
    requires CpuTopology.Distinct(c) && CpuTopology.Elements(c) == CpuTopology.AllCpus(a.topo)
    modifies a`allocs, a.owner, a.groupFree, a.nodeFree
    ensures s.Valid() && s.binding && s.busySlots <= s.cpus && |s.active| == 2 && i == 1
    ensures s.active[1].state.Running? && s.active[1].held == 2 && !s.active[1].noBinding && s.active[1].bound == 0
  {
    hide CpuBind.Allocator.Valid, Server.Valid, Even, CpuTopology.AllCpus, CpuTopology.Elements, CpuTopology.Distinct, InBalance, Steady, SameCaps, Sum, BoundTo, ServerClock.Ticked;
    s := Restarted(a, env);
    Held(s, c, env);
    Dispatched(s, env);
    SoundNow(s);
    CO.ElementsSize(c);
    NoneLeft(env.now, s.active[1].(pid := 5));
    assert ServerHistory.AwaitsReport(s.active[1]);
    i := s.RunJobOk(8, 5, env);
  }

  // ---------- one job per user and pass ----------

  function Ready1(id: int, user: nat): Job {
    Job(id, Queued, user, 1, 0, 0, false, 100, 0, 0, 1, [], [], 0, 0, false, 0, 0, 0)
  }

  /** User 1 has two jobs waiting, user 2 has one; there are two slots. */
  function ThreeWaiting(): Books {
    Books([User(0, 0, 0, 0, 0, false), User(1001, 2, 0, 0, 2, false), User(1002, 2, 0, 0, 1, false)],
          [Ready1(1, 1), Ready1(2, 1), Ready1(3, 2)], 0)
  }

  lemma FirstJobs(c: Call, b: Books, d: Books)
    requires c.maxSlots == 2 && b == ThreeWaiting() && d == Launch(b, 0, c.env.now, c.cpus, c.binding)
    ensures Startable(b, 2, c.env, b.active[0]) && !Overlooked(b, b.active[0])
    ensures d.active == [Started(b.active[0], c.env.now), b.active[1], b.active[2]] && d.active[0].user == 1 && d.busySlots == 1 && |d.users| == 3
    ensures Startable(d, 2, c.env, d.active[1]) && !Overlooked(d, d.active[1])
  {
  }

  lemma SecondJob(c: Call, d: Books, e: Books)
    requires d == Launch(ThreeWaiting(), 0, c.env.now, c.cpus, c.binding) && e == Launch(d, 1, c.env.now, c.cpus, c.binding)
    ensures e.active == [d.active[0], Started(d.active[1], c.env.now), d.active[2]] && e.busySlots == 2 && |e.users| == 3
  {
    hide Sum;
  }

  /** A pass that begins at user 1 gives user 1 both slots and user 2 none, although a
      comment promises one job per user and pass: after the first start last_uid is 2
      and the position 1, which asks user 0, then position 2, which asks user 1 again. */
  lemma RoundSkipsUser(c: Call, picks: seq<Pick>, b: Books, last: nat, i: nat)
    requires c.maxSlots == 2 && InTurns(c, picks, ThreeWaiting(), 1, b, last, i) && (i >= |b.users| || c.maxSlots <= b.busySlots)
    ensures b.busySlots == 2 && |b.active| == 3
    ensures b.active[0].state.Running? && b.active[1].state.Running? && b.active[2] == Ready1(3, 2)
  {
    var a := ThreeWaiting();
    var d := Launch(a, 0, c.env.now, c.cpus, c.binding);
    FirstJobs(c, a, d);
    SecondJob(c, d, Launch(d, 1, c.env.now, c.cpus, c.binding));
    FirstPick(c, picks, b, last, i);
    SecondPick(c, picks, b, last, i);
  }

  lemma SecondPick(c: Call, picks: seq<Pick>, b: Books, last: nat, i: nat)
    requires c.maxSlots == 2 && InTurns(c, picks, ThreeWaiting(), 1, b, last, i) && (i >= |b.users| || c.maxSlots <= b.busySlots)
    requires |picks| >= 1 && picks[0] == Pick(0, 1, ThreeWaiting(), 0)
    ensures b == Launch(Launch(ThreeWaiting(), 0, c.env.now, c.cpus, c.binding), 1, c.env.now, c.cpus, c.binding)
  {
    hide Startable, Launch, Sum, Started, UserTried, InTurns;
    var d := Launch(ThreeWaiting(), 0, c.env.now, c.cpus, c.binding);
    FirstJobs(c, ThreeWaiting(), d);
    RunningStays(c, d);
    StillWaits(c, d);
    LeadsFirst(c, picks, b, last, i);
    MustPick(c, picks, ThreeWaiting(), 1, b, last, i, 1, 2);
    PickAt(c, picks, b, last, i);
    SecondIs(c, d, picks[1]);
    SecondEnds(c, picks, b, last, i);
  }

  lemma StillWaits(c: Call, d: Books)
    requires |d.users| == 3 && |d.active| == 3 && d.active[1].user == 1 && c.maxSlots == 2
    requires Startable(d, 2, c.env, d.active[1]) && !Overlooked(d, d.active[1])
    ensures Turn(2, 2, 3) == 1 && !UserTried(c, d, 1)
  {
    hide Startable;
  }

  lemma LeadsFirst(c: Call, picks: seq<Pick>, b: Books, last: nat, i: nat)
    requires InTurns(c, picks, ThreeWaiting(), 1, b, last, i) && |picks| >= 1 && picks[0] == Pick(0, 1, ThreeWaiting(), 0)
    ensures At(picks, b, last, 1) == (Launch(ThreeWaiting(), 0, c.env.now, c.cpus, c.binding), 2) && After(picks, 1) == 1
  {
    hide Launch, Launches, Barren;
    assert Picked(c, picks[0]);
    assert |picks| > 1 ==> Leads(c, picks[0], picks[1].from, picks[1].last);
  }

  lemma PickAt(c: Call, picks: seq<Pick>, b: Books, last: nat, i: nat)
    requires InTurns(c, picks, ThreeWaiting(), 1, b, last, i) && |picks| >= 2 && After(picks, 1) == 1
    ensures Picked(c, picks[1]) && 1 <= picks[1].at
  {
    hide Picked, Leads, Barren;
    assert After(picks, 1) <= picks[1].at;
  }

  lemma SecondEnds(c: Call, picks: seq<Pick>, b: Books, last: nat, i: nat)
    requires InTurns(c, picks, ThreeWaiting(), 1, b, last, i) && |picks| >= 2 && picks[0] == Pick(0, 1, ThreeWaiting(), 0)
    requires picks[1].from == Launch(ThreeWaiting(), 0, c.env.now, c.cpus, c.binding) && picks[1].at == 2 && picks[1].job == 1
    ensures b == Launch(picks[1].from, 1, c.env.now, c.cpus, c.binding)
  {
    hide Launches, Barren, UserTried;
    assert forall m :: 0 <= m < |picks| ==> Picked(c, picks[m]);
    SameUsersAll(c, picks, ThreeWaiting(), 1, b, last, i);
    NoThird(c, picks, ThreeWaiting(), 1, b, last, i);
    assert Leads(c, picks[|picks| - 1], b, last);
  }

  lemma RunningStays(c: Call, d: Books)
    requires |d.active| == 3 && d.active[0].state == Started(Ready1(1, 1), c.env.now).state
    ensures !Startable(d, 2, c.env, d.active[0])
  {
  }

  lemma SecondIs(c: Call, d: Books, p: Pick)
    requires Picked(c, p) && p.from == d && p.last == 2 && 1 <= p.at < 3 && |d.users| == 3 && |d.active| == 3 && c.maxSlots == 2
    requires d.active[0].user == 1 && d.active[1].user == 1 && d.active[2].user == 2 && !Startable(d, 2, c.env, d.active[0])
    ensures p.at == 2 && p.job == 1
  {
    hide Startable, Launch;
    assert Turn(2, 1, 3) == 0 && Turn(2, 2, 3) == 1;
  }

  lemma FirstPick(c: Call, picks: seq<Pick>, b: Books, last: nat, i: nat)
    requires c.maxSlots == 2 && InTurns(c, picks, ThreeWaiting(), 1, b, last, i) && (i >= |b.users| || c.maxSlots <= b.busySlots)
    ensures |picks| >= 1 && picks[0] == Pick(0, 1, ThreeWaiting(), 0)
  {
    hide Startable, Launch, Sum, UserTried, InTurns;
    var a := ThreeWaiting();
    FirstJobs(c, a, Launch(a, 0, c.env.now, c.cpus, c.binding));
    FirstWaits(c, a);
    BeginsAt(c, picks, a, b, last, i);
    MustPick(c, picks, a, 1, b, last, i, 0, 0);
    BeginsWith(c, picks, a, b, last, i);
    FirstIs(c, a, picks[0]);
  }

  lemma FirstWaits(c: Call, a: Books)
    requires a == ThreeWaiting() && c.maxSlots == 2 && Startable(a, 2, c.env, a.active[0]) && !Overlooked(a, a.active[0])
    ensures Turn(1, 0, 3) == 1 && !UserTried(c, a, 1)
  {
    hide Startable;
  }

  lemma BeginsAt(c: Call, picks: seq<Pick>, a: Books, b: Books, last: nat, i: nat)
    requires InTurns(c, picks, a, 1, b, last, i)
    ensures At(picks, b, last, 0) == (a, 1) && After(picks, 0) == 0
  {
    hide Picked, Leads, Barren;
  }

  lemma BeginsWith(c: Call, picks: seq<Pick>, a: Books, b: Books, last: nat, i: nat)
    requires InTurns(c, picks, a, 1, b, last, i) && |picks| > 0
    ensures picks[0].from == a && picks[0].last == 1 && Picked(c, picks[0])
  {
    hide Picked, Leads, Barren;
  }

  lemma FirstIs(c: Call, a: Books, p: Pick)
    requires Picked(c, p) && p.from == a == ThreeWaiting() && p.last == 1 && p.at == 0 && c.maxSlots == 2
    requires Startable(a, 2, c.env, a.active[0])
    ensures p == Pick(0, 1, a, 0)
  {
    hide Startable, Launch;
    assert Turn(1, 0, 3) == 1;
  }

  /** Only queued and running dependencies hold a job back; one that is paused,
      locked, held or abnormal does not. */
  lemma PausedDependencyIsReady(active: seq<Job>, j: Job)
    ensures Ready(active, j) <==>
      forall i :: 0 <= i < |active| && active[i].id in j.deps ==> !active[i].state.Queued? && !active[i].state.Running?
  {
    ReadyIs(active, j);
  }
}
