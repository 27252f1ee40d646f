/** The slot scheduler: jobs.c and server_user.c. */
module Scheduler {
  import opened JobRecord
  import opened SlotBooks
  import opened SlotMoves
  import opened DependencyLedger
  import opened Roster
  import opened Dispatch
  import opened Requests
  import opened UserRequests
  import opened SlotBinding
  import opened ServerBinding
  import opened ServerHistory
  import opened Promises
  import opened PromisesKept
  import opened ServerEffects
  import opened ServerClock
  import opened JobTable
  import QueueOrder
  import CpuTopology
  import CO = CpuOwnership
  import CP = CpuPlacement
  import CL = CpuLedger
  import CS = CpuSteps
  import CD = CpuDefrag
  import CR = CpuRebuild
  import CpuBind

  class Server {
    var users: seq<User>
    var active: seq<Job>
    var busySlots: int
    var finished: seq<Job>
    var maxSlots: int
    var jobids: int
    var lastUid: nat          // where next_run_job begins its pass
    var lastErr: int          // last_errorlevel
    var lastFinished: int     // last_finished_jobid
    var binding: bool         // cpu_bind_enabled
    const cpus: nat           // CPUs of the topology
    const cpu: CpuBind.Allocator
    const maxJobs: int        // further jobs wait as HOLDING_CLIENT
    const maxFinished: nat    // oldest finished jobs are dropped beyond this
    var table: map<int, int>  // Jobs table on disk: job id to order_id
    ghost var orphans: set<int>  // rows that an earlier server left without a job
    ghost var book: Book

    ghost function Now(): Books
      reads this`users, this`active, this`busySlots
    {
      Books(users, active, busySlots)
    }

    ghost function Calls(env: Env): Call
      reads this`maxSlots, this`binding
    {
      Call(env, maxSlots, cpus, binding)
    }

    ghost function Top(): Limits
      reads this`maxSlots, this`binding
    {
      Limits(cpus, binding, maxSlots)
    }

    /** The allocator holds for each job the CPUs that the job says it has. */
    ghost predicate Bound()
      reads this`active, this`binding, cpu, cpu.owner, cpu.groupFree, cpu.nodeFree, cpu.cpuToGroup
    {
      && cpu.Valid() && Matches(active, cpu.allocs)
      && binding == !cpu.disabled && cpus == |CpuTopology.AllCpus(cpu.topo)|
    }

    /** And the table on disk lists the jobs in their order. */
    ghost predicate Wired()
      reads this`active, this`binding, this`table, this`orphans, this`jobids, cpu, cpu.owner, cpu.groupFree, cpu.nodeFree, cpu.cpuToGroup
    {
      Bound() && Filed(active, table, orphans, jobids)
    }

    ghost predicate Valid()
      reads this, cpu, cpu.owner, cpu.groupFree, cpu.nodeFree, cpu.cpuToGroup
    {
      Sound(Now()) && OnRoster(active, finished, jobids) && lastUid < |users| && Wired()
    }

    /** The dependency ledger. */
    ghost predicate Ledger()
      reads this
    {
      InBalance(active, finished, book, jobids)
    }

    /** A server with no jobs and an allocator with no allocations. */
    constructor (us: seq<User>, slots: int, firstId: int, a: CpuBind.Allocator, limit: int, keep: nat)
      requires RootFirst(us) && 0 < firstId && a.Valid() && a.allocs == []
      requires forall u :: 0 <= u < |us| ==> us[u].busy == 0 && us[u].jobs == 0 && us[u].queue == 0
      ensures Valid() && Ledger() && Exact(Now()) && users == us && active == [] && cpu == a && maxSlots == slots
      ensures FullyBound(Top(), Now()) && busySlots == 0 && finished == [] && jobids == firstId && table == map[] && orphans == {}
    {
      hide Matches, Filed, Sound, OnRoster, InBalance, Exact, FullyBound, CpuTopology.AllCpus, CS.FreeIn;
      users, active, busySlots, finished, maxSlots, jobids := us, [], 0, [], slots, firstId;
      lastUid, lastErr, lastFinished, maxJobs, maxFinished := 0, 0, 0, limit, keep;
      binding, cpu := !a.disabled, a;
      var total := a.TotalFree();
      cpus := total;
      book := Book(map[], map[], map[]);
      table, orphans := map[], {};
      new;
      hide CpuBind.Allocator.Valid;
      EveryCpuFree(a);
      EmptyServer(us, Top(), firstId);
    }

    // ---------- helpers on one job ----------

    /** findjob_idx. */
    method FindJob(id: int) returns (i: int)
      ensures i == -1 || (0 <= i < |active| && active[i].id == id)
      ensures i == -1 ==> forall k :: 0 <= k < |active| ==> active[k].id != id
    {
      for k := 0 to |active|
        invariant forall q :: 0 <= q < k ==> active[q].id != id
      {
        if active[k].id == id {
          return k;
        }
      }
      return -1;
    }

    /** find_finished_idx. */
    method FindFinished(id: int) returns (i: int)
      ensures i == -1 || (0 <= i < |finished| && finished[i].id == id)
      ensures i == -1 ==> forall k :: 0 <= k < |finished| ==> finished[k].id != id
    {
      for k := 0 to |finished|
        invariant forall q :: 0 <= q < k ==> finished[q].id != id
      {
        if finished[k].id == id {
          return k;
        }
      }
      return -1;
    }

    method FreeCores(i: nat)
      requires i < |active| && active[i].user < |users|
      modifies this`users, this`active, this`busySlots
      ensures users == Refund(old(users), old(active[i])) && busySlots == RefundSlots(old(busySlots), old(active[i]))
      ensures active == old(active)[i := old(active[i]).(held := 0)]
    {
      var p := active[i];
      if p.held == 0 {
        return;
      }
      users := users[p.user := users[p.user].(busy := users[p.user].busy - p.slots)];
      busySlots := busySlots - p.slots;
      active := active[i := p.(held := 0)];
      users := users[p.user := users[p.user].(jobs := users[p.user].jobs - 1)];
    }

    /** cpu_bind_free of the record of a job, if it has one; the record of no other
        job changes. */
    method FreeCpus(id: int, ghost was: seq<Job>, ghost i: nat)
      requires cpu.Valid() && Matches(was, cpu.allocs) && i < |was| && was[i].id == id
      modifies cpu`allocs, cpu.owner, cpu.groupFree, cpu.nodeFree
      ensures cpu.Valid() && Matches(was[i := was[i].(bound := 0)], cpu.allocs)
      ensures AllBut(old(cpu.allocs), cpu.allocs, id)
    {
      hide CpuBind.Allocator.Valid, Matches, Filed, AllBut;
      ghost var allocs := cpu.allocs;
      JobsApart(cpu);
      var k := 0;
      while k < |cpu.allocs| && cpu.allocs[k].jobid != id
        invariant 0 <= k <= |cpu.allocs| && forall q :: 0 <= q < k ==> cpu.allocs[q].jobid != id
        invariant cpu.allocs == allocs && cpu.Valid()
      {
        k := k + 1;
      }
      if k < |cpu.allocs| {
        MatchesReleased(was, was[i := was[i].(bound := 0)], i, allocs, k);
        cpu.FreeAlloc(k);
        OthersLeft(allocs, k);
      } else {
        NoneOf(allocs, id);
        NothingToFree(was, allocs, i);
        assert was[i := was[i].(bound := 0)] == was;
      }
    }

    /** cpu_bind_defrag_start, where it is enabled. */
    method Defrag() returns (ghost c: CR.Chain)
      requires Bound()
      modifies cpu`allocs, cpu.owner, cpu.groupFree, cpu.nodeFree
      ensures Bound() && (!cpu.defragDisabled ==> CR.Rebuilt(cpu.topo, c, old(cpu.allocs), cpu.allocs, cpu.S()))
    {
      hide CpuBind.Allocator.Valid, Matches, Filed, CD.AllKept, CS.FreeIn, CR.Rebuilt;
      ghost var allocs := cpu.allocs;
      c := CR.Chain([], [], 0, []);
      if !cpu.defragDisabled {
        var rc;
        rc, c := cpu.DefragStart();
        JobsApart(cpu);
        MatchesKept(active, allocs, cpu.allocs);
      }
    }

    /** safe_pause_job; the caller then marks the job PAUSE. */
    method SafePause(i: nat, env: Env)
      requires i < |active| && active[i].user < |users| && Bound()
      modifies this`users, this`active, this`busySlots, cpu`allocs, cpu.owner, cpu.groupFree, cpu.nodeFree
      ensures Now() == Stop(old(Now()), i, PauseClock(old(active[i]), env.now).(held := 0, bound := 0)) && Bound()
    {
      hide CpuBind.Allocator.Valid, Matches, Filed;
      ghost var was := active;
      FreeCpus(active[i].id, active, i);
      FreeCores(i);
      active := active[i := active[i].(bound := 0)];
      if active[i].pauseTime == 0 {
        active := active[i := active[i].(pauseTime := env.now)];
      }
      MatchesEdited(was[i := was[i].(bound := 0)], active, cpu.allocs);
    }

    /** safe_pause_job with the state change that follows it. */
    method PauseJob(i: nat, env: Env)
      requires i < |active| && active[i].user < |users| && Wired()
      modifies this`users, this`active, this`busySlots, cpu`allocs, cpu.owner, cpu.groupFree, cpu.nodeFree
      ensures Now() == Stop(old(Now()), i, Stopped(old(active[i]), env.now)) && Wired()
    {
      hide CpuBind.Allocator.Valid, Matches, Filed;
      SafePause(i, env);
      ghost var was := active;
      active := active[i := active[i].(state := Paused)];
      MatchesEdited(was, active, cpu.allocs);
      FiledEdited(old(active), active, table, orphans, jobids);
    }

    /** cpu_bind_alloc_init, cpu_bind_alloc, and cpu_bind_free when that failed.
        The allocator grants exactly what `BoundTo` says. */
    method BindCpus(p: Job, ghost i: nat) returns (n: nat)
      requires Bound() && i < |active| && active[i].id == p.id && active[i].bound == 0
      modifies cpu`allocs, cpu.owner, cpu.groupFree, cpu.nodeFree
      ensures cpu.Valid() && n == BoundTo(active, cpus, binding, p)
      ensures Matches(active[i := active[i].(bound := n)], cpu.allocs)
    {
      hide CpuBind.Allocator.Valid, Matches, Filed, CP.WellPlaced, Sum, BoundTo, CpuTopology.AllCpus, CL.Ledger, CpuTopology.WellFormed, CpuTopology.Free;
      ghost var allocs, snap, t := cpu.allocs, cpu.S(), cpu.topo;
      n := 0;
      PositiveId(active, allocs, i);
      Unallocated(active, allocs, i);
      if binding && !p.noBinding && p.held > 0 {
        ValidParts(cpu);
        var ok := cpu.Bind(p.id, p.held);
        SameVerdict(active, p, binding, t, snap.owner, allocs, ok);
        if ok {
          n := p.held;
          PlacedSize(t, snap, cpu.S(), p.held, CO.NewAlloc(p.id), cpu.allocs[|allocs|]);
        }
        StillMatches(active, active[i := active[i].(bound := n)], i, ok, allocs, cpu.allocs);
      } else {
        NotBound(active, cpus, binding, p);
        assert active[i := active[i].(bound := n)] == active;
      }
    }

    /** config_running: 1 for a job that is neither paused nor queued. */
    method ConfigRunning(i: nat, env: Env) returns (rc: int)
      requires i < |active| && active[i].user < |users| && Wired()
      modifies this`users, this`active, this`busySlots, cpu`allocs, cpu.owner, cpu.groupFree, cpu.nodeFree
      ensures rc == 1 <==> !old(active[i]).state.Paused? && !old(active[i]).state.Queued?
      ensures rc == 1 ==> Now() == old(Now())
      ensures rc != 1 ==> Now() == Start(old(Now()), i, env.now, cpus, binding)
      ensures rc != 1 ==> |active| == |old(active)| && Going(old(active[i]), active[i], env.now) && OthersSame(old(active), active, i)
      ensures Wired()
    {
      hide Wired, Sum, BoundTo;
      var p := active[i];
      if !p.state.Paused? && !p.state.Queued? {
        return 1;
      }
      var u := users[p.user];
      users := users[p.user := u.(busy := u.busy + p.slots, jobs := u.jobs + 1)];
      busySlots := busySlots + p.slots;
      var y := Started(p, env.now);
      StartedKeeps(p, env.now);
      hide Started;
      RunOn(i, y);
      StartKept(old(Now()), i, env.now, cpus, binding);
      rc := 0;
    }

    /** The job as it runs, with its CPUs if it has a process and none yet. */
    method RunOn(i: nat, y: Job)
      requires i < |active| && y.id == active[i].id && y.bound == active[i].bound && Wired()
      modifies this`active, cpu`allocs, cpu.owner, cpu.groupFree, cpu.nodeFree
      ensures Wired()
      ensures active == old(active)[i := if y.pid != 0 && y.bound == 0 then y.(bound := BoundTo(old(active), cpus, binding, y)) else y]
    {
      hide CpuBind.Allocator.Valid, Matches, Filed, Sum, BoundTo;
      var n := y.bound;
      if y.pid != 0 && y.bound == 0 {
        n := BindCpus(y, i);
      }
      ghost var was := active[i := active[i].(bound := n)];
      assert active[i].bound == n ==> was == active;
      active := active[i := y.(bound := n)];
      MatchesEdited(was, active, cpu.allocs);
      FiledEdited(old(active), active, table, orphans, jobids);
    }

    // ---------- next_run_job ----------

    /** Whether no dependency is QUEUED or RUNNING. */
    method IsReady(p: Job) returns (ready: bool)
      requires Valid()
      ensures ready == Ready(active, p)
    {
      hide Sound, Wired;
      for k := 0 to |p.deps|
        invariant forall q :: 0 <= q < k ==> !Blocks(active, p.deps[q])
      {
        var d := FindJob(p.deps[k]);
        if d >= 0 && (active[d].state.Queued? || active[d].state.Running?) {
          assert Blocks(active, p.deps[k]);
          return false;
        }
        if d >= 0 {
          OnlyOne(active, d, p.deps[k]);
        }
      }
      return true;
    }

    /** One job of the pass: is it to be started now? */
    method CanStart(j: nat, freeSlots: int, env: Env) returns (yes: bool)
      requires Valid() && j < |active| && freeSlots == maxSlots - busySlots
      ensures yes == Startable(Now(), maxSlots, env, active[j])
    {
      var p := active[j];
      assert JobOk(p, |users|);
      hide Sound, OnRoster, Wired;
      if p.state.Queued? {
        var ready := IsReady(p);
        yes := ready && Due(env, p) && p.client > 0 && p.slots <= freeSlots && p.slots <= users[p.user].cap - users[p.user].busy;
      } else {
        yes := p.state.Paused? && p.wall < 0 && env.cpuTime(p.pid) < Abs(p.wall)
          && p.slots <= freeSlots && p.slots <= users[p.user].cap - users[p.user].busy;
      }
    }

    /** user.queue for a queued job, then config_running; s_mark_job_running finds
        the job by its id and a queued job has no process that could be asleep. */
    method MarkRunning(j: nat, env: Env)
      requires j < |active| && active[j].user < |users| && (active[j].state.Queued? || active[j].state.Paused?) && Wired()
      requires active[j].state.Queued? ==> !Asleep(env, active[j])
      modifies this`users, this`active, this`busySlots, cpu`allocs, cpu.owner, cpu.groupFree, cpu.nodeFree
      ensures Now() == Launch(old(Now()), j, env.now, cpus, binding) && Wired()
    {
      hide Wired, Start;
      var p := active[j];
      if p.state.Queued? {
        users := users[p.user := users[p.user].(queue := users[p.user].queue - 1)];
      }
      var rc := ConfigRunning(j, env);
    }

    /** Starts job j, and the next user is to be asked first. */
    method StartJob(j: nat, env: Env)
      requires Valid() && j < |active| && Startable(Now(), maxSlots, env, active[j]) && !Overlooked(Now(), active[j])
      requires Foremost(Calls(env), Now(), j)
      modifies this`users, this`active, this`busySlots, this`lastUid, cpu`allocs, cpu.owner, cpu.groupFree, cpu.nodeFree
      ensures Launches(Calls(env), old(Now()), Now(), j) && Wired()
      ensures |users| == |old(users)| && lastUid == Following(old(active[j]).user, |users|)
    {
      hide Sound, OnRoster, Startable, Launch, Wired, Foremost;
      var p := active[j];
      SoundAt(Now(), j);
      assert p.state.Queued? ==> !Asleep(env, p);
      hide JobOk;
      StartableState(Now(), maxSlots, env, p);
      LaunchLocal(Now(), j, env.now, cpus, binding);
      MarkRunning(j, env);
      lastUid := Turn(p.user, 1, |users|);
      NextTurn(p.user, 0, |users|);
    }

    /** The inner loop: the first job of this user that can start. */
    method ScanUser(uid: nat, env: Env) returns (found: bool, ghost j: nat)
      requires Valid() && uid < |users| && users[uid].queue != 0
      modifies this`users, this`active, this`busySlots, this`lastUid, cpu`allocs, cpu.owner, cpu.groupFree, cpu.nodeFree
      ensures Wired() && |users| == |old(users)|
      ensures found ==> Launches(Calls(env), old(Now()), Now(), j) && old(active)[j].user == uid && lastUid == Following(uid, |users|)
      ensures !found ==> Now() == old(Now()) && lastUid == old(lastUid)
      ensures !found ==> UserTried(Calls(env), Now(), uid)
    {
      hide Sound, OnRoster, Startable, Wired, Launch;
      j := 0;
      var freeSlots := maxSlots - busySlots;
      for q := 0 to |active|
        invariant Now() == old(Now()) && lastUid == old(lastUid) && Wired()
        invariant forall k :: 0 <= k < q && active[k].user == uid ==> !Startable(Now(), maxSlots, env, active[k])
      {
        if active[q].user == uid {
          var yes := CanStart(q, freeSlots, env);
          if yes {
            assert Foremost(Calls(env), Now(), q);
            StartJob(q, env);
            return true, q;
          }
        }
      }
      found := false;
    }

    /** One pass over the users, beginning at last_uid, which moves meanwhile. */
    method Round(env: Env) returns (found: bool, started: nat, ghost path: seq<Books>, ghost picks: seq<Pick>)
      requires Valid()
      modifies this`users, this`active, this`busySlots, this`lastUid, cpu`allocs, cpu.owner, cpu.groupFree, cpu.nodeFree
      ensures Valid() && Passed(Calls(env), path, old(Now()), Now())
      ensures found <==> started > 0
      ensures started == |picks| && RoundRobin(Calls(env), picks, old(Now()), old(lastUid), Now(), lastUid)
      ensures found ==> Sum(active, Todo) < Sum(old(active), Todo) && MoreRun(old(active), active)
      ensures !found ==> Now() == old(Now()) && Exhausted(Calls(env), Now())
    {
      hide Sound, OnRoster, Startable, Launches, Sum, Passed, Exhausted, MoreRun, Tried, Overlooked, Wired, InTurns, Foremost, UserTried;
      ghost var c, a := Calls(env), Now();
      found, started, path, picks := false, 0, [a], [];
      ghost var first := lastUid;
      ghost var cut := false;
      PassedStill(c, a);
      TriedNone(c, a, first);
      TurnsBegin(c, a, first);
      var i := 0;
      while i < |users|
        invariant Valid() && 0 <= i <= |users| && Passed(c, path, a, Now())
        invariant |users| == |a.users|
        invariant found <==> started > 0
        invariant found ==> Sum(active, Todo) < Sum(a.active, Todo) && MoreRun(a.active, active)
        invariant !found ==> Now() == a && lastUid == first
        invariant !found ==> Tried(c, a, first, i)
        invariant !cut && started == |picks| && InTurns(c, picks, a, first, Now(), lastUid, i)
      {
        var uid := Turn(lastUid, i, |users|);
        if users[uid].queue == 0 {
          IdleTried(c, Now(), uid);
          TurnsPass(c, picks, a, first, Now(), lastUid, i);
        } else {
          if maxSlots - busySlots <= 0 {
            cut := true;
            break;
          }
          ghost var b, last := Now(), lastUid;
          var hit, j := ScanUser(uid, env);
          if hit {
            TurnsStart(c, picks, a, first, b, last, i, j, Now());
            picks := picks + [Pick(i, last, b, j)];
            PassedLaunch(c, path, a, b, Now(), j);
            found, started, path := true, started + 1, path + [Now()];
            RosterKept(c, path, a, Now(), finished, jobids);
          } else {
            TurnsPass(c, picks, a, first, Now(), lastUid, i);
          }
        }
        if !found {
          TriedMore(c, a, first, i);
        }
        i := i + 1;
      }
      if !found {
        RoundOver(c, a, first, i, cut);
      }
    }

    /** wake_hold_client: the index of the job woken, or -1. */
    method WakeOne() returns (i: int)
      requires Wired()
      modifies this`active
      ensures Wired()
      ensures i == -1 ==> active == old(active) && forall k :: 0 <= k < |active| ==> !active[k].state.Holding?
      ensures i != -1 ==> 0 <= i < |active| && Wakes(old(Now()), Now(), i)
    {
      hide CpuBind.Allocator.Valid, Matches, Filed;
      for k := 0 to |active|
        invariant active == old(active)
        invariant forall q :: 0 <= q < k ==> !active[q].state.Holding?
      {
        if active[k].state.Holding? {
          active := active[k := active[k].(state := Queued)];
          MatchesEdited(old(active), active, cpu.allocs);
          FiledEdited(old(active), active, table, orphans, jobids);
          return k;
        }
      }
      return -1;
    }

    /** wake_all_held_clients. */
    method WakeHeld(ghost c: Call) returns (ghost path: seq<Books>)
      requires Valid()
      modifies this`active
      ensures Valid() && Passed(c, path, old(Now()), Now())
      ensures Now() == Woken(old(Now()))
    {
      hide Sound, OnRoster, Passed, Wakes, Sum, Wired, Woken;
      ghost var a := Now();
      path := [a];
      PassedStill(c, a);
      var i := 0;
      while i != -1
        invariant Valid() && Passed(c, path, a, Now()) && i >= -1
        invariant Woken(Now()) == Woken(a)
        invariant i == -1 ==> forall k :: 0 <= k < |active| ==> !active[k].state.Holding?
        decreases i != -1, TodoLeft(Now())
      {
        ghost var b := Now();
        i := WakeOne();
        if i != -1 {
          PassedWake(c, path, a, b, Now(), i);
          path := path + [Now()];
          RosterKept(c, path, a, Now(), finished, jobids);
          TodoFalls(b, Now());
          WokenStep(b, Now(), i);
        }
      }
      WokenAll(Now());
    }

    /** next_run_job: starts all it can. */
    method NextRunJob(env: Env) returns (dispatched: nat, ghost path: seq<Books>, ghost laps: seq<Lap>)
      requires Valid()
      modifies this`users, this`active, this`busySlots, this`lastUid, cpu`allocs, cpu.owner, cpu.groupFree, cpu.nodeFree
      ensures Valid() && (old(Ledger()) ==> Ledger())
      ensures Ticked(old(active), active, env.now, jobids, false)
      ensures Passed(Calls(env), path, old(Now()), Now())
      ensures Exhausted(Calls(env), Now()) && TimelyStarts(old(active), active, env)
      ensures Laps(Calls(env), laps, old(Now()), old(lastUid), Now(), lastUid) && dispatched == Starts(laps)
      ensures old(active) != [] ==> laps != [] && laps[|laps| - 1].picks == []
      ensures |users| == |old(users)| && SameCaps(old(users), users) && Capped(old(Now()), Now(), maxSlots)
      ensures dispatched == 0 ==> Now() == old(Now())
      ensures dispatched > 0 ==> MoreRun(old(active), active)
      ensures old(IdleWithWork(Calls(env), Now())) ==> dispatched > 0
    {
      hide Ticked, TimelyStarts, Sound, OnRoster, Passed, Exhausted, Sum, MoreRun, InBalance, IdleWithWork, Capped, Wired, RoundRobin, Laps, Starts, Woken;
      ghost var c, a := Calls(env), Now();
      dispatched, path, laps := 0, [a], [];
      PassedStill(c, a);
      LapsNone(c, a, lastUid);
      var going := true;
      while going
        invariant Valid() && Passed(c, path, a, Now())
        invariant dispatched == 0 ==> Now() == a
        invariant dispatched > 0 ==> MoreRun(a.active, active)
        invariant !going ==> Exhausted(c, Now()) && (active == [] || (laps != [] && laps[|laps| - 1].picks == []))
        invariant Laps(c, laps, a, old(lastUid), Now(), lastUid) && dispatched == Starts(laps)
        invariant going && laps != [] ==> laps[|laps| - 1].picks != []
        decreases going, TodoLeft(Now())
      {
        ghost var b := Now();
        PassedSize(c, path, a, b);
        if |active| == 0 {
          EmptyExhausted(c, Now());
          going := false;
        } else {
          ghost var last := lastUid;
          var found, started, p, picks := Round(env);
          ghost var d := Now();
          going := found;
          ghost var lap := Lap(picks, b, last, d, lastUid);
          LapsMore(c, laps, a, old(lastUid), b, last, lap);
          laps := laps + [lap];
          if found {
            var q := WakeHeld(c);
            PassedTwice(c, p, q, b, d, Now());
            PassedTwice(c, path, Then(p, q), a, b, Now());
            path := Then(path, Then(p, q));
            StillMore(c, a, b, d, Now(), p, q, dispatched);
            dispatched := dispatched + started;
          }
        }
      }
      PassedSize(c, path, a, Now());
      TimelyPassed(c, path, a, Now());
      LedgerKept(c, path, a, Now(), finished, book, jobids);
      PassedUsers(c, path, a, Now());
      TickedPassed(c, path, a, Now(), jobids, false);
      NeverStuck(c, a, finished, jobids);
    }

    // ---------- the clock ----------

    /** s_relegate_job. */
    method Relegate(i: nat, env: Env)
      requires i < |active| && active[i].user < |users| && JobOk(active[i], |users|) && Bound()
      requires active[i].state.Running? || active[i].state.Paused?
      modifies this`users, this`active, this`busySlots, cpu`allocs, cpu.owner, cpu.groupFree, cpu.nodeFree
      ensures Now() == Stop(old(Now()), i, Relegated(old(active[i]), env.now)) && Bound()
      ensures PutOff(old(active[i]), active[i], env.now)
    {
      hide CpuBind.Allocator.Valid, Matches, Filed;
      var p := active[i];
      if p.state.Running? {
        SafePause(i, env);
      }
      TimedOutIs(p, env.now);
      ghost var was := active;
      active := active[i := active[i].(wall := -Abs(p.wall) - 86400, state := Paused)];
      MatchesEdited(was, active, cpu.allocs);
    }

    /** vec_remove of a job that holds no CPUs. */
    method Detach(i: nat) returns (p: Job)
      requires i < |active| && active[i].bound == 0 && Bound()
      modifies this`active
      ensures Bound() && p == old(active[i]) && active == old(active)[..i] + old(active)[i + 1..]
    {
      hide CpuBind.Allocator.Valid, Matches, Filed;
      MatchesLeft(active, i, cpu.allocs);
      p := active[i];
      active := active[..i] + active[i + 1..];
    }

    /** A late job is relegated and taken out of the vector. */
    method TakeLate(i: nat, env: Env, before: seq<Job>, ghost more: set<int>) returns (out: seq<Job>, ghost most: set<int>)
      requires i < |active| && JobOk(active[i], |users|) && active[i].state.Running? && Bound() && Idle(before)
      requires Filed(active, table, more, jobids) && InTable(before, table)
      modifies this`users, this`active, this`busySlots, cpu`allocs, cpu.owner, cpu.groupFree, cpu.nodeFree
      ensures Books(users, active + out, busySlots) == Demoted(old(Books(users, active + before, busySlots)), i, env.now)
      ensures |active| == |old(active)| - 1 && |users| == |old(users)| && SameCaps(old(users), users)
      ensures Bound() && Idle(out)
      ensures Filed(active, table, most, jobids) && InTable(out, table)
      ensures Ids(active) == QueueOrder.RemoveAt(Ids(old(active)), i) && Ids(out) == Ids(before) + [old(active[i]).id]
    {
      hide CpuBind.Allocator.Valid, Matches, Filed, InTable, Ids, QueueOrder.RemoveAt;
      PositiveId(active, cpu.allocs, i);
      RowKnown(active, table, more, jobids, i);
      hide Bound, SameCaps, JobOk, Relegated, Idle, Stop, Demoted;
      RelegatedId(active[i], env.now);
      StopIsLocal(Now(), i, Relegated(active[i], env.now));
      Relegate(i, env);
      FiledEdited(old(active), active, table, more, jobids);
      FiledDetached(active, i, table, more, jobids);
      IdsSame(old(active), active);
      IdsWithout(active, i);
      var p := Detach(i);
      IdsMore(before, p);
      out, most := before + [p], more + {p.id};
      MoreIdle(before, p);
      MoreInTable(before, p, table);
    }

    /** The late jobs are pushed to the back. */
    method PutBack(out: seq<Job>, ghost more: set<int>)
      requires Filed(active, table, more, jobids) && DistinctIds(active + out) && forall k :: 0 <= k < |out| ==> out[k].id < jobids
      modifies this`active, this`table
      ensures active == old(active) + out && Filed(active, table, more, jobids)
      ensures table.Keys == old(table).Keys + QueueOrder.Members(Ids(out))
    {
      hide Filed;
      assert QueueOrder.Members(Ids(out[..0])) == {};
      for k := 0 to |out|
        invariant active == old(active) + out[..k] && Filed(active, table, more, jobids)
        invariant table.Keys == old(table).Keys + QueueOrder.Members(Ids(out[..k]))
      {
        NextOut(old(active), out, k);
        var r := QueueOrder.ToBottom(table, out[k].id);
        FiledJoined(active, out[k], table, more, jobids, r[out[k].id]);
        active, table := active + [out[k]], r;
        assert old(active) + out[..k + 1] == (old(active) + out[..k]) + [out[k]];
      }
      assert out[..|out|] == out;
    }

    /** s_check_timeout: late jobs give their slots back and go to the back. */
    method CheckTimeout(env: Env) returns (any: bool)
      requires Valid()
      modifies this`users, this`active, this`table, this`busySlots, cpu`allocs, cpu.owner, cpu.groupFree, cpu.nodeFree
      ensures Valid() && (old(Ledger()) ==> Ledger()) && Steady(Top(), old(Now()), Now(), {})
      ensures AllChecked(old(active), active, env.now) && |users| == |old(users)| && SameCaps(old(users), users)
      ensures !any ==> Now() == old(Now())
      ensures any <==> SomeLate(old(active), env.now)
      ensures InTurn(old(active), active, env.now) && Timeouts(old(active), active, env.now)
    {
      hide Sound, OnRoster, InBalance, Steady, LinksFrom, Relegated, TimedOut, JobOk, Scanned, Demoted, AllChecked, SameCaps, DistinctIds;
      hide CpuBind.Allocator.Valid, Matches, Filed, Idle, InTable, Parted, InTurn, Ids, SomeLate, Timeouts;
      ghost var a := Now();
      AllDistinct(a);
      CapsStill(users);
      var out: seq<Job> := [];
      any := false;
      SteadyStill(Top(), a);
      LinksStill(active);
      assert active + out == active;
      var i := |active|;
      ScanBegins(active, env.now);
      NoneIdle();
      NoneInTable(table);
      PartBegins(active, env.now);
      ghost var more := orphans;
      while i > 0
        invariant 0 <= i <= |active| && |users| == |a.users| && SameCaps(a.users, users)
        invariant Scanned(a.active, active + out, i, env.now)
        invariant Steady(Top(), a, Books(users, active + out, busySlots), {})
        invariant LinksFrom(a.active, active + out)
        invariant (!any ==> out == [] && Now() == a) && (any ==> SomeLate(a.active, env.now))
        invariant !any ==> forall k :: i <= k < |a.active| ==> !TimedOut(a.active[k], env.now)
        invariant Bound() && Idle(out) && Parted(a.active, active, out, i, env.now)
        invariant table == old(table) && Filed(active, table, more, jobids) && InTable(out, table)
      {
        i := i - 1;
        ghost var b := Books(users, active + out, busySlots);
        SteadySound(Top(), a, b, {});
        SoundAt(b, i);
        ScanStep(Top(), a, b, i, env.now);
        ScannedAt(a.active, active + out, i, env.now);
        assert active[i] == (active + out)[i];
        if TimedOut(active[i], env.now) {
          ghost var t, before := active, out;
          out, more := TakeLate(i, env, out, more);
          PartLate(a.active, t, before, i, env.now, active, out);
          any := true;
          LateOne(a.active, i, env.now);
          CapsTwice(a.users, b.users, users);
        } else {
          PartOn(a.active, active, out, i, env.now);
        }
      }
      if !any {
        NoneLate(a.active, env.now);
      }
      ScanEnds(a.active, active + out, env.now);
      ghost var b := Books(users, active + out, busySlots);
      SteadySound(Top(), a, b, {});
      AllDistinct(b);
      MatchesPutBack(active, out, cpu.allocs);
      TableBelow(active, out, table, more, jobids);
      PartEnds(a.active, active, out, env.now);
      PutBack(out, more);
      AllStillKnown(a.active, active, env.now);
      SameRows(out, old(table), table);
      FiledAgain(a.active, active, old(table), table, orphans, more, jobids);
      Closed(Top(), a, Now(), finished, book, jobids, {});
      assert !any ==> active == a.active;
      CheckedKept(a.active, active, env.now);
    }

    // ---------- jobs that end ----------

    /** notify_errorlevel: the error level goes to every job on the list. */
    method Notify(notify: seq<int>, err: int)
      requires DistinctIds(active)
      modifies this`active, this`finished, this`lastErr
      ensures lastErr == err
      ensures active == Notified(old(active), notify, Abs(err)) && SameShape(old(finished), finished)
    {
      hide DistinctIds, Notified, Abs;
      lastErr := err;
      NotifyNone(active, Abs(err));
      NotifiedShape(active, notify[..0], Abs(err));
      for k := 0 to |notify|
        invariant lastErr == err
        invariant active == Notified(old(active), notify[..k], Abs(err)) && SameShape(old(active), active)
        invariant SameShape(old(finished), finished)
      {
        var x := notify[k];
        assert notify[..k + 1] == notify[..k] + [x];
        var f := FindJob(x);
        if f >= 0 {
          NotifyStep(old(active), notify[..k], Abs(err), x, f);
          active := active[f := active[f].(depErr := active[f].depErr + Abs(err))];
        } else {
          NotifySkip(old(active), notify[..k], Abs(err), x);
          var g := FindFinished(x);
          if g >= 0 {
            finished := finished[g := finished[g].(depErr := finished[g].depErr + Abs(err))];
          }
        }
      }
      assert notify[..|notify|] == notify;
    }

    /** new_finished_job: at most maxFinished are kept, the oldest goes first. */
    method Archive(p: Job)
      modifies this`finished
      ensures Archived(old(finished), finished, p) && |finished| == Shelf(|old(finished)|, maxFinished)
    {
      if |finished| >= maxFinished && |finished| > 0 {
        finished := finished[1..];
      }
      finished := finished + [p];
    }

    /** The memory part of job_finished; returns the job as it is archived. */
    method EndJob(i: nat, err: int, skipped: bool) returns (p: Job)
      requires i < |active| && active[i].user < |users| && DistinctIds(active)
      modifies this`users, this`active, this`busySlots, this`finished, this`lastErr, this`lastFinished
      ensures Now() == Ended(old(Now()), i, Abs(err)) && SameShape(old(finished), finished)
      ensures lastErr == err && lastFinished == p.id == old(active[i].id) && p.err == err && p.notify == old(active[i].notify)
      ensures p.state == if skipped then Skipped else Finished
    {
      hide Abs, Notified, DistinctIds, SameShape, Ended, Refund, RefundSlots;
      ghost var a := Now();
      FreeCores(i);
      p := active[i].(state := if skipped then Skipped else Finished, err := err);
      lastFinished := p.id;
      FreedIds(a.active, i);
      Notify(p.notify, err);
      FreedNotified(a, i, Now(), Abs(err));
      p := p.(depErr := active[i].depErr);
      active := active[..i] + active[i + 1..];
    }

    /** job_finished: slots and CPUs come back, dependents learn the error level. */
    method Finish(i: nat, err: int, skipped: bool)
      requires Valid() && i < |active|
      modifies this`users, this`active, this`table, this`busySlots, this`finished, this`lastErr, this`lastFinished, this`book, cpu`allocs, cpu.owner, cpu.groupFree, cpu.nodeFree
      ensures Valid() && (old(Ledger()) ==> Ledger()) && Steady(Top(), old(Now()), Now(), {})
      ensures old(active[i].user < |users|) && Now() == Ended(old(Now()), i, Abs(err))
      ensures |finished| > 0 && finished[|finished| - 1].id == old(active[i].id) && finished[|finished| - 1].err == err
      ensures finished[|finished| - 1].state == if skipped then Skipped else Finished
      ensures !cpu.defragDisabled ==> Compacted(cpu.topo, old(cpu.allocs), old(active[i].id), cpu.allocs, cpu.S())
      ensures |finished| == Shelf(|old(finished)|, maxFinished)
      ensures lastErr == err && lastFinished == old(active[i].id)
      ensures book == Announce(old(book), old(active[i].id), Abs(err))
      ensures |users| == |old(users)| && SameCaps(old(users), users)
    {
      hide Sound, OnRoster, InBalance, Steady, Abs, Ended, Announce, DistinctIds, SameShape, CpuBind.Allocator.Valid, Matches, Filed, Archived, Shelf, Compacted, SameCaps, CpuTopology.AllCpus, JobOk;
      ghost var a, f := Now(), finished;
      SoundAt(a, i);
      OwnerKnown(active[i], |users|);
      EndedSteady(Top(), a, i, Abs(err));
      var id := active[i].id;
      var p := EndJob(i, err, skipped);
      ghost var g := finished;
      SameLength(f, g);
      Archive(p);
      Retire(id, a, i, Abs(err));
      book := Announce(book, p.id, Abs(err));
      EndedKept(a, i, err, f, g, finished, p, old(book), jobids);
      SteadySound(Top(), a, Now(), {});
      ArchivedLast(g, finished, p);
      EndedUsers(a, i, Abs(err));
    }

    /** Row and CPUs of a job that has left the vector. */
    method Retire(id: int, ghost a: Books, ghost i: nat, ghost e: int)
      requires i < |a.active| && a.active[i].user < |a.users| && a.active[i].id == id && active == Ended(a, i, e).active
      requires cpu.Valid() && Matches(a.active, cpu.allocs) && Filed(a.active, table, orphans, jobids)
      requires binding == !cpu.disabled && cpus == |CpuTopology.AllCpus(cpu.topo)|
      modifies this`table, cpu`allocs, cpu.owner, cpu.groupFree, cpu.nodeFree
      ensures Wired() && table == old(table) - {id}
      ensures !cpu.defragDisabled ==> Compacted(cpu.topo, old(cpu.allocs), id, cpu.allocs, cpu.S())
    {
      hide CpuBind.Allocator.Valid, Matches, Filed, Ended, CpuTopology.AllCpus, CR.Rebuilt, AllBut;
      FiledEnded(a, i, e, table, orphans, jobids);
      table := table - {id};
      FreeCpus(id, a.active, i);
      MatchesEnded(a, i, e, cpu.allocs);
      ghost var mid := cpu.allocs;
      var c := Defrag();
    }

    // ---------- s_update_slots_usage ----------

    /** Jobs whose process has gone end as killed. */
    method BuryDead(env: Env) returns (ghost ends: seq<Ending>)
      requires Valid()
      modifies this`users, this`active, this`table, this`busySlots, this`finished, this`lastErr, this`lastFinished, this`book, cpu`allocs, cpu.owner, cpu.groupFree, cpu.nodeFree
      ensures Valid() && (old(Ledger()) ==> Ledger()) && Steady(Top(), old(Now()), Now(), {})
      ensures Ticked(old(active), active, env.now, jobids, false)
      ensures NoneDead(env, active, 0) && |users| == |old(users)| && SameCaps(old(users), users)
      ensures Survive(env, old(active), active) && (NoneDead(env, old(active), 0) ==> Now() == old(Now()))
      ensures forall k :: 0 <= k < |active| ==> !Lifeless(active[k], env)
      ensures forall k :: 0 <= k < |old(active)| && !Known(active, old(active)[k].id) ==> Lifeless(old(active)[k], env)
      ensures Grows(old(book), book, ends, jobids) && Buried(env, old(active), ends)
    {
      hide Ticked, Sound, OnRoster, InBalance, Steady, Dead, NoneDead, Ended, SameCaps, Survive, DistinctIds, Burying, Wired, Lifeless, Known;
      hide Grows, Announce, BuriedFrom;
      ghost var a := Now();
      SteadyStill(Top(), a);
      AllDistinct(a);
      CapsStill(users);
      BuryingBegins(env, active);
      GrowsStill(book, jobids);
      BuriedNone(env, active);
      ends := [];
      var i := |active|;
      NoneBeyond(env, active);
      TickedStill(active, env.now, jobids, false);
      while i > 0
        invariant 0 <= i <= |active| && Valid() && Steady(Top(), a, Now(), {}) && |users| == |a.users|
        invariant (old(Ledger()) ==> Ledger()) && Ticked(a.active, active, env.now, jobids, false)
        invariant NoneDead(env, active, i) && SameCaps(a.users, users) && Burying(env, a.active, active, i)
        invariant NoneDead(env, a.active, 0) ==> Now() == a
        invariant Grows(old(book), book, ends, jobids) && i <= |a.active| && BuriedFrom(env, a.active, i, ends)
      {
        i := i - 1;
        ghost var b, was := Now(), book;
        BuryingAt(env, a.active, active, i);
        if Dead(env, active[i]) {
          DeadOne(env, active, i);
          Finish(i, -1, false);
          SteadyThen(Top(), a, b, Now());
          StillNoneDead(env, b, i, 1);
          TickedEnded(a.active, b, i, 1, env.now, jobids, false);
          CapsTwice(a.users, b.users, users);
          BuryingOne(env, a.active, b, i, 1);
          GrowsOne(was, b.active[i].id, 1, jobids);
          GrowsTwice(old(book), was, book, ends, [Ending(b.active[i].id, 1)], jobids, jobids);
          BuriedMore(env, a.active, i, ends);
          ends := ends + [Ending(b.active[i].id, 1)];
        } else {
          OneMoreAlive(env, active, i);
          BuryingOn(env, a.active, active, i);
          BuriedSame(env, a.active, i, ends);
        }
      }
      BuryingEnds(env, a.active, active);
      BuriedKept(env, a.active, active);
    }

    /** The counters set to 0. */
    method ClearCounters()
      modifies this`users
      ensures SameCaps(old(users), users)
      ensures forall u :: 0 <= u < |users| ==> users[u].busy == 0 && users[u].jobs == 0 && users[u].queue == 0
    {
      for k := 0 to |users|
        invariant SameCaps(old(users), users)
        invariant forall u :: 0 <= u < k ==> users[u].busy == 0 && users[u].jobs == 0 && users[u].queue == 0
      {
        users := users[k := users[k].(busy := 0, jobs := 0, queue := 0)];
      }
    }

    /** The counters computed anew from the jobs. */
    method Recount() returns (usage: int)
      requires Valid()
      modifies this`users, this`busySlots
      ensures Valid() && Steady(Top(), old(Now()), Now(), {}) && Even(Now())
      ensures Tallied(users, busySlots, active) && usage == busySlots && |users| == |old(users)| && SameCaps(old(users), users)
      ensures Recounted(users, active)
    {
      hide Sum, OnRoster, Steady, Tallied, Even, SameCaps, Sound, Wired, Recounted;
      ghost var a := Now();
      AllJobsOk(a);
      CountAll();
      usage := busySlots;
      TalliedKept(users, busySlots, active);
      TalliedSteady(Top(), a, Now());
      SteadySound(Top(), a, Now(), {});
      SameCount(a.users, users);
    }

    /** s_update_slots_usage: the counters are equal to what they count. */
    method UpdateSlotsUsage(env: Env) returns (usage: int, ghost ends: seq<Ending>)
      requires Valid()
      modifies this`users, this`active, this`table, this`busySlots, this`finished, this`lastErr, this`lastFinished, this`book, this`lastUid, cpu`allocs, cpu.owner, cpu.groupFree, cpu.nodeFree
      ensures Valid() && (old(Ledger()) ==> Ledger()) && Steady(Top(), old(Now()), Now(), {})
      ensures Ticked(old(active), active, env.now, jobids, true)
      ensures Even(Now()) && NoneDead(env, active, 0) && Survive(env, old(active), active)
      ensures |users| == |old(users)| && SameCaps(old(users), users)
      ensures forall k :: 0 <= k < |active| ==> !Lifeless(active[k], env)
      ensures LateServed(old(active), active, env.now)
      ensures SomeLate(old(active), env.now) ==> Exhausted(Calls(env), Now())
      ensures !SomeLate(old(active), env.now) ==> Tallied(users, busySlots, active) && Recounted(users, active)
      ensures !SomeLate(old(active), env.now) && NoneDead(env, old(active), 0) ==> active == old(active)
      ensures Grows(old(book), book, ends, jobids) && Buried(env, old(active), ends)
    {
      hide Ticked, Sound, OnRoster, InBalance, Steady, Even, NoneDead, AllChecked, Tallied, Recounted, InPlace, Survive, SameCaps, Capped, Wired;
      hide Grows, Buried, SomeLate, Lifeless, InTurn, LateServed, Timeouts, DistinctIds, Exhausted, Recounted, Laps, Starts, TimelyStarts, MoreRun, IdleWithWork, Sum, Passed;
      ghost var a := Now();
      var late;
      usage, late, ends := Renew(env);
      RosterBelow(a.active, old(finished), jobids);
      ghost var b := Now();
      if late {
        var n, path, _ := NextRunJob(env);
        PassedSteady(Calls(env), path, b, Now());
        TickedLate(b.active, active, env.now, jobids);
        LateServedStill(a.active, b.active, active, env.now, jobids);
        TickedTwice(a.active, b.active, active, env.now, jobids, jobids, true);
        SteadyThen(Top(), a, b, Now());
        AllJobsOk(b);
        NotDead(env, b.active, active, |b.users|);
        SurviveInPlace(env, a.active, b.active, active);
        CapsTwice(a.users, b.users, users);
      }
      NoneLifeless(env, active);
    }

    /** Its first part: time-outs, dead jobs and the count. */
    method Renew(env: Env) returns (usage: int, late: bool, ghost ends: seq<Ending>)
      requires Valid()
      modifies this`users, this`active, this`table, this`busySlots, this`finished, this`lastErr, this`lastFinished, this`book, cpu`allocs, cpu.owner, cpu.groupFree, cpu.nodeFree
      ensures Valid() && (old(Ledger()) ==> Ledger()) && Steady(Top(), old(Now()), Now(), {})
      ensures Ticked(old(active), active, env.now, jobids, true)
      ensures Even(Now()) && NoneDead(env, active, 0) && Survive(env, old(active), active)
      ensures |users| == |old(users)| && SameCaps(old(users), users)
      ensures LateServed(old(active), active, env.now)
      ensures Grows(old(book), book, ends, jobids) && Buried(env, old(active), ends)
      ensures (late <==> SomeLate(old(active), env.now)) && Tallied(users, busySlots, active) && Recounted(users, active)
      ensures !late && NoneDead(env, old(active), 0) ==> active == old(active)
    {
      hide Ticked, Sound, OnRoster, InBalance, Steady, Even, NoneDead, AllChecked, Tallied, Recounted, InPlace, Survive, SameCaps, Capped, Wired;
      hide Grows, Buried, SomeLate, Lifeless, InTurn, LateServed, Timeouts, DistinctIds, Exhausted, Recounted;
      ghost var a := Now();
      late := CheckTimeout(env);
      ghost var b := Now();
      ends := BuryDead(env);
      SteadyThen(Top(), a, b, Now());
      AllDistinct(b);
      LateServedAtOnce(a.active, b.active, env.now);
      RosterBelow(a.active, old(finished), jobids);
      TickedChecked(a.active, b.active, env.now, jobids);
      TickedLate(b.active, active, env.now, jobids);
      LateServedStill(a.active, b.active, active, env.now, jobids);
      TickedTwice(a.active, b.active, active, env.now, jobids, jobids, true);
      CheckedSurvive(env, a.active, b.active, active);
      CheckedBuried(env, a.active, b.active, ends);
      CapsTwice(a.users, b.users, users);
      b := Now();
      usage := Recount();
      SteadyThen(Top(), a, b, Now());
      CapsTwice(a.users, b.users, users);
    }

    // ---------- requests of users ----------

    /** s_hold_job, asked for by user u. */
    method Hold(id: int, u: nat, env: Env) returns (i: int)
      requires Valid() && u < |users|
      modifies this`users, this`active, this`busySlots, cpu`allocs, cpu.owner, cpu.groupFree, cpu.nodeFree
      ensures Valid() && (old(Ledger()) ==> Ledger()) && Steady(Top(), old(Now()), Now(), {})
      ensures Ticked(old(active), active, env.now, jobids, false)
      ensures i == -1 <==> old(users[u]).cap < 0 || !Known(old(active), id)
      ensures i == -1 ==> Now() == old(Now())
      ensures i != -1 ==>
        && 0 <= i < |old(active)| && old(active[i]).id == id && old(active[i].user < |users|)
        && Now() == HeldBack(old(Now()), i, u, env.now) && HoldDone(old(Now()), Now(), i, u, env.now)
    {
      hide Ticked, HeldBack, HoldDone, Sound, OnRoster, InBalance, Steady, LinksFrom, JobOk, Wired;
      ghost var a := Now();
      SteadyStill(Top(), a);
      TickedStill(active, env.now, jobids, false);
      i := -1;
      if users[u].cap < 0 {
        return;
      }
      i := FindJob(id);
      if i == -1 {
        return;
      }
      SoundAt(a, i);
      OwnerKnown(active[i], |users|);
      HeldBackSteady(Top(), a, i, u, env.now);
      Closed(Top(), a, HeldBack(a, i, u, env.now), finished, book, jobids, {});
      SteadySound(Top(), a, HeldBack(a, i, u, env.now), {});
      HeldBackUsers(a, i, u, env.now);
      TickedHeld(a, i, u, env.now, jobids, false);
      HeldKept(a, i, u, env.now);
      HoldJob(i, u, env);
    }

    method HoldJob(i: nat, u: nat, env: Env)
      requires i < |active| && u < |users| && active[i].user < |users| && Wired()
      modifies this`users, this`active, this`busySlots, cpu`allocs, cpu.owner, cpu.groupFree, cpu.nodeFree
      ensures Now() == HeldBack(old(Now()), i, u, env.now) && Wired()
    {
      hide Abs, CpuBind.Allocator.Valid, Matches, Filed;
      var p := active[i];
      if p.state.Queued? {
        if p.user == u || users[u].uid == 0 {
          users := users[p.user := users[p.user].(queue := users[p.user].queue - 1)];
          Edit(i, p.(state := Locked));
        }
      } else if p.state.Locked? {
      } else if p.state.Paused? {
        if p.wall < 0 {
          Edit(i, p.(wall := Abs(p.wall)));
        }
      } else if p.pid != 0 && (p.user == u || users[u].uid == 0) {
        PauseJob(i, env);
      }
    }

    /** A change of a job that the allocator does not see. */
    method Edit(i: nat, y: Job)
      requires i < |active| && Wired() && y.id == active[i].id && y.bound == active[i].bound
      modifies this`active
      ensures Wired() && active == old(active)[i := y]
    {
      hide CpuBind.Allocator.Valid, Matches, Filed;
      MatchesEdited(active, active[i := y], cpu.allocs);
      FiledEdited(active, active[i := y], table, orphans, jobids);
      active := active[i := y];
    }

    /** s_cont_job, asked for by user u. `mid` is the state once the counters
        have been brought up to date. */
    method Cont(id: int, u: nat, env: Env) returns (i: int, ghost mid: Books, ghost ends: seq<Ending>)
      requires Valid() && u < |users|
      modifies this`users, this`active, this`table, this`busySlots, this`finished, this`lastErr, this`lastFinished, this`book, this`lastUid, cpu`allocs, cpu.owner, cpu.groupFree, cpu.nodeFree
      ensures Valid() && (old(Ledger()) ==> Ledger()) && Steady(Top(), old(Now()), Now(), {})
      ensures Ticked(old(active), active, env.now, jobids, true)
      ensures Grows(old(book), book, ends, jobids) && Buried(env, old(active), ends) && LateServed(old(active), active, env.now)
      ensures Even(mid) && Steady(Top(), old(Now()), mid, {}) && Survive(env, old(active), mid.active)
      ensures |mid.users| == |old(users)|
      ensures i == -1 <==> old(users[u]).cap < 0 || !Known(mid.active, id)
      ensures i == -1 ==> Now() == mid
      ensures i != -1 ==>
        && 0 <= i < |mid.active| && mid.active[i].id == id && mid.active[i].user < |mid.users|
        && Now() == Continued(mid, i, u, maxSlots, env.now, cpus, binding) && u < |mid.users|
        && ContDone(mid, Now(), i, u, maxSlots, env.now)
    {
      hide Ticked, LateServed, ContDone, Sound, OnRoster, InBalance, Steady, LinksFrom, JobOk, Even, NoneDead, Continued, Survive, Wired, Grows, Buried;
      ghost var a := Now();
      var usage;
      usage, ends := UpdateSlotsUsage(env);
      mid := Now();
      i := -1;
      if users[u].cap < 0 {
        return;
      }
      i := FindJob(id);
      if i == -1 {
        return;
      }
      SoundAt(mid, i);
      OwnerKnown(active[i], |users|);
      ghost var next := Continued(mid, i, u, maxSlots, env.now, cpus, binding);
      ContinuedSteady(Top(), mid, i, u, maxSlots, env.now, cpus, binding);
      Closed(Top(), mid, next, finished, book, jobids, {});
      SteadySound(Top(), mid, next, {});
      SteadyThen(Top(), a, mid, next);
      TickedContinued(mid, i, u, maxSlots, env.now, cpus, binding, jobids, true);
      RosterBelow(a.active, old(finished), jobids);
      LateServedStill(a.active, mid.active, next.active, env.now, jobids);
      TickedTwice(a.active, mid.active, next.active, env.now, jobids, jobids, true);
      ContinuedUsers(mid, i, u, maxSlots, env.now, cpus, binding);
      ContinuedKept(mid, i, u, maxSlots, env.now, cpus, binding);
      ContJob(i, u, env);
    }

    method ContJob(i: nat, u: nat, env: Env)
      requires i < |active| && u < |users| && active[i].user < |users| && Wired()
      modifies this`users, this`active, this`busySlots, cpu`allocs, cpu.owner, cpu.groupFree, cpu.nodeFree
      ensures Now() == Continued(old(Now()), i, u, maxSlots, env.now, cpus, binding) && Wired()
    {
      hide Start, Sum, Abs, Wired;
      var p := active[i];
      var mine := p.user == u || users[u].uid == 0;
      if p.state.Locked? {
        if mine {
          users := users[p.user := users[p.user].(queue := users[p.user].queue + 1)];
          Edit(i, p.(state := Queued));
        }
        return;
      }
      if p.state.Queued? {
        return;
      }
      Edit(i, p.(wall := Abs(p.wall)));
      if !p.state.Running? && p.pid != 0 && mine {
        if users[u].busy + p.slots <= users[u].cap && busySlots + p.slots <= maxSlots {
          var rc := ConfigRunning(i, env);
        } else {
          AbsTwice(p.wall);
          Edit(i, active[i].(wall := -Abs(active[i].wall)));
        }
      }
    }

    /** s_requeue_job, asked for by user u. */
    method Requeue(id: int, u: nat, env: Env) returns (i: int)
      requires Valid() && u < |users|
      modifies this`users, this`active, this`table, this`busySlots, cpu`allocs, cpu.owner, cpu.groupFree, cpu.nodeFree
      ensures Valid() && (old(Ledger()) ==> Ledger()) && Steady(Top(), old(Now()), Now(), {})
      ensures Ticked(Prolonged(old(Now()), RequeueRequest(id, u)), active, env.now, jobids, false)
      ensures i == -1 ==> Now() == old(Now())
      ensures i == -1 ==> forall k :: 0 <= k < |old(active)| && old(active)[k].id == id ==>
        !MayTouch(old(users), u, old(active)[k]) || (!old(active)[k].state.Running? && !old(active)[k].state.Paused?)
      ensures i != -1 ==>
        && 0 <= i < |old(active)| && old(active[i]).id == id && MayTouch(old(users), u, old(active[i]))
        && (old(active[i]).state.Running? || old(active[i]).state.Paused?)
        && old(active[i].user < |users|) && Now() == Demoted(old(Now()), i, env.now)
        && |active| == |old(active)| && PutOff(old(active[i]), active[|active| - 1], env.now)
    {
      hide Ticked, Prolonged, DayMore, Sound, OnRoster, InBalance, Steady, LinksFrom, Demoted, Wired;
      ghost var a := Now();
      SteadyStill(Top(), a);
      AllDistinct(a);
      TickedStill(active, env.now, jobids, false);
      i := FindJob(id);
      if i == -1 {
        NotRequeued(a, id, u);
        return;
      }
      SoundAt(a, i);
      if (active[i].user != u && users[u].uid != 0) || (!active[i].state.Running? && !active[i].state.Paused?) {
        OnlyJob(active, i, id);
        NotRequeued(a, id, u);
        i := -1;
        return;
      }
      DemotedSteady(Top(), a, i, env.now);
      Closed(Top(), a, Demoted(a, i, env.now), finished, book, jobids, {});
      SteadySound(Top(), a, Demoted(a, i, env.now), {});
      TickedDemoted(a, i, env.now, jobids);
      ProlongedAt(a, RequeueRequest(id, u), i);
      DemotedLast(a, i, env.now);
      DemoteJob(i, env);
    }

    /** s_relegate_job, then vec_remove and vec_push. */
    method DemoteJob(i: nat, env: Env)
      requires i < |active| && active[i].user < |users| && JobOk(active[i], |users|) && Wired() && DistinctIds(active)
      requires active[i].state.Running? || active[i].state.Paused?
      modifies this`users, this`active, this`table, this`busySlots, cpu`allocs, cpu.owner, cpu.groupFree, cpu.nodeFree
      ensures Now() == Demoted(old(Now()), i, env.now) && Wired() && |users| == |old(users)|
    {
      hide CpuBind.Allocator.Valid, Matches, Filed, Relegated, Reordered;
      RelegatedId(active[i], env.now);
      StopIsLocal(Now(), i, Relegated(active[i], env.now));
      Relegate(i, env);
      FiledEdited(old(active), active, table, orphans, jobids);
      var r := QueueOrder.ToBottom(table, active[i].id);
      FiledToBack(active, i, table, orphans, jobids, r[active[i].id]);
      MovedToBack(active, i);
      MatchesReordered(active, (active[..i] + active[i + 1..]) + [active[i]], cpu.allocs);
      table := r;
      active := (active[..i] + active[i + 1..]) + [active[i]];
    }

    /** The loop of s_suspend_user. */
    method PauseJobs(u: nat, env: Env)
      requires Valid() && u < |users|
      modifies this`users, this`active, this`busySlots, cpu`allocs, cpu.owner, cpu.groupFree, cpu.nodeFree
      ensures Valid() && (old(Ledger()) ==> Ledger()) && Steady(Top(), old(Now()), Now(), {})
      ensures PausedUpTo(old(active), active, u, |old(active)|, env.now) && AllHalted(old(active), active, u, env.now)
      ensures |users| == |old(users)| && SameCaps(old(users), users)
    {
      hide Sound, OnRoster, InBalance, Steady, LinksFrom, JobOk, Stopped, Stop, Wired, SameCaps, AllHalted;
      ghost var a := Now();
      SteadyStill(Top(), a);
      LinksStill(a.active);
      CapsStill(users);
      for k := 0 to |active|
        invariant |active| == |a.active| && |users| == |a.users| && SameCaps(a.users, users) && Wired()
        invariant Steady(Top(), a, Now(), {}) && LinksFrom(a.active, active)
        invariant PausedUpTo(a.active, active, u, k, env.now)
      {
        ghost var b := Now();
        SteadySound(Top(), a, b, {});
        SoundAt(b, k);
        OwnerKnown(active[k], |users|);
        var p := active[k];
        if p.user == u && p.state.Running? && p.pid != 0 {
          PauseOne(Top(), b, k, env.now);
          PauseJob(k, env);
          StopIsLocal(b, k, Stopped(p, env.now));
          SteadyThen(Top(), a, b, Now());
          LinksTwice(a.active, b.active, active);
          CapsTwice(a.users, b.users, users);
        }
      }
      PausedKept(a.active, active, u, env.now);
      SteadySound(Top(), a, Now(), {});
      Closed(Top(), a, Now(), finished, book, jobids, {});
    }

    /** s_suspend_user: after it only jobs that never reported a process still
        count as running. */
    method Suspend(u: nat, env: Env) returns (ghost ends: seq<Ending>)
      requires Valid() && u < |users|
      modifies this`users, this`active, this`table, this`busySlots, this`finished, this`lastErr, this`lastFinished, this`book, this`lastUid, cpu`allocs, cpu.owner, cpu.groupFree, cpu.nodeFree
      ensures Valid() && (old(Ledger()) ==> Ledger()) && Steady(Top(), old(Now()), Now(), {})
      ensures Ticked(old(active), active, env.now, jobids, true)
      ensures Grows(old(book), book, ends, jobids) && Buried(env, old(active), ends) && NoneDead(env, active, 0)
      ensures Even(Now()) && |users| == |old(users)| && users[u].cap == -Abs(old(users[u].cap)) && Survive(env, old(active), active)
      ensures forall v :: 0 <= v < |users| && v != u ==> users[v].cap == old(users)[v].cap
      ensures RootIdle(old(users)) ==> RunningOf(active, u) <= Unstarted(old(active), u) && NoneAtWork(active, u)
    {
      hide Ticked, DistinctIds, NoneAtWork, AllHalted, LateServed, SomeLate, Tallied, Recounted, Exhausted, Sound, OnRoster, InBalance, Steady, Even, NoneDead, PausedUpTo, Survive, Grows, Buried, Wired;
      ghost var a := Now();
      CapSteady(Top(), a, u, -Abs(users[u].cap), true, {});
      users := users[u := users[u].(cap := -Abs(users[u].cap), locked := true)];
      ghost var b := Now();
      SteadySound(Top(), a, b, {});
      PauseJobs(u, env);
      TickedPaused(a.active, active, u, env.now, jobids, true);
      PausedRunning(a.active, active, u, env.now);
      ghost var c := Now();
      SteadyThen(Top(), a, b, c);
      RootStays(Top(), a, b, c);
      var usage;
      usage, ends := UpdateSlotsUsage(env);
      SteadyThen(Top(), a, c, Now());
      TickedTwice(a.active, c.active, active, env.now, jobids, jobids, true);
      AllDistinct(c);
      RosterBelow(active, finished, jobids);
      if RootIdle(a.users) {
        HaltedIdle(a.active, c.active, u, env.now);
        StillNoWork(Top(), c, Now(), u, env.now, jobids, true);
      }
      SuspendedStays(Top(), a, c, Now(), u);
      PausedSurvive(env, a.active, c.active, active, u);
      PausedBuried(env, a.active, c.active, ends, u);
    }

    /** s_resume_user: every paused job of the user that has a process starts,
        whether or not there are slots. The counters rise by exactly the slots of
        those jobs. */
    method Resume(u: nat, env: Env)
      requires Valid() && u < |users|
      modifies this`users, this`active, this`busySlots, cpu`allocs, cpu.owner, cpu.groupFree, cpu.nodeFree
      ensures Valid() && (old(Ledger()) ==> Ledger())
      ensures Ticked(old(active), active, env.now, jobids, false)
      ensures Steady(Top().(top := Higher(maxSlots, busySlots)), old(Now()), Now(), {u})
      ensures |users| == |old(users)| && users[u].cap == Abs(old(users[u].cap))
      ensures forall v :: 0 <= v < |users| && v != u ==> users[v].cap == old(users)[v].cap
      ensures ResumedUpTo(old(active), active, u, |old(active)|, env.now) && AllGoing(old(active), active, u, env.now)
      ensures busySlots == old(busySlots) + Sum(old(active), Frozen(u))
      ensures users[u].busy == old(users[u]).busy + Sum(old(active), Frozen(u))
      ensures busySlots <= maxSlots <==> old(busySlots) + Sum(old(active), Frozen(u)) <= maxSlots
      ensures users[u].busy <= users[u].cap <==> old(users[u]).busy + Sum(old(active), Frozen(u)) <= Abs(old(users[u]).cap)
    {
      hide Ticked, Sound, OnRoster, InBalance, Steady, LinksFrom, JobOk, Start, Started, Wired, Sum, AllGoing;
      ghost var a := Now();
      ghost var lim := Top().(top := Higher(maxSlots, busySlots + Sum(active, Frozen(u))));
      CapSteady(lim, a, u, Abs(users[u].cap), false, {u});
      users := users[u := users[u].(cap := Abs(users[u].cap), locked := false)];
      LinksStill(a.active);
      TickedStill(a.active, env.now, jobids, false);
      NoneFrozen(u);
      assert a.active[..0] == [];
      for k := 0 to |active|
        invariant |active| == |a.active| && |users| == |a.users| && users[u].cap == Abs(a.users[u].cap) && Wired()
        invariant forall v :: 0 <= v < |users| && v != u ==> users[v].cap == a.users[v].cap
        invariant Steady(lim, a, Now(), {u}) && LinksFrom(a.active, active) && Ticked(a.active, active, env.now, jobids, false)
        invariant ResumedUpTo(a.active, active, u, k, env.now)
        invariant busySlots == a.busySlots + Sum(a.active[..k], Frozen(u))
        invariant users[u].busy == a.users[u].busy + Sum(a.active[..k], Frozen(u))
      {
        ghost var b := Now();
        SteadySound(lim, a, b, {u});
        SoundAt(b, k);
        OwnerKnown(active[k], |users|);
        FrozenStep(a, u, k);
        if active[k].user == u && active[k].state.Paused? && active[k].pid != 0 {
          StartSteady(lim, b, k, env.now, cpus, binding, {u});
          StartLinks(b, k, env.now, cpus, binding);
          var rc := ConfigRunning(k, env);
          StartShape(b, k, env.now, cpus, binding);
          assert ToResume(a.active[k], u);
          SteadyExempt(lim, a, b, Now(), {u});
          LinksTwice(a.active, b.active, active);
          TickedStart(b, k, env.now, cpus, binding, jobids, false);
          TickedTwice(a.active, b.active, active, env.now, jobids, jobids, false);
        }
        OneMoreResumed(a.active, b.active, active, u, k, env.now);
      }
      assert a.active[..|a.active|] == a.active;
      ResumedKept(a.active, active, u, env.now);
      SteadySound(lim, a, Now(), {u});
      Closed(lim, a, Now(), finished, book, jobids, {u});
    }

    // ---------- clients and processes ----------

    /** s_process_runjob_ok, the first report of a dispatched job. */
    method RunJobOk(id: int, pid: int, env: Env) returns (i: int)
      requires Valid() && pid > 0
      modifies this`active, cpu`allocs, cpu.owner, cpu.groupFree, cpu.nodeFree
      ensures Valid() && (old(Ledger()) ==> Ledger()) && Steady(Top(), old(Now()), Now(), {})
      ensures Ticked(Prolonged(old(Now()), RunReport(id, pid)), active, env.now, jobids, false)
      ensures i == -1 ==> active == old(active)
      ensures i == -1 ==> forall k :: 0 <= k < |old(active)| && old(active)[k].id == id ==>
        !(old(active)[k].state.Running? && old(active)[k].pid == 0 && old(active)[k].bound == 0)
      ensures i != -1 ==>
        && 0 <= i < |old(active)| && old(active[i]).id == id && old(active[i]).state.Running? && old(active[i]).pid == 0 && old(active[i]).bound == 0
        && active == old(active)[i := Confirmed(old(Now()), i, pid, env.now, cpus, binding)]
        && active[i] == old(active[i]).(pid := pid, bound := active[i].bound, start := if old(active[i]).start == 0 then env.now else old(active[i]).start)
        && (binding && !active[i].noBinding && active[i].held > 0 && busySlots <= cpus && AllTidy(old(active))
            ==> active[i].bound == active[i].slots)
    {
      hide Ticked, Prolonged, Sound, OnRoster, InBalance, Steady, LinksFrom, JobOk, Sum, AllTidy, Wired, Confirmed;
      ghost var a := Now();
      SteadyStill(Top(), a);
      AllDistinct(a);
      TickedStill(active, env.now, jobids, false);
      i := FindJob(id);
      if i == -1 || !AwaitsReport(active[i]) {
        if i != -1 {
          OnlyJob(active, i, id);
        }
        NotReported(a, id, pid);
        i := -1;
        return;
      }
      SoundAt(a, i);
      ConfirmedSteady(Top(), a, i, pid, env.now, cpus, binding);
      if busySlots <= cpus && AllTidy(active) {
        RoomForRunning(a, i, cpus);
        ConfirmedBound(a, i, pid, env.now, cpus, binding);
      }
      ProlongedAt(a, RunReport(id, pid), i);
      TickedConfirmed(a, i, pid, env.now, cpus, binding, jobids, false);
      ConfirmedKept(a, i, pid, env.now, cpus, binding);
      Report(i, pid, env);
      Closed(Top(), a, Now(), finished, book, jobids, {});
      SteadySound(Top(), a, Now(), {});
    }

    /** The process is recorded, CPUs are bound, the clock starts. */
    method Report(i: nat, pid: int, env: Env)
      requires i < |active| && active[i].bound == 0 && Wired()
      modifies this`active, cpu`allocs, cpu.owner, cpu.groupFree, cpu.nodeFree
      ensures Wired() && active == old(active)[i := Confirmed(old(Now()), i, pid, env.now, cpus, binding)]
    {
      hide CpuBind.Allocator.Valid, Matches, Filed, BoundTo, Sum;
      var p := active[i].(pid := pid);
      var n := BindCpus(p, i);
      ghost var was := active[i := active[i].(bound := n)];
      p := p.(bound := n);
      if p.start == 0 {
        p := p.(start := env.now);
      }
      active := active[i := p];
      MatchesEdited(was, active, cpu.allocs);
      FiledEdited(old(active), active, table, orphans, jobids);
    }

    /** s_delete_job of a job that has not started. */
    method Delete(i: nat)
      requires Valid() && i < |active| && !active[i].state.Running? && !active[i].state.Paused?
      modifies this`active, this`table
      ensures Valid() && (old(Ledger()) ==> Ledger()) && Steady(Top(), old(Now()), Now(), {})
      ensures active == old(active)[..i] + old(active)[i + 1..]
    {
      hide Sound, OnRoster, InBalance, Steady, LinksFrom, Bound, Filed;
      ghost var a := Now();
      SoundAt(a, i);
      DeletedSteady(Top(), a, i);
      FiledLeft(active, i, table, orphans, jobids);
      var p := Detach(i);
      table := table - {p.id};
      Closed(Top(), a, Now(), finished, book, jobids, {});
      SteadySound(Top(), a, Now(), {});
    }

    /** clean_after_client_disappeared: a job that has started ends as killed, any
        other one is dropped. */
    method Disconnect(id: int) returns (i: int)
      requires Valid()
      modifies this`users, this`active, this`table, this`busySlots, this`finished, this`lastErr, this`lastFinished, this`book, cpu`allocs, cpu.owner, cpu.groupFree, cpu.nodeFree
      ensures Valid() && (old(Ledger()) ==> Ledger()) && Steady(Top(), old(Now()), Now(), {})
      ensures ClocksKept(old(active), active)
      ensures i == -1 <==> !Known(old(active), id)
      ensures !Known(active, id)
      ensures i == -1 ==> Now() == old(Now()) && book == old(book)
      ensures i != -1 ==> 0 <= i < |old(active)| && old(active[i]).id == id && old(active[i].user < |users|)
      ensures i != -1 && (old(active[i]).state.Running? || old(active[i]).state.Paused?) ==>
        Now() == Ended(old(Now()), i, 1) && book == Announce(old(book), id, 1)
      ensures i != -1 && !old(active[i]).state.Running? && !old(active[i]).state.Paused? ==>
        Now() == old(Now()).(active := old(active)[..i] + old(active)[i + 1..]) && book == old(book)
    {
      hide ClocksKept, Sound, OnRoster, InBalance, Steady, JobOk, Ended, Wired, Announce, DistinctIds, Compacted, Known;
      ghost var a := Now();
      SteadyStill(Top(), a);
      KeptStill(active);
      i := FindJob(id);
      KnownAt(active, id, i);
      if i == -1 {
        return;
      }
      SoundAt(a, i);
      OwnerKnown(active[i], |users|);
      AllDistinct(a);
      Departed(a, i, 1);
      GoneWithout(active, i);
      if active[i].state.Running? || active[i].state.Paused? {
        KeptEnded(a, i, 1);
        Finish(i, -1, false);
      } else {
        KeptWithout(active, i);
        Delete(i);
      }
    }

    /** s_cleanup_orphan_queued: queued jobs whose client did not come back. */
    method CleanupOrphans()
      requires Valid()
      modifies this`active, this`table
      ensures Valid() && (old(Ledger()) ==> Ledger()) && Steady(Top(), old(Now()), Now(), {})
      ensures ClocksKept(old(active), active)
      ensures forall k :: 0 <= k < |active| && active[k].state.Queued? ==> active[k].client > 0
      ensures forall k :: 0 <= k < |old(active)| && (old(active)[k].state.Queued? ==> old(active)[k].client > 0) ==> old(active)[k] in active
    {
      hide ClocksKept, Sound, OnRoster, InBalance, Steady, Wired;
      ghost var a := Now();
      SteadyStill(Top(), a);
      KeptStill(active);
      var i := |active|;
      while i > 0
        invariant 0 <= i <= |active| && Valid() && Steady(Top(), a, Now(), {})
        invariant (old(Ledger()) ==> Ledger()) && ClocksKept(a.active, active)
        invariant forall k :: i <= k < |active| && active[k].state.Queued? ==> active[k].client > 0
        invariant forall k :: 0 <= k < |a.active| && (a.active[k].state.Queued? ==> a.active[k].client > 0) ==> a.active[k] in active
      {
        i := i - 1;
        if active[i].state.Queued? && active[i].client <= 0 {
          ghost var b := Now();
          Delete(i);
          SteadyThen(Top(), a, b, Now());
          KeptWithout(b.active, i);
          KeptTwice(a.active, b.active, active);
          assert forall k :: i <= k < |active| ==> active[k] == b.active[k + 1];
          forall k | 0 <= k < |a.active| && (a.active[k].state.Queued? ==> a.active[k].client > 0)
            ensures a.active[k] in active
          {
            OthersStay(b.active, i, a.active[k]);
          }
        }
      }
    }

    /** s_remove_job, asked for by user u; -1 stands for the last job. Exactly the
        jobs that have not started, and finished ones, can be removed, by their
        owner and by root. */
    method Remove(id: int, u: nat) returns (ok: bool, i: int, k: int)
      requires Valid() && u < |users|
      modifies this`active, this`table, this`finished, this`lastErr, this`book
      ensures Valid() && (old(Ledger()) ==> Ledger()) && Steady(Top(), old(Now()), Now(), {})
      ensures ClocksKept(old(active), active)
      ensures Meant(old(active), old(finished), id, i, k)
      ensures ok <==> Removable(old(active), old(finished), u, i, k)
      ensures !ok ==> Now() == old(Now()) && finished == old(finished) && book == old(book)
      ensures ok && i >= 0 ==>
        && !Known(active, old(active[i].id))
        && old(active[i].user < |users|) && lastErr == -1
        && Now() == Ended(old(Now()), i, 1) && book == Announce(old(book), old(active[i].id), 1)
      ensures ok && i < 0 ==>
        && lastErr == -1 && |finished| == |old(finished)| - 1
        && active == Notified(old(active), old(finished[k]).notify, 1) && book == Announce(old(book), old(finished[k].id), 1)
    {
      hide ClocksKept, Sound, OnRoster, InBalance, Steady, Notified, Ended, Wired, Announce, DistinctIds, JobOk;
      SteadyStill(Top(), Now());
      KeptStill(active);
      i, k := -1, -1;
      if id == -1 {
        if |active| > 0 {
          i := |active| - 1;
        } else if |finished| > 0 {
          k := |finished| - 1;
        }
      } else {
        i := FindJob(id);
        if i == -1 {
          k := FindFinished(id);
        }
      }
      ok := false;
      if i >= 0 {
        if (u == 0 || active[i].user == u) && !active[i].state.Running? && !active[i].state.Paused? && !active[i].state.Abnormal? {
          ghost var a := Now();
          AllDistinct(a);
          SoundAt(a, i);
          OwnerKnown(active[i], |users|);
          Departed(a, i, 1);
          RemoveActive(i);
          KeptEnded(a, i, 1);
          ok := true;
        }
      } else if k >= 0 && (u == 0 || finished[k].user == u) {
        NotifiedShape(active, finished[k].notify, 1);
        KeptShape(active, Notified(active, finished[k].notify, 1));
        RemoveFinished(k);
        ok := true;
      }
    }

    /** A job that never ran announces a failure and leaves. */
    method RemoveActive(i: nat)
      requires Valid() && i < |active|
      requires !active[i].state.Running? && !active[i].state.Paused? && !active[i].state.Abnormal?
      modifies this`active, this`table, this`finished, this`lastErr, this`book
      ensures Valid() && (old(Ledger()) ==> Ledger()) && Steady(Top(), old(Now()), Now(), {})
      ensures lastErr == -1 && |active| == |old(active)| - 1 && |finished| == |old(finished)|
      ensures old(active[i].user < |users|) && Now() == Ended(old(Now()), i, 1) && book == Announce(old(book), old(active[i].id), 1)
    {
      hide Sound, OnRoster, InBalance, Steady, DistinctIds, CpuBind.Allocator.Valid, Matches, Filed, Announce;
      ghost var a, f := Now(), finished;
      SoundAt(a, i);
      EndedSteady(Top(), a, i, 1);
      EndedShape(a, i, 1);
      var p := active[i];
      assert p.pid == 0 && p.held == 0 && p.bound == 0;
      assert a.active[i := a.active[i].(bound := 0)] == a.active;
      MatchesEnded(a, i, 1, cpu.allocs);
      FiledEnded(a, i, 1, table, orphans, jobids);
      Notify(p.notify, -1);
      active := active[..i] + active[i + 1..];
      assert Now() == Ended(a, i, 1);
      table := table - {p.id};
      book := Announce(book, p.id, 1);
      hide Ended, JobOk;
      RemovedKept(a, i, f, finished, old(book), jobids);
      SteadySound(Top(), a, Now(), {});
    }

    method RemoveFinished(k: nat)
      requires Valid() && k < |finished|
      modifies this`active, this`table, this`finished, this`lastErr, this`book
      ensures Valid() && (old(Ledger()) ==> Ledger()) && Steady(Top(), old(Now()), Now(), {})
      ensures lastErr == -1 && |active| == |old(active)| && |finished| == |old(finished)| - 1
      ensures active == Notified(old(active), old(finished[k]).notify, 1) && book == Announce(old(book), old(finished[k].id), 1)
    {
      hide Sound, OnRoster, InBalance, Steady, DistinctIds, Notified, SameShape, CpuBind.Allocator.Valid, Matches, Filed, Announce;
      ghost var a, f := Now(), finished;
      AllDistinct(a);
      var p := finished[k];
      NotifiedSteady(Top(), a, p.notify, 1);
      NotifiedShape(a.active, p.notify, 1);
      NotActive(a.active, finished, jobids, k);
      Notify(p.notify, -1);
      MatchesShape(a.active, active, cpu.allocs);
      FiledShape(a.active, active, table, orphans, jobids);
      FiledWithout(active, p.id, table, orphans, jobids);
      table := table - {p.id};
      SameLength(a.active, active);
      SameLength(f, finished);
      ghost var g := finished;
      finished := finished[..k] + finished[k + 1..];
      book := Announce(book, p.id, 1);
      ForgottenKept(a, k, f, g, finished, old(book), jobids);
      SteadySound(Top(), a, Now(), {});
    }

    /** s_check_running_health. */
    method CheckHealth(env: Env)
      requires Valid()
      modifies this`users, this`active, this`busySlots, cpu`allocs, cpu.owner, cpu.groupFree, cpu.nodeFree
      ensures Valid() && (old(Ledger()) ==> Ledger()) && Steady(Top(), old(Now()), Now(), {})
      ensures Ticked(old(active), active, env.now, jobids, false)
      ensures ExaminedUpTo(old(active), active, |active|, env) && AllExamined(old(active), active, env)
    {
      hide Ticked, AllExamined, Sound, OnRoster, InBalance, Steady, LinksFrom, JobOk, ExaminedBooks, Examined, Wired;
      ghost var a := Now();
      SteadyStill(Top(), a);
      LinksStill(a.active);
      for k := 0 to |active|
        invariant |active| == |a.active| && |users| == |a.users| && Wired()
        invariant Steady(Top(), a, Now(), {}) && LinksFrom(a.active, active)
        invariant ExaminedUpTo(a.active, active, k, env)
      {
        ghost var b := Now();
        SteadySound(Top(), a, b, {});
        SoundAt(b, k);
        OwnerKnown(active[k], |users|);
        ExaminedSteady(Top(), b, k, env);
        ExaminedMore(a.active, active, k, env);
        SteadyThen(Top(), a, b, ExaminedBooks(b, k, env));
        LinksTwice(a.active, b.active, ExaminedBooks(b, k, env).active);
        Examine(k, env);
      }
      ExaminedKept(a.active, active, env);
      TickedExamined(a.active, active, env, jobids, false);
      SteadySound(Top(), a, Now(), {});
      Closed(Top(), a, Now(), finished, book, jobids, {});
    }

    method Examine(k: nat, env: Env)
      requires k < |active| && active[k].user < |users| && Wired()
      modifies this`users, this`active, this`busySlots, cpu`allocs, cpu.owner, cpu.groupFree, cpu.nodeFree
      ensures Now() == ExaminedBooks(old(Now()), k, env) && Wired()
      ensures old(ToExamine(active[k], env.now) && active[k].pid in env.idle) && !cpu.defragDisabled ==>
        Compacted(cpu.topo, old(cpu.allocs), old(active[k].id), cpu.allocs, cpu.S())
    {
      hide Wired, Compacted;
      var p := active[k];
      if p.state.Running? && !p.healthy && p.pid > 0 && env.now - p.start >= 300 {
        if p.pid in env.idle {
          Edit(k, p.(state := Abnormal));
          GiveBack(k);
        } else {
          Edit(k, p.(healthy := true));
        }
      } else {
        assert active[k := p] == active;
      }
    }

    /** free_cores, cpu_bind_free and a defragmentation. */
    method GiveBack(i: nat)
      requires i < |active| && active[i].user < |users| && Wired()
      modifies this`users, this`active, this`busySlots, cpu`allocs, cpu.owner, cpu.groupFree, cpu.nodeFree
      ensures users == Refund(old(users), old(active[i])) && busySlots == RefundSlots(old(busySlots), old(active[i])) && Wired()
      ensures active == old(active)[i := old(active[i]).(held := 0, bound := 0)]
      ensures !cpu.defragDisabled ==> Compacted(cpu.topo, old(cpu.allocs), old(active[i].id), cpu.allocs, cpu.S())
    {
      hide CpuBind.Allocator.Valid, Matches, Filed, CR.Rebuilt, AllBut;
      ghost var was := active;
      FreeCpus(active[i].id, active, i);
      FreeCores(i);
      active := active[i := active[i].(bound := 0)];
      MatchesEdited(was[i := was[i].(bound := 0)], active, cpu.allocs);
      FiledEdited(was, active, table, orphans, jobids);
      ghost var mid := cpu.allocs;
      var c := Defrag();
    }

    /** s_move_urgent. */
    method Urgent(id: int) returns (i: int)
      requires Valid()
      modifies this`active, this`table
      ensures Valid() && (old(Ledger()) ==> Ledger()) && Steady(Top(), old(Now()), Now(), {})
      ensures ClocksKept(old(active), active)
      ensures i == -1 ==> active == old(active) && forall k :: 0 <= k < |active| ==> active[k].id != id
      ensures i != -1 ==> 0 <= i < |old(active)| && old(active[i]).id == id
      ensures i != -1 ==> active == [old(active[i])] + (old(active)[..i] + old(active)[i + 1..])
    {
      hide ClocksKept, Sound, OnRoster, InBalance, Steady, LinksFrom, Reordered, DistinctIds, CpuBind.Allocator.Valid, Matches, Filed;
      ghost var a := Now();
      AllDistinct(a);
      i := FindJob(id);
      if i == -1 {
        SameOrder(active);
      } else {
        MovedToFront(active, i);
        var r := QueueOrder.ToTop(table, id);
        FiledToFront(active, i, table, orphans, jobids, r[id]);
        var p := active[i];
        table := r;
        active := [p] + (active[..i] + active[i + 1..]);
      }
      MatchesReordered(a.active, active, cpu.allocs);
      KeptReordered(a.active, active);
      ReorderedSteady(Top(), a, active);
      Closed(Top(), a, Now(), finished, book, jobids, {});
      SteadySound(Top(), a, Now(), {});
    }

    /** s_swap_jobs. */
    method Swap(id1: int, id2: int) returns (i: int, j: int)
      requires Valid()
      modifies this`active, this`table
      ensures Valid() && (old(Ledger()) ==> Ledger()) && Steady(Top(), old(Now()), Now(), {})
      ensures ClocksKept(old(active), active)
      ensures i == -1 || j == -1 ==> active == old(active)
      ensures i == -1 ==> forall k :: 0 <= k < |active| ==> active[k].id != id1
      ensures j == -1 ==> forall k :: 0 <= k < |active| ==> active[k].id != id2
      ensures i != -1 && j != -1 ==>
        && 0 <= i < |old(active)| && 0 <= j < |old(active)| && old(active[i]).id == id1 && old(active[j]).id == id2
        && active == old(active)[i := old(active)[j]][j := old(active)[i]]
    {
      hide ClocksKept, Sound, OnRoster, InBalance, Steady, LinksFrom, Reordered, DistinctIds, CpuBind.Allocator.Valid, Matches, Filed;
      ghost var a := Now();
      AllDistinct(a);
      SameOrder(active);
      i := FindJob(id1);
      j := FindJob(id2);
      if i >= 0 && j >= 0 {
        Exchanged(active, i, j);
        FiledSwapped(active, i, j, table, orphans, jobids);
        table := QueueOrder.SwapRows(table, id1, id2);
        active := active[i := active[j]][j := active[i]];
      }
      MatchesReordered(a.active, active, cpu.allocs);
      KeptReordered(a.active, active);
      ReorderedSteady(Top(), a, active);
      Closed(Top(), a, Now(), finished, book, jobids, {});
      SteadySound(Top(), a, Now(), {});
    }

    /** s_add_wtime: accepted exactly for an active job whose limit neither overflows
        nor stops being positive; its sign is kept. */
    method AddWallTime(id: int, add: int) returns (accepted: bool, i: int)
      requires Valid()
      modifies this`active
      ensures Valid() && (old(Ledger()) ==> Ledger()) && Steady(Top(), old(Now()), Now(), {})
      ensures ClocksKept(Prolonged(old(Now()), WallRequest(id, add)), active)
      ensures i == -1 <==> id == 0 || !Known(old(active), id)
      ensures i != -1 ==> 0 <= i < |old(active)| && old(active[i]).id == id
      ensures accepted <==> i != -1 && WallAdded(old(active)[i], add).Some?
      ensures i != -1 ==>
        && (accepted <==> Acceptable(old(active[i]).wall, add))
        && (accepted ==> active == old(active)[i := old(active[i]).(wall := Shifted(old(active[i]).wall, add))])
      ensures active == if accepted then old(active)[i := WallAdded(old(active)[i], add).job] else old(active)
    {
      hide ClocksKept, Prolonged, Sound, OnRoster, InBalance, Steady, LinksFrom, Wired;
      ghost var a := Now();
      SteadyStill(Top(), a);
      KeptStill(active);
      AllDistinct(a);
      accepted, i := false, -1;
      if id == 0 {
        ProlongedWall(a, id, add, i);
        return;
      }
      i := FindJob(id);
      ProlongedWall(a, id, add, i);
      if i == -1 {
        return;
      }
      WallKept(active[i], add);
      match WallAdded(active[i], add)
      case None =>
      case Some(q) =>
        WallSteady(Top(), a, i, q.wall);
        KeptStill(active[i := q]);
        Edit(i, q);
        Closed(Top(), a, Now(), finished, book, jobids, {});
        SteadySound(Top(), a, Now(), {});
        accepted := true;
    }

    /** RECONNECT: a client takes its own queued, running or locked job up again,
        unless it names another process. */
    method Reconnect(id: int, u: nat, pid: int, socket: int) returns (ok: bool, i: int)
      requires Valid()
      modifies this`active
      ensures Valid() && (old(Ledger()) ==> Ledger()) && Steady(Top(), old(Now()), Now(), {})
      ensures ClocksKept(old(active), active)
      ensures i == -1 <==> !Known(old(active), id)
      ensures i != -1 ==> 0 <= i < |old(active)| && old(active[i]).id == id
      ensures ok <==> i != -1 && Reconnects(old(active)[i], u, pid)
      ensures ok <==>
        && i != -1 && old(active)[i].user == u && (old(active)[i].pid == 0 || pid == 0 || old(active)[i].pid == pid)
        && old(active)[i].state in {Queued, Running, Locked}
      ensures active == if ok then old(active)[i := old(active)[i].(client := socket)] else old(active)
    {
      hide Wired, Sound, OnRoster, InBalance, Steady, LinksFrom, ClocksKept;
      ghost var a := Now();
      SteadyStill(Top(), a);
      KeptStill(active);
      i := FindJob(id);
      ok := i >= 0 && Reconnects(active[i], u, pid);
      if ok {
        SoundAt(a, i);
        var y := active[i].(client := socket);
        assert JobOk(y, |users|);
        assert SameLinks(active[i], y) && SameClock(active[i], y);
        hide JobOk;
        EditSteady(Top(), a, i, y);
        LinksReplaced(a.active, i, y);
        KeptReplaced(a.active, i, y);
        Edit(i, y);
        Closed(Top(), a, Now(), finished, book, jobids, {});
        SteadySound(Top(), a, Now(), {});
      }
    }

    /** s_set_max_slots. */
    method SetMaxSlots(n: int)
      requires Valid()
      modifies this`maxSlots
      ensures Valid() && maxSlots == if n > 0 then n else old(maxSlots)
    {
      if n > 0 {
        maxSlots := n;
      }
    }

    // ---------- s_newjob ----------

    /** find_last_jobid_in_queue. */
    method LastInQueue(skip: int) returns (last: int)
      ensures forall k :: 0 <= k < |active| && active[k].id != skip ==> active[k].id <= last
      ensures last == -1 || (last > -1 && last != skip && Known(active, last))
    {
      last := -1;
      for k := 0 to |active|
        invariant last >= -1 && forall q :: 0 <= q < k && active[q].id != skip ==> active[q].id <= last
        invariant last == -1 || (last != skip && Known(active, last))
      {
        if active[k].id != skip && active[k].id > last {
          last := active[k].id;
        }
      }
    }

    /** find_last_stored_jobid_finished. */
    method LastStored() returns (last: int, at: int)
      ensures forall k :: 0 <= k < |finished| ==> finished[k].id <= last
      ensures if at == -1 then last == -1 else last > -1 && 0 <= at < |finished| && finished[at].id == last
    {
      last, at := -1, -1;
      for k := 0 to |finished|
        invariant last >= -1 && forall q :: 0 <= q < k ==> finished[q].id <= last
        invariant if at == -1 then last == -1 else last > -1 && 0 <= at < |finished| && finished[at].id == last
      {
        if finished[k].id > last {
          last, at := finished[k].id, k;
        }
      }
    }

    /** The new job n will be told the error level of job f. */
    method Await(f: nat, n: nat)
      requires f < |active| && n < |active| && f != n && Joining(active, finished, n)
      modifies this`active, this`book
      ensures active == old(active)[f := old(active[f]).(notify := old(active[f]).notify + [old(active[n]).id])]
      ensures Joining(active, finished, n) && book == Awaiting(old(book), old(active[n]).id, old(active[f]).id)
      ensures SameDeps(old(active), active) && active[n].id == old(active[n]).id && active[n].depErr == old(active[n]).depErr
      ensures InBalance(old(active), finished, old(book), old(active[n]).id + 1) ==> InBalance(active, finished, book, active[n].id + 1)
    {
      hide InBalance;
      AwaitJoined(active, finished, f, n, book);
      active := active[f := active[f].(notify := active[f].notify + [active[n].id])];
      book := Awaiting(book, active[n].id, active[f].id);
    }

    /** The new job n inherits e from a dependency that has ended. */
    method Inherit(n: nat, e: int)
      requires n < |active| && Joining(active, finished, n)
      modifies this`active, this`book
      ensures active == old(active)[n := old(active[n]).(depErr := old(active[n]).depErr + e)]
      ensures Joining(active, finished, n) && book == Raised(old(book), old(active[n]).id, e)
      ensures SameDeps(old(active), active) && active[n].id == old(active[n]).id
      ensures InBalance(old(active), finished, old(book), old(active[n]).id + 1) ==> InBalance(active, finished, book, active[n].id + 1)
    {
      hide InBalance;
      InheritJoined(active, finished, n, e, book);
      book := Raised(book, active[n].id, e);
      active := active[n := active[n].(depErr := active[n].depErr + e)];
    }

    /** A dependency named by its id. It is awaited while active; a finished one
        counts at once, and one that is not known counts as a failure. */
    method DependOnId(n: nat, d: int, ghost p: Past)
      requires n < |active| && Joining(active, finished, n) && d < active[n].id && d != -1
      requires JoinedTo(p, active, finished, n) && active[n].id in book.base && active[n].id in book.awaited
      modifies this`active, this`book
      ensures Joining(active, finished, n) && SameDeps(old(active), active)
      ensures active[n].id == old(active[n]).id && active[n].depErr == old(active[n]).depErr + InheritedFrom(p, d)
      ensures book == Depended(old(book), active[n].id, AwaitedFor(p, d), InheritedFrom(p, d))
      ensures InBalance(old(active), finished, old(book), old(active[n]).id + 1) ==> InBalance(active, finished, book, active[n].id + 1)
    {
      hide InBalance, Abs, Depended, SameDeps, Awaiting, Raised;
      DistinctStored(active, finished, n);
      hide Joining;
      ghost var id := active[n].id;
      KnownBefore(p, active, finished, n, d);
      var f := FindJob(d);
      if f >= 0 {
        assert Known(active, d);
        DependedAwaiting(book, id, d);
        Await(f, n);
      } else {
        var g := FindFinished(d);
        assert g >= 0 <==> Known(finished, d);
        if g >= 0 {
          ErrIs(finished, g);
        }
        DependedRaised(book, id, if g >= 0 then Abs(finished[g].err) else 1);
        Inherit(n, if g >= 0 then Abs(finished[g].err) else 1);
      }
    }

    /** The job in the queue with the largest id, or -1 when a later one has
        already ended. */
    method LatestQueued(n: nat, ghost p: Past) returns (f: int)
      requires Joining(active, finished, n) && JoinedTo(p, active, finished, n) && p.lastFinished == lastFinished
      ensures f == -1 <==> !AwaitsLast(p)
      ensures f != -1 ==> 0 <= f < |active| && f != n && active[f].id == LargestId(p.active)
    {
      JoiningBounds(active, finished, n);
      var last := LastInQueue(active[n].id);
      LargestBefore(p, active, finished, n, last);
      f := -1;
      if lastFinished > last {
        last := -1;
      }
      if last != -1 {
        f := FindJob(last);
      }
    }

    /** The newest stored job, and the error level that counts when there is
        nothing to wait for: its own if it is newer than the last that ended. */
    method LatestError() returns (target: int, e: int)
      requires DistinctIds(finished)
      ensures target == LargestId(finished)
      ensures e == if lastFinished < target && target != -1 then Abs(ErrOf(finished, target)) else Abs(lastErr)
    {
      var last, at := LastStored();
      target := last;
      LargestIs(finished, last);
      if at >= 0 {
        ErrIs(finished, at);
      }
      if lastFinished < last && at >= 0 {
        e := Abs(finished[at].err);
      } else {
        e := Abs(lastErr);
      }
    }

    /** A dependency on the last job: the newest in the queue is awaited, unless a
        later one has ended; then its error level counts at once. */
    method DependOnLast(n: nat, ghost p: Past) returns (target: int)
      requires n < |active| && Joining(active, finished, n) && JoinedTo(p, active, finished, n)
      requires p.lastFinished == lastFinished && p.lastErr == lastErr && active[n].id in book.base && active[n].id in book.awaited
      modifies this`active, this`book
      ensures Joining(active, finished, n) && target == TargetOf(p, -1) && target < active[n].id
      ensures SameDeps(old(active), active)
      ensures active[n].id == old(active[n]).id && active[n].depErr == old(active[n]).depErr + InheritedFrom(p, -1)
      ensures book == Depended(old(book), active[n].id, AwaitedFor(p, -1), InheritedFrom(p, -1))
      ensures InBalance(old(active), finished, old(book), old(active[n]).id + 1) ==> InBalance(active, finished, book, active[n].id + 1)
    {
      hide InBalance, Depended, Abs, SameDeps, Awaiting, Raised, LargestId, ErrOf;
      DistinctStored(active, finished, n);
      JoiningBounds(active, finished, n);
      var at := LatestQueued(n, p);
      if at >= 0 {
        target := active[at].id;
        assert target != active[n].id;
        hide Joining;
        DependedAwaiting(book, active[n].id, target);
        Await(at, n);
      } else {
        var d, amount := LatestError();
        target := d;
        StoredBelow(active, finished, n, d);
        hide Joining;
        DependedRaised(book, active[n].id, amount);
        Inherit(n, amount);
      }
    }

    /** One requested dependency: -1 stands for the last job. */
    method DependOne(n: nat, d: int, ghost p: Past)
      requires n < |active| && Joining(active, finished, n) && JoinedTo(p, active, finished, n)
      requires Below(active[n].deps, active[n].id) && d < active[n].id
      requires p.lastFinished == lastFinished && p.lastErr == lastErr && active[n].id in book.base && active[n].id in book.awaited
      modifies this`active, this`book
      ensures Joining(active, finished, n) && SameBody(old(active), active) && Below(active[n].deps, active[n].id)
      ensures InBalance(old(active), finished, old(book), old(active[n]).id + 1) ==> InBalance(active, finished, book, active[n].id + 1)
      ensures forall k :: 0 <= k < |active| && k != n ==> active[k].deps == old(active)[k].deps
      ensures active[n].deps == old(active[n]).deps + [TargetOf(p, d)]
      ensures active[n].depErr == old(active[n]).depErr + InheritedFrom(p, d)
      ensures book == Depended(old(book), active[n].id, AwaitedFor(p, d), InheritedFrom(p, d))
    {
      hide InBalance, Joining, Below, InheritedFrom, AwaitedFor, Depended;
      var target := d;
      if d == -1 {
        target := DependOnLast(n, p);
      } else {
        DependOnId(n, d, p);
      }
      DepAdded(active, finished, n, target, book);
      active := active[n := active[n].(deps := active[n].deps + [target])];
    }

    /** The loop over the requested dependencies. */
    method Depend(n: nat, wanted: seq<int>, ghost p: Past)
      requires n < |active| && Joining(active, finished, n) && JoinedTo(p, active, finished, n)
      requires active[n].deps == [] && active[n].depErr == 0
      requires p.lastFinished == lastFinished && p.lastErr == lastErr && active[n].id in book.base && active[n].id in book.awaited
      modifies this`active, this`book
      ensures Joining(active, finished, n) && SameBody(old(active), active) && Below(active[n].deps, active[n].id)
      ensures InBalance(old(active), finished, old(book), old(active[n]).id + 1) ==> InBalance(active, finished, book, active[n].id + 1)
      ensures forall k :: 0 <= k < |active| && k != n ==> active[k].deps == old(active)[k].deps
      ensures active[n].deps == AllTargets(p, active[n].id, wanted) && active[n].depErr == AllInherited(p, active[n].id, wanted)
      ensures book == Depended(old(book), active[n].id, AllAwaited(p, active[n].id, wanted), AllInherited(p, active[n].id, wanted))
    {
      hide InBalance, Joining, Depended, InheritedFrom, AwaitedFor, TargetOf, AllTargets, AllAwaited, AllInherited, JoinedTo;
      ghost var id := active[n].id;
      DependedNothing(book, id);
      NothingWanted(p, id);
      assert wanted[..0] == [];
      assert Below(active[n].deps, id);
      hide Below;
      for i := 0 to |wanted|
        invariant |active| == |old(active)| && SameBody(old(active), active) && active[n].id == id
        invariant Joining(active, finished, n) && JoinedTo(p, active, finished, n) && Below(active[n].deps, id)
        invariant forall k :: 0 <= k < |active| && k != n ==> active[k].deps == old(active)[k].deps
        invariant InBalance(old(active), finished, old(book), id + 1) ==> InBalance(active, finished, book, id + 1)
        invariant active[n].deps == AllTargets(p, id, wanted[..i]) && active[n].depErr == AllInherited(p, id, wanted[..i])
        invariant book == Depended(old(book), id, AllAwaited(p, id, wanted[..i]), AllInherited(p, id, wanted[..i]))
        invariant id in book.base && id in book.awaited
      {
        OneMoreWanted(p, id, wanted, i);
        if wanted[i] < active[n].id {
          ghost var was := active;
          DependOne(n, wanted[i], p);
          StillJoinedTo(p, was, active, finished, n);
          DependedTwice(old(book), id, AllAwaited(p, id, wanted[..i]), AwaitedFor(p, wanted[i]), AllInherited(p, id, wanted[..i]), InheritedFrom(p, wanted[i]));
          DependedKnown(old(book), id, AllAwaited(p, id, wanted[..i + 1]), AllInherited(p, id, wanted[..i + 1]));
        }
      }
      assert wanted[..|wanted|] == wanted;
    }

    /** Depend as the rest of the server sees it. */
    method Attach(n: nat, wanted: seq<int>, ghost p: Past)
      requires n < |active| && Joining(active, finished, n) && JoinedTo(p, active, finished, n) && Wired()
      requires active[n].deps == [] && active[n].depErr == 0
      requires p.lastFinished == lastFinished && p.lastErr == lastErr && active[n].id in book.base && active[n].id in book.awaited
      modifies this`active, this`book
      ensures Joining(active, finished, n) && SameBody(old(active), active) && Below(active[n].deps, active[n].id) && Wired()
      ensures InBalance(old(active), finished, old(book), old(active[n]).id + 1) ==> InBalance(active, finished, book, active[n].id + 1)
      ensures forall k :: 0 <= k < |active| && k != n ==> active[k].deps == old(active)[k].deps
      ensures active[n].deps == AllTargets(p, active[n].id, wanted) && active[n].depErr == AllInherited(p, active[n].id, wanted)
      ensures book == Depended(old(book), active[n].id, AllAwaited(p, active[n].id, wanted), AllInherited(p, active[n].id, wanted))
    {
      hide CpuBind.Allocator.Valid, Matches, Filed, SameBody, InBalance, Joining, JoinedTo, Below, Depended, AllTargets, AllAwaited, AllInherited;
      Depend(n, wanted, p);
      MatchesBody(old(active), active, cpu.allocs);
      FiledBody(old(active), active, table, orphans, jobids);
    }

    /** The job is the last in memory and in the table. */
    method Push(p: Job)
      requires Wired() && p.id == jobids && p.bound == 0 && 0 < p.id && !Known(active, p.id)
      modifies this`active, this`table, this`jobids
      ensures Wired() && active == old(active) + [p] && jobids == old(jobids) + 1
    {
      hide CpuBind.Allocator.Valid, Matches, Filed;
      MatchesJoined(active, p, cpu.allocs);
      FiledNext(active, table, orphans, jobids);
      var r := QueueOrder.ToBottom(table, p.id);
      FiledJoined(active, p, table, orphans, jobids + 1, r[p.id]);
      active, jobids := active + [p], jobids + 1;
      table := r;
    }

    /** The job gets the next id and joins with its dependencies. */
    method Admit(u: nat, m: NewJob, maxWall: int) returns (id: int)
      requires Valid() && u < |users| && 1 <= m.slots
      modifies this`users, this`active, this`table, this`book, this`jobids
      ensures Valid() && (old(Ledger()) ==> Ledger()) && Steady(Top(), old(Now()), Now(), {})
      ensures id == old(jobids) && jobids == id + 1 && |active| == |old(active)| + 1
      ensures Fresh(active[|active| - 1], id, u, m, maxWall, |active| < maxJobs)
      ensures Newcomer(active[|active| - 1], id, u, m, maxWall, |active| < maxJobs)
      ensures users == Requeued(old(users), u, 1) && SameBody(old(active), active[..|old(active)|])
      ensures forall k :: 0 <= k < |old(active)| ==> active[k].deps == old(active)[k].deps
      ensures Admitted(old(Past(active, finished, lastErr, lastFinished)), old(book), book, active[|active| - 1], m.wanted)
    {
      hide Sound, OnRoster, InBalance, Steady, Joining, Fresh, Newcomer, Wired, AllTargets, AllAwaited, AllInherited, Depended;
      ghost var b, p0 := Now(), Past(active, finished, lastErr, lastFinished);
      PositiveIds(active, finished, jobids);
      id := jobids;
      var n := |active|;
      var p := Blank(id, u, m, maxWall, n + 1 < maxJobs);
      BlankIs(id, u, m, maxWall, n + 1 < maxJobs, |users|);
      JoinBegins(active, finished, id, p, book);
      NewId(active, finished, id);
      hide Blank, JobOk;
      Push(p);
      JoinsTo(p0, active, finished, p);
      hide JoinedTo;
      book := Opened(book, id);
      Attach(n, m.wanted, p0);
      users := users[u := users[u].(queue := users[u].queue + 1)];
      JoinedBody(b.active, p, active);
      hide SameBody;
      JoinEnds(Top(), b, Now(), p, finished, u);
      BlankFresh(active, n, p, id, u, m, maxWall, n + 1 < maxJobs);
      FreshKept(active[n], id, u, m, maxWall, n + 1 < maxJobs);
      OpenedDepended(old(book), id, AllAwaited(p0, id, m.wanted), AllInherited(p0, id, m.wanted));
      SteadySound(Top(), b, Now(), {});
    }

    /** s_newjob after the counters have been brought up to date. */
    method Enqueue(u: nat, m: NewJob, maxWall: int) returns (id: int)
      requires Valid() && u < |users| && 1 <= m.slots
      modifies this`users, this`active, this`table, this`book, this`jobids
      ensures Valid() && (old(Ledger()) ==> Ledger()) && Steady(Top(), old(Now()), Now(), {})
      ensures id == -1 <==> old(users[u].cap) > 0 && m.slots > old(users[u].cap)
      ensures id == -1 ==> Now() == old(Now()) && book == old(book)
      ensures jobids == old(jobids) + 1
      ensures id != -1 ==>
        && id == old(jobids) && |active| == |old(active)| + 1
        && Fresh(active[|active| - 1], id, u, m, maxWall, |active| < maxJobs)
        && Newcomer(active[|active| - 1], id, u, m, maxWall, |active| < maxJobs)
        && users == Requeued(old(users), u, 1) && SameBody(old(active), active[..|old(active)|])
        && (forall k :: 0 <= k < |old(active)| ==> active[k].deps == old(active)[k].deps)
        && Admitted(old(Past(active, finished, lastErr, lastFinished)), old(book), book, active[|active| - 1], m.wanted)
    {
      hide Sound, OnRoster, InBalance, Steady, Fresh, Newcomer, Bound, Filed, SameBody, Admitted;
      PositiveIds(active, finished, jobids);
      if users[u].cap > 0 && m.slots > users[u].cap {
        SteadyStill(Top(), Now());
        NextId(active, finished, book, jobids);
        FiledNext(active, table, orphans, jobids);
        jobids := jobids + 1;
        id := -1;
      } else {
        id := Admit(u, m, maxWall);
      }
    }

    /** s_newjob for a server-assigned id. The id is -1 when the job asks for more
        slots than its user may have. `p` and `mid` are what the new job finds once
        the counters have been brought up to date. */
    method Submit(u: nat, m: NewJob, maxWall: int, env: Env) returns (id: int, ghost ends: seq<Ending>, ghost p: Past, ghost mid: Book)
      requires Valid() && u < |users| && 1 <= m.slots
      modifies this`users, this`active, this`table, this`busySlots, this`finished, this`lastErr, this`lastFinished, this`book, this`lastUid, this`jobids, cpu`allocs, cpu.owner, cpu.groupFree, cpu.nodeFree
      ensures Valid() && (old(Ledger()) ==> Ledger()) && Steady(Top(), old(Now()), Now(), {})
      ensures Ticked(old(active), active, env.now, old(jobids), true)
      ensures Grows(old(book), mid, ends, old(jobids)) && Grows(old(book), book, ends, old(jobids)) && Buried(env, old(active), ends)
      ensures LateServed(old(active), active, env.now)
      ensures (id == -1 || id == old(jobids)) && jobids == old(jobids) + 1
      ensures id == -1 <==> old(users[u]).cap > 0 && m.slots > old(users[u]).cap
      ensures Survive(env, old(active), p.active) && Survive(env, old(active), active)
      ensures id != -1 ==> |active| > 0 && Fresh(active[|active| - 1], id, u, m, maxWall, |active| < maxJobs)
      ensures id != -1 ==> Newcomer(active[|active| - 1], id, u, m, maxWall, |active| < maxJobs)
      ensures id != -1 ==> Admitted(p, mid, book, active[|active| - 1], m.wanted)
    {
      hide Ticked, LateServed, SomeLate, Tallied, Recounted, Exhausted, Sound, OnRoster, InBalance, Steady, Even, NoneDead, Fresh, Newcomer, Survive, SameBody, Wired, Grows, Buried, Admitted;
      ghost var a := Now();
      var usage;
      usage, ends := UpdateSlotsUsage(env);
      ghost var b := Now();
      mid, p := book, Past(active, finished, lastErr, lastFinished);
      id := Enqueue(u, m, maxWall);
      SteadyThen(Top(), a, b, Now());
      TickedStill(b.active, env.now, old(jobids), true);
      GrowsStill(mid, old(jobids));
      if id != -1 {
        TickedJoined(b.active, active, id, u, m, maxWall, |active| < maxJobs, env.now, true);
        SurviveJoin(env, a.active, b.active, active);
        FreshId(active[|active| - 1], id, u, m, maxWall, |active| < maxJobs);
        GrowsAdmitted(p, mid, book, active[|active| - 1], m.wanted);
      }
      RosterBelow(a.active, old(finished), old(jobids));
      LateServedStill(a.active, b.active, active, env.now, old(jobids));
      TickedTwice(a.active, b.active, active, env.now, old(jobids), old(jobids), true);
      GrowsTwice(old(book), mid, book, ends, [], old(jobids), old(jobids));
      assert ends + [] == ends;
    }

    // ---------- starting the server ----------

    /** s_read_sqlite: the jobs that can be taken up again, in their order. */
    method Load(rows: seq<Job>, env: Env)
      requires |users| > 0 && RowsOk(rows, |users|) && active == []
      modifies this`active, this`table, this`users, this`jobids
      ensures active == Loaded(rows, env) && SameCaps(old(users), users) && table == old(table) - GoneIds(rows, env)
      ensures jobids >= old(jobids) && forall k :: 0 <= k < |active| ==> active[k].id < jobids
    {
      hide Restored, Gone, Loaded, GoneIds;
      NothingLoaded(rows, env);
      for k := 0 to |rows|
        invariant active == Loaded(rows[..k], env) && SameCaps(old(users), users)
        invariant table == old(table) - GoneIds(rows[..k], env)
        invariant jobids >= old(jobids) && forall q :: 0 <= q < |active| ==> active[q].id < jobids
      {
        LoadedStep(rows, k, env);
        GoneStep(rows, k, env);
        if Gone(rows[k], env) {
          table := table - {rows[k].id};
        }
        match Restored(rows[k], env)
        case None =>
        case Some(j) =>
          RestoredUser(rows[k], env);
          if j.state.Queued? || j.state.Locked? {
            users := users[j.user := users[j.user].(queue := users[j.user].queue + 1)];
          }
          active := active + [j];
          jobids := if jobids > j.id then jobids else j.id + 1;
      }
      assert rows[..|rows|] == rows;
    }

    /** The jobs of the database taken up, with the counters to match. */
    method Boot(us: seq<User>, rows: seq<Job>, stored: seq<Job>, nextId: int, env: Env)
      requires RootFirst(us) && RowsOk(rows, |us|) && OnRoster([], stored, nextId) && Apart(rows, stored)
      requires Listed(rows, table, nextId)
      requires cpu.Valid() && cpu.allocs == [] && binding == !cpu.disabled && cpus == |CpuTopology.AllCpus(cpu.topo)|
      modifies this`users, this`active, this`table, this`orphans, this`busySlots, this`finished, this`lastErr, this`lastFinished, this`book, this`lastUid, this`jobids
      ensures Valid() && SameCaps(us, users) && active == Loaded(rows, env)
      ensures table == old(table) - GoneIds(rows, env) && orphans == table.Keys - QueueOrder.Members(Ids(active))
      ensures AllTakenUp(rows, active, env)
      ensures forall k :: 0 <= k < |rows| ==>
        (rows[k].id in table <==> !rows[k].state.Running? || (rows[k].pid > 0 && rows[k].pid in env.alive))
      ensures old(Filed(active, table, orphans, jobids)) ==> InOrder(old(active), active)
    {
      hide Sound, Loaded, OnRoster, RowsOk, Apart, CpuBind.Allocator.Valid, Matches, Filed, Listed, Ids, QueueOrder.Members, GoneIds, InOrder, AllTakenUp, CpuTopology.AllCpus, Tallied, Recounted, JobsOk, DistinctIds, SameCaps, Booted;
      Reset(us, stored, nextId);
      Load(rows, env);
      BootRoster(us, users, rows, stored, env, nextId, jobids);
      ghost var vs := users;
      CountAll();
      LoadedKept(rows, env);
      RowsDeleted(rows, env, old(table), nextId);
      if old(Filed(active, table, orphans, jobids)) {
        OrderSurvives(old(active), rows, env, old(table), old(orphans), old(jobids), nextId);
      }
      FiledLoaded(rows, env, old(table), nextId);
      orphans := table.Keys - QueueOrder.Members(Ids(active));
      FiledLater(active, table, orphans, nextId, jobids);
      BootBooks(us, Now());
      SameCapsTwice(us, vs, users);
    }

    /** The globals of a new process. */
    method Reset(us: seq<User>, stored: seq<Job>, nextId: int)
      modifies this`users, this`active, this`busySlots, this`finished, this`lastErr, this`lastFinished, this`book, this`lastUid, this`jobids
      ensures users == us && active == [] && busySlots == 0 && finished == stored && jobids == nextId
      ensures lastUid == 0 && lastErr == 0 && lastFinished == 0 && book == Book(map[], map[], map[])
    {
      users, active, busySlots, finished, jobids := us, [], 0, stored, nextId;
      lastUid, lastErr, lastFinished, book := 0, 0, 0, Book(map[], map[], map[]);
    }

    /** The start of a server on what an earlier one left in the database. The
        counters are counted once before the first update as well: restored jobs
        have nothing recorded as allocated, so that update cannot tell. */
    method Restart(us: seq<User>, rows: seq<Job>, stored: seq<Job>, nextId: int, claims: seq<Claim>, env: Env)
      requires RootFirst(us) && RowsOk(rows, |us|) && OnRoster([], stored, nextId) && Apart(rows, stored)
      requires Listed(rows, table, nextId)
      requires cpu.Valid() && cpu.allocs == [] && binding == !cpu.disabled && cpus == |CpuTopology.AllCpus(cpu.topo)|
      modifies this`users, this`active, this`table, this`orphans, this`busySlots, this`finished, this`lastErr, this`lastFinished, this`book, this`lastUid, this`jobids, cpu`allocs, cpu.owner, cpu.groupFree, cpu.nodeFree
      ensures Valid() && Even(Now()) && SameCaps(us, users) && Survive(env, Loaded(rows, env), active)
      ensures !SomeLate(Loaded(rows, env), env.now) && NoneDead(env, Loaded(rows, env), 0) ==> Rebound(Loaded(rows, env), active, claims)
      ensures Recovered(rows, active, env) && RowsServed(rows, active, env)
      ensures forall k :: 0 <= k < |active| ==> !Lifeless(active[k], env)
      ensures Undisturbed(rows, env) && Separate(claims) && (forall q :: 0 <= q < |claims| ==> Takes(Loaded(rows, env), claims[q]) && Mountable(cpu.topo, claims[q].cpus)) ==>
        forall q :: 0 <= q < |claims| ==> HasTaken(active, claims[q])
      ensures Undisturbed(rows, env) ==> AllTakenUp(rows, Unbound(active), env)
      ensures old(Filed(active, table, orphans, jobids)) ==> InOrder(old(active), Loaded(rows, env))
    {
      hide InOrder, AllTakenUp, Recovered, Undisturbed, Ticked, DistinctIds, Unbound, Takes, HasTaken, Vacant, Mountable, Separate, RowsServed, LateServed, Lifeless, Tallied, Recounted, Exhausted, SomeLate, Filed, Listed, GoneIds, Sound, Steady, Even, NoneDead, OnRoster, RowsOk, Apart, Wired, CpuBind.Allocator.Valid, RootFirst, Loaded, Survive, SameCaps, Rebound, Grows, Buried;
      Boot(us, rows, stored, nextId, env);
      ghost var vs := users;
      AllDistinct(Now());
      var usage, ends := UpdateSlotsUsage(env);
      SameCapsTwice(us, vs, users);
      ghost var mid := active;
      RosterBelow(active, finished, jobids);
      if Undisturbed(rows, env) {
        UndisturbedLoaded(rows, env);
        AllUnclaimed(rows, env);
        Untaken();
        forall q | 0 <= q < |claims| && Mountable(cpu.topo, claims[q].cpus)
          ensures Vacant(cpu.owner[..], cpu.cpuToGroup[..], claims[q].cpus)
        {
          VacantNow(claims[q].cpus);
        }
      }
      RestoreCpus(claims);
      LoadedKept(rows, env);
      RowsServedBy(rows, env, Loaded(rows, env), mid, active, claims);
      RecoveredFrom(rows, env, Loaded(rows, env), mid, active, jobids, claims);
      if Undisturbed(rows, env) {
        UndisturbedLoaded(rows, env);
        AsLeft(rows, env, active, claims);
      }
      SurviveRebound(env, Loaded(rows, env), mid, active, claims);
    }

    /** Without bound jobs the allocator is empty, */
    lemma Untaken()
      requires Wired() && forall k :: 0 <= k < |active| ==> active[k].bound == 0
      ensures cpu.allocs == []
    {
      NoAllocs(active, cpu.allocs);
    }

    /** and every CPU of the machine can be claimed. */
    lemma VacantNow(cpus: seq<nat>)
      requires Wired() && cpu.allocs == [] && Mountable(cpu.topo, cpus)
      ensures Vacant(cpu.owner[..], cpu.cpuToGroup[..], cpus)
    {
      AllVacant(cpu, cpus);
    }

    /** cgroups_restore_all_cpu_bind: running and paused jobs take over the CPUs
        that their cpuset files name. */
    method RestoreCpus(claims: seq<Claim>)
      requires Valid() && Even(Now())
      modifies this`active, cpu`allocs, cpu.owner, cpu.groupFree, cpu.nodeFree
      ensures Valid() && Even(Now()) && Rebound(old(active), active, claims)
      ensures Separate(claims) && (forall q :: 0 <= q < |claims| ==> Takes(old(active), claims[q]) && Vacant(old(cpu.owner[..]), old(cpu.cpuToGroup[..]), claims[q].cpus)) ==>
        forall q :: 0 <= q < |claims| ==> HasTaken(active, claims[q])
    {
      hide Sound, OnRoster, Even, Wired, CpuBind.Allocator.Valid, Rebound, CP.Claimed, DistinctIds, Takes, HasTaken, CpuBind.Allocator.Claimable, Vacant;
      ghost var index := cpu.cpuToGroup[..];
      ghost var good := Separate(claims) && forall q :: 0 <= q < |claims| ==> Takes(active, claims[q]) && Vacant(cpu.owner[..], index, claims[q].cpus);
      ReboundStill(active, claims);
      for k := 0 to |claims|
        invariant Valid() && Even(Now()) && Rebound(old(active), active, claims)
        invariant cpu.cpuToGroup[..] == index
        invariant good ==> forall q :: 0 <= q < k ==> HasTaken(active, claims[q])
        invariant good ==> forall q :: k <= q < |claims| ==> Takes(active, claims[q]) && Vacant(cpu.owner[..], index, claims[q].cpus)
      {
        AllDistinct(Now());
        var i := FindJob(claims[k].id);
        if i >= 0 {
          ghost var s := active;
          ReboundMore(old(active), active, claims, i, k);
          ghost var o := cpu.owner[..];
          VacantIs(cpu, claims[k].cpus);
          var granted := ClaimCpus(i, claims[k]);
          if good {
            TakesAt(s, i, claims[k]);
            TakenNow(s, i, claims[k]);
            forall q | 0 <= q < |claims| && q != k
              ensures q < k ==> HasTaken(active, claims[q])
              ensures k < q ==> Takes(active, claims[q]) && Vacant(cpu.owner[..], index, claims[q].cpus)
            {
              if q < k {
                TakenStill(s, i, |claims[k].cpus|, claims[q]);
              } else {
                TakesStill(s, i, |claims[k].cpus|, claims[q]);
                StillVacant(o, cpu.owner[..], index, claims[k].cpus, claims[q].cpus);
              }
            }
          }
        } else if good {
          TakesAt(active, i, claims[k]);
        }
      }
    }

    /** One cpuset file: cpu_bind_claim, where it can be granted. */
    method ClaimCpus(i: nat, c: Claim) returns (granted: bool)
      requires Valid() && i < |active| && Even(Now())
      modifies this`active, cpu`allocs, cpu.owner, cpu.groupFree, cpu.nodeFree
      ensures Valid() && Even(Now())
      ensures granted <==> CanTake(old(active[i]), |c.cpus|) && old(cpu.Claimable(c.cpus))
      ensures active == if granted then old(active)[i := old(active[i]).(bound := |c.cpus|)] else old(active)
      ensures granted <==>
        && (old(active[i]).state.Running? || old(active[i]).state.Paused?) && old(active[i]).bound == 0
        && 0 < |c.cpus| <= old(active[i]).slots && old(cpu.Claimable(c.cpus))
      ensures !granted ==> cpu.allocs == old(cpu.allocs) && cpu.owner[..] == old(cpu.owner[..])
      ensures cpu.cpuToGroup[..] == old(cpu.cpuToGroup[..])
      ensures |cpu.owner[..]| == |old(cpu.owner[..])| && forall k :: 0 <= k < |cpu.owner[..]| && k !in c.cpus ==> cpu.owner[..][k] == old(cpu.owner[..])[k]
      ensures granted ==>
        && |cpu.allocs| == |old(cpu.allocs)| + 1 && cpu.allocs[..|old(cpu.allocs)|] == old(cpu.allocs)
        && CP.Claimed(cpu.allocs[|old(cpu.allocs)|], old(active[i].id), c.cpus, c.memNodes, c.primaryNode)
    {
      hide Sound, OnRoster, Even, CpuBind.Allocator.Valid, Matches, Filed, CpuTopology.Elements, CS.FreeIn, CP.Claimed, CpuBind.Allocator.Claimable;
      Unaliased(cpu);
      var p := active[i];
      granted := CanTake(p, |c.cpus|) && cpu.Claimable(c.cpus);
      if granted {
        ghost var a, allocs := Now(), cpu.allocs;
        PositiveId(active, allocs, i);
        Unallocated(active, allocs, i);
        CanClaim(cpu, c.cpus);
        var ok := cpu.Claim(p.id, c.cpus, c.memNodes, c.primaryNode);
        OnlyThose(old(cpu.owner[..]), c.cpus, p.id, cpu.owner[..]);
        ClaimedSize(cpu.allocs[|allocs|], p.id, c.cpus, c.memNodes, c.primaryNode);
        active := active[i := p.(bound := |c.cpus|)];
        StillMatches(a.active, active, i, true, allocs, cpu.allocs);
        FiledEdited(a.active, active, table, orphans, jobids);
        ClaimedBooks(a, i, |c.cpus|, finished, jobids);
      }
    }

    /** The counting loop of s_update_slots_usage. */
    method CountAll()
      requires JobsOk(active, |users|)
      modifies this`users, this`busySlots
      ensures SameCaps(old(users), users) && Tallied(users, busySlots, active)
    {
      hide Sum, Tallied, Recounted, Tally, JobOk;
      ghost var us := users;
      var usage := 0;
      ClearCounters();
      NothingTallied(users);
      for k := 0 to |active|
        invariant SameCaps(us, users) && Tallied(users, usage, active[..k])
      {
        OwnerKnown(active[k], |us|);
        TallyStep(users, usage, active, k);
        var p := active[k];
        TallyCaps(us, users, p);
        if p.state.Running? {
          usage := usage + p.slots;
        }
        users := Tally(users, p);
      }
      assert active[..|active|] == active;
      if usage != busySlots {
        busySlots := usage;
      }
    }

    // ---------- whole runs ----------

    /** s_suspend_user_all. */
    method SuspendAll(env: Env) returns (ghost ends: seq<Ending>)
      requires Valid()
      modifies this`users, this`active, this`table, this`busySlots, this`finished, this`lastErr, this`lastFinished, this`book, this`lastUid, cpu`allocs, cpu.owner, cpu.groupFree, cpu.nodeFree
      ensures Valid() && (old(Ledger()) ==> Ledger()) && Steady(Top(), old(Now()), Now(), {})
      ensures Ticked(old(active), active, env.now, jobids, true)
      ensures Grows(old(book), book, ends, jobids)
      ensures if |old(users)| > 1 then Buried(env, old(active), ends) else ends == []
      ensures RootIdle(old(users)) ==> forall u: nat :: 1 <= u < |users| ==> NoneAtWork(active, u)
      ensures |users| == |old(users)| && forall u :: 0 <= u < |users| ==> users[u].cap == if u == 0 then old(users)[0].cap else -Abs(old(users)[u].cap)
    {
      hide Ticked, DistinctIds, NoneAtWork, RootIdle, RunningOf, Abs, Sound, OnRoster, InBalance, Steady, Even, Grows, Buried, NoneDead, Wired, Survive;
      ghost var a := Now();
      SteadyStill(Top(), a);
      GrowsStill(book, jobids);
      TickedStill(active, env.now, jobids, true);
      ends := [];
      var i := 1;
      while i < |users|
        invariant Valid() && Steady(Top(), a, Now(), {}) && i >= 1 && |users| == |a.users| && (i == 1 || i <= |users|)
        invariant (old(Ledger()) ==> Ledger()) && Ticked(a.active, active, env.now, jobids, true)
        invariant Grows(old(book), book, ends, jobids)
        invariant RootIdle(a.users) ==> RootIdle(users) && forall u: nat :: 1 <= u < i && u < |users| ==> NoneAtWork(active, u)
        invariant if i > 1 then Buried(env, a.active, ends) && NoneDead(env, active, 0) else ends == [] && active == a.active
        invariant forall u :: 0 <= u < |users| ==> users[u].cap == if 1 <= u < i then -Abs(a.users[u].cap) else a.users[u].cap
      {
        ghost var b, was := Now(), book;
        var more := Suspend(i, env);
        SteadyThen(Top(), a, b, Now());
        TickedTwice(a.active, b.active, active, env.now, jobids, jobids, true);
        if RootIdle(a.users) {
          RootStays(Top(), a, b, Now());
          AllDistinct(b);
          RosterBelow(active, finished, jobids);
          forall u: nat | 1 <= u < i
            ensures NoneAtWork(active, u)
          {
            CapNegative(a.users[u].cap);
            StillNoWork(Top(), b, Now(), u, env.now, jobids, true);
          }
        }
        GrowsTwice(old(book), was, book, ends, more, jobids, jobids);
        if i > 1 {
          NoneToBury(env, b.active, more);
          assert ends + more == ends;
        } else {
          assert ends + more == more;
        }
        ends := ends + more;
        i := i + 1;
      }
      RootAt(a);
    }

    /** s_resume_user_all. */
    method ResumeAll(env: Env) returns (ghost exempt: set<nat>)
      requires Valid()
      modifies this`users, this`active, this`busySlots, cpu`allocs, cpu.owner, cpu.groupFree, cpu.nodeFree
      ensures Valid() && (old(Ledger()) ==> Ledger())
      ensures Ticked(old(active), active, env.now, jobids, false)
      ensures Steady(Top().(top := Higher(maxSlots, busySlots)), old(Now()), Now(), exempt)
      ensures forall u :: u in exempt ==> u > 0
      ensures ResumedBelow(old(active), active, |users|, env.now)
      ensures |users| == |old(users)| && forall u :: 1 <= u < |users| ==> users[u].cap == Abs(old(users)[u].cap)
    {
      hide Ticked, ResumedBelow, AllGoing, Sound, OnRoster, InBalance, Steady, ResumedUpTo, Wired, Sum;
      ghost var a := Now();
      SteadyStill(Top(), a);
      TickedStill(active, env.now, jobids, false);
      SteadyHigher(Top(), Higher(maxSlots, busySlots), a, a, {});
      exempt := {};
      ResumedNone(active, env.now);
      var i := 1;
      while i < |users|
        invariant Valid() && Steady(Top().(top := Higher(maxSlots, busySlots)), a, Now(), exempt) && i >= 1 && |users| == |a.users|
        invariant (old(Ledger()) ==> Ledger()) && Ticked(a.active, active, env.now, jobids, false)
        invariant forall u :: u in exempt ==> u > 0
        invariant ResumedBelow(a.active, active, i, env.now) && (i == 1 || i <= |users|)
        invariant forall u :: 0 <= u < |users| ==> users[u].cap == if 1 <= u < i then Abs(a.users[u].cap) else a.users[u].cap
      {
        ghost var b, top := Now(), Higher(maxSlots, busySlots);
        FrozenPositive(b, i);
        Resume(i, env);
        SteadyHigher(Top().(top := top), Higher(maxSlots, busySlots), a, b, exempt);
        SteadyTwice(Top().(top := Higher(maxSlots, busySlots)), a, b, Now(), exempt, {i});
        ResumedMore(a.active, b.active, active, i, env.now);
        TickedTwice(a.active, b.active, active, env.now, jobids, jobids, false);
        exempt := exempt + {i};
        i := i + 1;
      }
      ResumedFar(a.active, active, i, |users|, env.now);
    }

    /** ENDJOB. */
    method EndOf(id: int, err: int, skipped: bool)
      requires Valid()
      modifies this`users, this`active, this`table, this`busySlots, this`finished, this`lastErr, this`lastFinished, this`book, cpu`allocs, cpu.owner, cpu.groupFree, cpu.nodeFree
      ensures Valid() && (old(Ledger()) ==> Ledger()) && Steady(Top(), old(Now()), Now(), {})
      ensures ClocksKept(old(active), active)
      ensures !Known(old(active), id) ==> Now() == old(Now()) && book == old(book)
      ensures Known(old(active), id) ==> |finished| > 0 && finished[|finished| - 1].id == id && finished[|finished| - 1].err == err
      ensures !Known(active, id)
      ensures Known(old(active), id) ==> book == Announce(old(book), id, Abs(err))
    {
      hide ClocksKept, Sound, OnRoster, InBalance, Steady, Wired, Announce, Ended, DistinctIds, JobOk, Compacted;
      SteadyStill(Top(), Now());
      KeptStill(active);
      var i := FindJob(id);
      if i >= 0 {
        ghost var a := Now();
        AllDistinct(a);
        SoundAt(a, i);
        OwnerKnown(active[i], |users|);
        Departed(a, i, Abs(err));
        Finish(i, err, skipped);
        KeptEnded(a, i, Abs(err));
      }
    }

    ghost function Snapshot(): Moment
      reads this
    {
      Moment(Now(), finished, book, jobids, maxSlots)
    }

    /** Requests about jobs and clients. */
    method ServeJob(e: Event) returns (ghost ends: seq<Ending>)
      requires Valid() && AboutJobs(e.req)
      modifies this`users, this`active, this`table, this`busySlots, this`finished, this`lastErr, this`lastFinished, this`book, this`lastUid, this`jobids, this`maxSlots, cpu`allocs, cpu.owner, cpu.groupFree, cpu.nodeFree
      ensures Valid() && (old(Ledger()) ==> Ledger()) && Steady(Top(), old(Now()), Now(), {})
      ensures Ticked(Prolonged(old(Now()), e.req), active, e.env.now, old(jobids), Updates(e.req))
      ensures Announces(e, old(Snapshot()), ends) && Grows(old(book), book, ends, old(jobids)) && old(jobids) <= jobids
      ensures maxSlots == old(maxSlots) && Joins(e, old(Snapshot()), Snapshot(), ends)
      ensures Does(e, old(Snapshot()), Snapshot())
    {
      hide Does, ClocksKept, Ticked, Prolonged, Sound, OnRoster, InBalance, Steady, Fresh, Below, Confirmed, WallAdded, JobOk, Wired, Grows, Buried, Announce, Survive, Admitted, Ended;
      SteadyStill(Top(), Now());
      GrowsStill(book, jobids);
      TickedStill(active, e.env.now, jobids, Updates(e.req));
      ends := [];
      if e.req.Submission? {
        NotProlonged(Now(), e.req);
      }
      if e.req.Submission? {
        var u, m, maxWall := e.req.u, e.req.job, e.req.maxWall;
        if u < |users| && 1 <= m.slots {
          var id;
          ghost var p, mid;
          id, ends, p, mid := Submit(u, m, maxWall, e.env);
          if id != -1 {
            FreshId(active[|active| - 1], id, u, m, maxWall, |active| < maxJobs);
          }
        }
        DidSubmit(e, old(Snapshot()), Snapshot());
      } else if e.req.RunReport? {
        AllDistinct(Now());
        var i := -1;
        if e.req.pid > 0 {
          i := RunJobOk(e.req.id, e.req.pid, e.env);
        } else {
          NoProcess(Now(), e.req.id, e.req.pid);
        }
        DidReport(e, old(Snapshot()), Snapshot(), i);
      } else {
        ends := ServeClient(e);
        KeptTicks(Prolonged(old(Now()), e.req), active, e.env.now, old(jobids), Updates(e.req));
      }
    }

    /** Those of them that touch no clock. */
    method ServeClient(e: Event) returns (ghost ends: seq<Ending>)
      requires Valid() && AboutJobs(e.req) && !e.req.Submission? && !e.req.RunReport?
      modifies this`users, this`active, this`table, this`busySlots, this`finished, this`lastErr, this`lastFinished, this`book, this`lastUid, cpu`allocs, cpu.owner, cpu.groupFree, cpu.nodeFree
      ensures Valid() && (old(Ledger()) ==> Ledger()) && Steady(Top(), old(Now()), Now(), {})
      ensures ClocksKept(Prolonged(old(Now()), e.req), active)
      ensures Announces(e, old(Snapshot()), ends) && Grows(old(book), book, ends, jobids)
      ensures Does(e, old(Snapshot()), Snapshot())
    {
      hide Does, ClocksKept, DistinctIds, Acceptable, Shifted, Prolonged, Sound, OnRoster, InBalance, Steady, WallAdded, JobOk, Wired, Grows, Announce, Ended;
      SteadyStill(Top(), Now());
      GrowsStill(book, jobids);
      KeptStill(active);
      AllDistinct(Now());
      ghost var was := Snapshot();
      ends := [];
      if !e.req.WallRequest? {
        NotProlonged(Now(), e.req);
      }
      match e.req
      case EndReport(id, err, skipped) =>
        GrowsOne(book, id, Abs(err), jobids);
        EndOf(id, err, skipped);
        ends := if Known(old(active), id) then [Ending(id, Abs(err))] else [];
        DidEnd(e, was, Snapshot());
      case ClientGone(id) =>
        GrowsOne(book, id, 1, jobids);
        ghost var s := active;
        var i := Disconnect(id);
        StartedAt(s, i, id);
        ends := if HasStarted(s, id) then [Ending(id, 1)] else [];
        DidGo(e, was, Snapshot());
      case ClientBack(id, u, pid, socket) =>
        var ok, i := Reconnect(id, u, pid, socket);
        DidReconnect(e, was, Snapshot(), ok, i);
      case Removal(id, u) =>
        if u < |users| {
          ghost var s, f, entries := active, finished, book;
          var ok, i, k := Remove(id, u);
          if ok {
            ghost var d := if i >= 0 then s[i].id else f[k].id;
            GrowsOne(entries, d, 1, jobids);
            ends := [Ending(d, 1)];
          }
          DidRemove(e, was, Snapshot(), ok, i, k);
        } else {
          DidNothing(e, was, Snapshot());
        }
      case UrgentRequest(id) =>
        var i := Urgent(id);
        DidUrgent(e, was, Snapshot(), i);
      case SwapRequest(id1, id2) =>
        var i, j := Swap(id1, id2);
        DidSwap(e, was, Snapshot(), i, j);
      case WallRequest(id, add) =>
        var ok, i := AddWallTime(id, add);
        DidAdd(e, was, Snapshot(), ok, i);
      case OrphanTick =>
        CleanupOrphans();
        DidCleanup(e, was, Snapshot());
    }

    /** Requests about holding, limits and the clock. */
    method ServeUser(e: Event) returns (ghost exempt: set<nat>, ghost ends: seq<Ending>)
      requires Valid() && !AboutJobs(e.req)
      modifies this`users, this`active, this`table, this`busySlots, this`finished, this`lastErr, this`lastFinished, this`book, this`lastUid, this`jobids, this`maxSlots, cpu`allocs, cpu.owner, cpu.groupFree, cpu.nodeFree
      ensures Valid() && (old(Ledger()) ==> Ledger())
      ensures Ticked(Prolonged(old(Now()), e.req), active, e.env.now, old(jobids), Updates(e.req))
      ensures Steady(Top().(top := Higher(maxSlots, busySlots)), old(Now()), Now(), exempt)
      ensures forall u :: u in exempt ==> Resumes(e.req, u)
      ensures Announces(e, old(Snapshot()), ends) && Grows(old(book), book, ends, old(jobids)) && jobids == old(jobids)
      ensures Does(e, old(Snapshot()), Snapshot())
    {
      hide Does, Ticked, AllGoing, ResumedBelow, Prolonged, Sound, OnRoster, InBalance, Steady, HeldBack, Continued, Demoted, Even, NoneDead, Tallied, Recounted, ResumedUpTo, ExaminedUpTo, Passed, Exhausted, Wired;
      hide Grows, Buried, Survive, Sum, SameCaps;
      SteadyStill(Top(), Now());
      GrowsStill(book, jobids);
      TickedStill(active, e.env.now, jobids, Updates(e.req));
      ghost var a := Now();
      exempt, ends := {}, [];
      if e.req.ResumeUsers? || e.req.ResumeUser? {
        NotProlonged(a, e.req);
      }
      if e.req.ResumeUsers? {
        exempt := ResumeAll(e.env);
        DidResumeAll(e, old(Snapshot()), Snapshot());
      } else if e.req.ResumeUser? && e.req.u < |users| {
        Resume(e.req.u, e.env);
        exempt := {e.req.u};
        DidResume(e, old(Snapshot()), Snapshot());
      } else {
        if !e.req.ResumeUser? {
          ends := ServeRest(e);
        } else {
          DidResume(e, old(Snapshot()), Snapshot());
        }
        SteadyHigher(Top(), Higher(maxSlots, busySlots), a, Now(), {});
      }
    }

    /** All of them but resuming. */
    method ServeRest(e: Event) returns (ghost ends: seq<Ending>)
      requires Valid() && !AboutJobs(e.req) && !e.req.ResumeUser? && !e.req.ResumeUsers?
      modifies this`users, this`active, this`table, this`busySlots, this`finished, this`lastErr, this`lastFinished, this`book, this`lastUid, this`jobids, this`maxSlots, cpu`allocs, cpu.owner, cpu.groupFree, cpu.nodeFree
      ensures Valid() && (old(Ledger()) ==> Ledger()) && Steady(Top(), old(Now()), Now(), {})
      ensures Ticked(Prolonged(old(Now()), e.req), active, e.env.now, old(jobids), Updates(e.req))
      ensures Announces(e, old(Snapshot()), ends) && Grows(old(book), book, ends, old(jobids)) && jobids == old(jobids)
      ensures Does(e, old(Snapshot()), Snapshot())
    {
      hide Does, Ticked, DistinctIds, HoldDone, ContDone, PutOff, NoneAtWork, LateServed, SomeLate, RootIdle, Abs, Lifeless, Prolonged, Sound, OnRoster, InBalance, Steady, HeldBack, Continued, Demoted, Even, NoneDead, Tallied, Recounted, ExaminedUpTo, Passed, Exhausted, Wired;
      hide Grows, Buried, Survive, Sum, SameCaps;
      SteadyStill(Top(), Now());
      GrowsStill(book, jobids);
      TickedStill(active, e.env.now, jobids, Updates(e.req));
      if !e.req.RequeueRequest? {
        NotProlonged(Now(), e.req);
      }
      ends := [];
      ghost var was := Snapshot();
      AllDistinct(Now());
      if e.req.RefreshUsers? || e.req.SlotLimit? || e.req.HealthTick? || e.req.Update? || e.req.Pass? {
        ends := ServeTick(e);
        return;
      }
      match e.req
      case HoldRequest(id, u) =>
        if u < |users| {
          var i := Hold(id, u, e.env);
          DidHold(e, was, Snapshot(), i);
        } else {
          DidNothing(e, was, Snapshot());
        }
      case ContRequest(id, u) =>
        if u < |users| {
          var i;
          ghost var mid;
          i, mid, ends := Cont(id, u, e.env);
          MidFacts(Top(), was.books, mid);
          DidCont(e, was, Snapshot(), i, mid);
        } else {
          DidNothing(e, was, Snapshot());
        }
      case RequeueRequest(id, u) =>
        if u < |users| {
          var i := Requeue(id, u, e.env);
          DidRequeue(e, was, Snapshot(), i);
        } else {
          DidNothing(e, was, Snapshot());
          NotRequeuedBy(Now(), id, u);
        }
      case SuspendUser(u) =>
        if u < |users| {
          ends := Suspend(u, e.env);
        }
        DidSuspend(e, was, Snapshot());
      case SuspendUsers =>
        ends := SuspendAll(e.env);
        DidSuspendAll(e, was, Snapshot());
    }

    /** Those that name no job and no user. */
    method ServeTick(e: Event) returns (ghost ends: seq<Ending>)
      requires Valid() && (e.req.RefreshUsers? || e.req.SlotLimit? || e.req.HealthTick? || e.req.Update? || e.req.Pass?)
      modifies this`users, this`active, this`table, this`busySlots, this`finished, this`lastErr, this`lastFinished, this`book, this`lastUid, this`jobids, this`maxSlots, cpu`allocs, cpu.owner, cpu.groupFree, cpu.nodeFree
      ensures Valid() && (old(Ledger()) ==> Ledger()) && Steady(Top(), old(Now()), Now(), {})
      ensures Ticked(Prolonged(old(Now()), e.req), active, e.env.now, old(jobids), Updates(e.req))
      ensures Announces(e, old(Snapshot()), ends) && Grows(old(book), book, ends, old(jobids)) && jobids == old(jobids)
      ensures Does(e, old(Snapshot()), Snapshot())
    {
      hide Does, Ticked, Prolonged, Sound, OnRoster, InBalance, Steady, Even, NoneDead, Tallied, Recounted, ExaminedUpTo, Passed, Exhausted, Wired;
      hide Grows, Buried, Survive, Sum, SameCaps, LateServed, SomeLate, AllExamined, TimelyStarts, FileRead, NoNewLimits, LimitRead, Laps, Lifeless;
      GrowsStill(book, jobids);
      TickedStill(active, e.env.now, jobids, Updates(e.req));
      NotProlonged(Now(), e.req);
      ghost var was := Snapshot();
      SteadyStill(Top(), Now());
      ends := [];
      match e.req
      case RefreshUsers(lines) =>
        var ok;
        ok, ends := Refresh(lines, e.env);
        DidRefresh(e, was, Snapshot());
      case SlotLimit(n) =>
        SetMaxSlots(n);
        DidLimit(e, was, Snapshot());
        SteadyStill(Top(), Now());
      case HealthTick =>
        CheckHealth(e.env);
        DidCheck(e, was, Snapshot());
      case Update =>
        var usage;
        usage, ends := UpdateSlotsUsage(e.env);
        DidUpdate(e, was, Snapshot());
      case Pass =>
        ghost var a := Now();
        var n, path, _ := NextRunJob(e.env);
        PassedSteady(Calls(e.env), path, a, Now());
        DidPass(e, was, Snapshot(), Calls(e.env));
    }

    /** One request. */
    method Serve(e: Event) returns (ghost exempt: set<nat>, ghost ends: seq<Ending>)
      requires Valid()
      modifies this`users, this`active, this`table, this`busySlots, this`finished, this`lastErr, this`lastFinished, this`book, this`lastUid, this`jobids, this`maxSlots, cpu`allocs, cpu.owner, cpu.groupFree, cpu.nodeFree
      ensures Valid() && (old(Ledger()) ==> Ledger())
      ensures Steady(Top().(top := Higher(maxSlots, busySlots)), old(Now()), Now(), exempt)
      ensures forall u :: u in exempt ==> Resumes(e.req, u)
      ensures Answers(Top(), e, old(Snapshot()), Snapshot(), ends) && Does(e, old(Snapshot()), Snapshot())
    {
      hide Does, Ticked, Prolonged, Joins, QuietFor, DistinctIds, Sound, OnRoster, InBalance, Steady, Grows, Wired, Announces, FullyBound;
      ghost var a := Now();
      if AboutJobs(e.req) {
        exempt := {};
        ends := ServeJob(e);
        SteadyHigher(Top(), Higher(maxSlots, busySlots), a, Now(), {});
      } else {
        exempt, ends := ServeUser(e);
        NoneJoins(e, old(Snapshot()), Snapshot(), ends);
      }
      AllDistinct(Now());
      RosterBelow(active, finished, jobids);
      SteadyQuiet(Top().(top := Higher(maxSlots, busySlots)), a, Now(), exempt, e.req);
      SteadyBound(Top(), Higher(maxSlots, busySlots), a, Now(), exempt);
    }

    /** Any sequence of requests. The counters never fall below what they count and
        stay exact; no job of a user without slots starts before the user is
        resumed; every running job has all its CPUs as long as busy_slots stays
        within the topology; and the error level that a job inherits grows by
        exactly what the dependencies it awaits announced. `history` holds the
        moments between the requests, `ends` what was announced in each. */
    method Run(events: seq<Event>) returns (ghost exempt: set<nat>, ghost history: seq<Moment>, ghost ends: seq<seq<Ending>>)
      requires Valid()
      modifies this`users, this`active, this`table, this`busySlots, this`finished, this`lastErr, this`lastFinished, this`book, this`lastUid, this`jobids, this`maxSlots, cpu`allocs, cpu.owner, cpu.groupFree, cpu.nodeFree
      ensures Valid() && (old(Ledger()) ==> Ledger())
      ensures ReadsBack(active, table, orphans) && orphans == old(orphans)
      ensures forall u :: u in exempt ==> SomeResumes(events, u)
      ensures Sum(active, AllSlots) <= busySlots
      ensures forall u: nat :: u < |users| ==> Sum(active, Slots(u)) <= users[u].busy && Sum(active, Waits(u)) <= users[u].queue
      ensures forall i :: 0 <= i < |active| && !active[i].state.Running? ==> active[i].held == 0
      ensures old(Exact(Now())) ==> Exact(Now()) && Sum(active, Cpus) <= Sum(active, AllSlots)
      ensures old(RootIdle(users)) ==>
        forall u: nat :: u < |old(users)| && old(users)[u].cap <= 0 && !SomeResumes(events, u) ==>
          RunningOf(active, u) <= RunningOf(old(active), u)
      ensures Told(Top(), events, history, ends) && history[0] == old(Snapshot()) && history[|events|] == Snapshot()
      ensures old(FullyBound(Top(), Now())) && WithinCpus(cpus, history) ==> FullyBound(Top(), Now())
      ensures forall k :: 0 <= k < |events| ==> Does(events[k], history[k], history[k + 1])
      ensures LimitsAddUp(events, history)
      ensures old(RootIdle(users)) ==> QuietThroughout(events, history)
      ensures old(Ledger()) ==> LevelsAddUp(events, history, ends)
      ensures old(AllInStep(active)) && ClockShown(events) ==> ClocksAddUp(events, history) && DaysEarned(events, history)
      ensures old(Ledger()) ==>
        forall i, k :: 0 <= i < |old(active)| && 0 <= k < |active| && active[k].id == old(active)[i].id ==>
          && active[k].id in old(book).awaited
          && active[k].depErr - old(active)[i].depErr == OwedAll(old(book).awaited[active[k].id], Flat(ends))
    {
      hide Does, Sound, OnRoster, InBalance, Steady, Sum, Exact, RunningOf, Wired, Answers, FullyBound, ReadsBack, ClocksAddUp, DaysEarned, LimitsAddUp, QuietThroughout, LevelsAddUp, AllInStep, DistinctIds;
      ghost var a, lim := Now(), Top().(top := cpus + 1);
      SteadyStill(lim, a);
      exempt, history, ends := {}, [Snapshot()], [];
      for k := 0 to |events|
        invariant Valid() && Steady(lim, a, Now(), exempt) && lim == Top().(top := cpus + 1)
        invariant old(Ledger()) ==> Ledger()
        invariant forall u :: u in exempt ==> SomeResumes(events, u)
        invariant |history| == k + 1 && |ends| == k && history[0] == old(Snapshot()) && history[k] == Snapshot()
        invariant forall q :: 0 <= q < k ==> Does(events[q], history[q], history[q + 1])
        invariant forall q :: 0 <= q < k ==> Answers(lim, events[q], history[q], history[q + 1], ends[q])
      {
        ghost var b, was := Now(), Snapshot();
        var more, said := Serve(events[k]);
        SteadyUnlimited(Top().(top := Higher(maxSlots, busySlots)), b, Now(), more);
        SteadyTwice(lim, a, b, Now(), exempt, more);
        AnswersTop(Top(), lim.top, events[k], was, Snapshot(), said);
        forall u | u in more
          ensures SomeResumes(events, u)
        {
          assert Resumes(events[k].req, u);
        }
        exempt, history, ends := exempt + more, history + [Snapshot()], ends + [said];
      }
      NeverTooLow(Now());
      WiredReadsBack();
      BoundWithin(Now());
      HeldQuiet(lim, a, Now(), exempt, events);
      AllDistinct(a);
      RosterBelow(a.active, old(finished), old(jobids));
      HistoryClocks(lim, events, history, ends);
      HistoryLimits(lim, events, history, ends);
      HistoryDays(lim, events, history, ends);
      if RootIdle(a.users) {
        HistoryQuietAll(lim, events, history, ends);
      }
      HistoryBound(lim, events, history, ends);
      BoundAnyTop(Top(), lim.top, Now());
      BoundAnyTop(old(Top()), lim.top, a);
      if InBalance(a.active, old(finished), old(book), old(jobids)) {
        HistoryInherits(lim, events, history, ends);
        HistoryLevels(lim, events, history, ends);
      }
      ToldAnyTop(Top(), lim.top, events, history, ends);
    }

    lemma WiredReadsBack()
      requires Wired()
      ensures ReadsBack(active, table, orphans)
    {
      TableIsQueue(active, table, orphans, jobids);
    }

    // ---------- s_refresh_users ----------

    /** find_user_by_uid. */
    method FindUser(uid: int) returns (u: int)
      ensures u == -1 || (0 <= u < |users| && users[u].uid == uid)
      ensures u == -1 ==> forall k :: 0 <= k < |users| ==> users[k].uid != uid
    {
      for k := 0 to |users|
        invariant forall q :: 0 <= q < k ==> users[q].uid != uid
      {
        if users[k].uid == uid {
          return k;
        }
      }
      return -1;
    }

    /** read_user_file, with the names already resolved to user ids. */
    method ReadUserFile(lines: seq<Line>)
      requires RootFirst(users)
      modifies this`users, this`maxSlots
      ensures Reread(old(users), users) && FileRead(lines, old(users), users) && maxSlots == LimitRead(lines, old(maxSlots))
    {
      hide FileRead, LimitRead;
      NothingRead(users, maxSlots);
      assert lines[..0] == [];
      for k := 0 to |lines|
        invariant Reread(old(users), users)
        invariant FileRead(lines[..k], old(users), users) && maxSlots == LimitRead(lines[..k], old(maxSlots))
      {
        ghost var vs, m := users, maxSlots;
        match lines[k]
        case SlotsLine(n) =>
          if n > 0 {
            maxSlots := n;
          }
          ReadSlots(lines, k, old(users), vs, old(maxSlots), m);
        case UserLine(uid, slots) =>
          var u := FindUser(uid);
          if u >= 0 {
            users := users[u := users[u].(cap := slots)];
          } else if |users| < 100 {
            users := users + [User(uid, slots, 0, 0, 0, false)];
          }
          assert LineRead(lines[k], vs, users);
          ReadUser(lines, k, old(users), vs, users, old(maxSlots));
      }
      assert lines[..|lines|] == lines;
    }

    /** Whether every earlier user is still there with the same limit. */
    method SameLimits(was: seq<User>) returns (ok: bool)
      requires Reread(was, users)
      ensures ok <==> forall u :: 0 <= u < |was| ==> users[u].cap == was[u].cap
    {
      for k := 0 to |was|
        invariant forall u :: 0 <= u < k ==> users[u].cap == was[u].cap
      {
        var u := FindUser(was[k].uid);
        assert users[k].uid == was[k].uid && u == k;
        if users[u].cap != was[k].cap {
          return false;
        }
      }
      return true;
    }

    /** The rollback: later users are dropped, earlier limits restored. */
    method RestoreUsers(was: seq<User>)
      requires Reread(was, users)
      modifies this`users
      ensures users == was
    {
      while |users| > |was|
        invariant |users| >= |was| && forall u :: 0 <= u < |was| ==> users[u] == was[u].(cap := users[u].cap)
      {
        users := users[..|users| - 1];
      }
      for k := 0 to |was|
        invariant |users| == |was| && users[..k] == was[..k]
        invariant forall u :: 0 <= u < |was| ==> users[u] == was[u].(cap := users[u].cap)
      {
        users := users[k := users[k].(cap := was[k].cap)];
        assert users[..k + 1] == was[..k] + [was[k]];
      }
      assert users[..|was|] == was[..|was|];
    }

    /** s_refresh_users: users can be added, but no one's limit can change. */
    method Refresh(lines: seq<Line>, env: Env) returns (ok: bool, ghost ends: seq<Ending>)
      requires Valid()
      modifies this`users, this`active, this`table, this`busySlots, this`finished, this`lastErr, this`lastFinished, this`book, this`lastUid, this`maxSlots, cpu`allocs, cpu.owner, cpu.groupFree, cpu.nodeFree
      ensures Valid() && (old(Ledger()) ==> Ledger()) && Steady(Top(), old(Now()), Now(), {})
      ensures Ticked(old(active), active, env.now, jobids, true)
      ensures Grows(old(book), book, ends, jobids) && (if ok then Buried(env, old(active), ends) else ends == [])
      ensures (ok <==> NoNewLimits(lines, old(users))) && maxSlots == LimitRead(lines, old(maxSlots))
      ensures !ok ==> Now() == old(Now())
      ensures ok ==> exists vs :: FileRead(lines, old(users), vs) && SameCaps(vs, users)
      ensures ok ==> LateServed(old(active), active, env.now)
      ensures ok ==> Even(Now()) && Survive(env, old(active), active)
      ensures ok ==> |old(users)| <= |users| && SameCaps(old(users), users[..|old(users)|])
    {
      hide Ticked, LateServed, SomeLate, Tallied, Recounted, Exhausted, Sound, OnRoster, InBalance, Steady, Even, NoneDead, Reread, FileRead, NoNewLimits, LimitRead, Survive, SameCaps, Wired, Grows, Buried;
      ghost var a := Now();
      var was := users;
      GrowsStill(book, jobids);
      TickedStill(active, env.now, jobids, true);
      ends := [];
      assert RootFirst(users) by { RootKnown(a); }
      ReadUserFile(lines);
      RefreshTest(lines, was, users);
      ok := SameLimits(was);
      if !ok {
        RestoreUsers(was);
        SteadyStill(Top(), a);
      } else {
        ghost var b := Now();
        GrownSteady(Top(), a, b);
        SteadySound(Top(), a, b, {});
        RereadLonger(was, users);
        var usage;
        usage, ends := UpdateSlotsUsage(env);
        PrefixCaps(was, b.users, users);
        SteadyThen(Top(), a, b, Now());
      }
    }
  }
}
