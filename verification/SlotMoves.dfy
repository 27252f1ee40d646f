/** The moves that free_cores, config_running and next_run_job make on the
    counters and on one job. */
module SlotMoves {
  import opened JobRecord
  import opened SlotBooks

  /** free_cores: gives back what the job has recorded as allocated. */
  function Refund(users: seq<User>, j: Job): seq<User>
    requires j.user < |users|
  {
    if j.held == 0 then users
    else users[j.user := users[j.user].(busy := users[j.user].busy - j.slots, jobs := users[j.user].jobs - 1)]
  }

  function RefundSlots(busySlots: int, j: Job): int {
    if j.held == 0 then busySlots else busySlots - j.slots
  }

  /** The counting part of config_running. */
  function Charge(users: seq<User>, j: Job): seq<User>
    requires j.user < |users|
  {
    users[j.user := users[j.user].(busy := users[j.user].busy + j.slots, jobs := users[j.user].jobs + 1)]
  }

  function Dequeue(users: seq<User>, u: nat): seq<User>
    requires u < |users|
  {
    users[u := users[u].(queue := users[u].queue - 1)]
  }

  /** CPUs bound to a running job: all it asks for when that many are free. */
  function BoundTo(active: seq<Job>, cpus: nat, binding: bool, y: Job): nat {
    if binding && !y.noBinding && y.held > 0 && Sum(active, Cpus) + y.held <= cpus then y.held else 0
  }

  /** Job i starts: counters, state and, when it has a process, its CPUs. */
  function Start(b: Books, i: nat, now: int, cpus: nat, binding: bool): Books
    requires i < |b.active| && b.active[i].user < |b.users|
  {
    var x := b.active[i];
    var y := Started(x, now);
    var z := if y.pid != 0 && y.bound == 0 then y.(bound := BoundTo(b.active, cpus, binding, y)) else y;
    Books(Charge(b.users, x), b.active[i := z], b.busySlots + x.slots)
  }

  /** Job i gives its slots back and becomes `y`. */
  function Stop(b: Books, i: nat, y: Job): Books
    requires i < |b.active| && b.active[i].user < |b.users|
  {
    Books(Refund(b.users, b.active[i]), b.active[i := y], RefundSlots(b.busySlots, b.active[i]))
  }

  /** Job i gives its slots back and leaves. */
  function Quit(b: Books, i: nat): Books
    requires i < |b.active| && b.active[i].user < |b.users|
  {
    Books(Refund(b.users, b.active[i]), b.active[..i] + b.active[i + 1..], RefundSlots(b.busySlots, b.active[i]))
  }

  lemma RefundPays(b: Books, i: nat, y: Job)
    requires i < |b.active| && JobOk(b.active[i], |b.users|) && !b.active[i].state.Queued? && !b.active[i].state.Holding?
    requires y.user == b.active[i].user && !y.state.Running? && !y.state.Queued? && !y.state.Holding?
    ensures var c := Stop(b, i, y);
      && SameCaps(b.users, c.users) && Pays(b, c, b.active[i], y)
      && (Tidy(b.active[i]) && Tidy(y) ==> PaysExactly(b, c, b.active[i], y))
  {
  }

  lemma RefundLowers(b: Books, i: nat, y: Job)
    requires i < |b.active| && JobOk(b.active[i], |b.users|)
    ensures Stop(b, i, y).busySlots <= b.busySlots && Quit(b, i).busySlots <= b.busySlots
  {
  }

  /** A job that is running, paused or abnormal stops running. */
  lemma StopSteady(lim: Limits, b: Books, i: nat, y: Job)
    requires Sound(b) && i < |b.active| && JobOk(b.active[i], |b.users|)
    requires !b.active[i].state.Queued? && !b.active[i].state.Holding?
    requires y.id == b.active[i].id && y.user == b.active[i].user && JobOk(y, |b.users|)
    requires !y.state.Running? && !y.state.Queued? && !y.state.Holding? && (Tidy(b.active[i]) ==> Tidy(y))
    ensures Steady(lim, b, Stop(b, i, y), {})
  {
    RefundPays(b, i, y);
    RefundLowers(b, i, y);
    hide JobOk, Sound, Pays, PaysExactly, SameCaps;
    Replaced(lim, b, Stop(b, i, y), i, y, {});
  }

  lemma QuitSteady(lim: Limits, b: Books, i: nat)
    requires Sound(b) && i < |b.active| && JobOk(b.active[i], |b.users|)
    ensures Steady(lim, b, Quit(b, i), {})
  {
    var c := Quit(b, i);
    RefundLowers(b, i, b.active[i]);
    assert SameCaps(b.users, c.users) && Settles(b, c, b.active[i]);
    if Exact(b) {
      assert b.active[i].state.Running? ==> b.active[i].held == b.active[i].slots;
      assert SettlesExactly(b, c, b.active[i]);
    }
    hide JobOk, Sound, Settles, SettlesExactly, SameCaps, Exact;
    Left(lim, b, c, i);
  }

  /** A job that keeps no slots is dropped without a word to the counters. */
  lemma DropSteady(lim: Limits, b: Books, i: nat)
    requires Sound(b) && i < |b.active| && !b.active[i].state.Running?
    ensures Steady(lim, b, b.(active := b.active[..i] + b.active[i + 1..]), {})
  {
    var c := b.(active := b.active[..i] + b.active[i + 1..]);
    assert SameCaps(b.users, c.users) && Settles(b, c, b.active[i]) && SettlesExactly(b, c, b.active[i]);
    hide JobOk, Sound, Settles, SettlesExactly, SameCaps;
    Left(lim, b, c, i);
  }

  lemma StartedOk(b: Books, i: nat, now: int, cpus: nat, binding: bool)
    requires i < |b.active| && JobOk(b.active[i], |b.users|) && !b.active[i].state.Running?
    ensures JobOk(Start(b, i, now, cpus, binding).active[i], |b.users|)
  {
  }

  // ---------- binding CPUs ----------

  lemma {:induction false} CpusWithinSlots(s: seq<Job>, n: nat)
    requires JobsOk(s, n) && forall k :: 0 <= k < |s| ==> Tidy(s[k])
    ensures 0 <= Sum(s, Cpus) <= Sum(s, AllSlots)
  {
    if s != [] {
      assert JobOk(s[|s| - 1], n) && Tidy(s[|s| - 1]);
      CpusWithinSlots(s[..|s| - 1], n);
    }
  }

  /** While only running jobs hold CPUs, those are never more than their slots, so
      a running job without CPUs finds as many as it has slots when busy_slots is
      within the topology. */
  lemma RoomForRunning(b: Books, i: nat, cpus: nat)
    requires Sound(b) && AllTidy(b.active)
    requires i < |b.active| && b.active[i].state.Running? && b.active[i].bound == 0 && b.busySlots <= cpus
    ensures Sum(b.active, Cpus) + b.active[i].slots <= cpus
  {
    SumSplit(b.active, i, Cpus);
    SumSplit(b.active, i, AllSlots);
    CpusWithinSlots(b.active[..i], |b.users|);
    CpusWithinSlots(b.active[i + 1..], |b.users|);
    hide Sum;
    assert Sum(b.active, AllSlots) <= Reading(b.users, b.busySlots, AllSlots);
  }

  /** The same for a job about to run again. */
  lemma RoomForStarting(b: Books, i: nat, now: int, cpus: nat, binding: bool)
    requires Sound(b) && AllTidy(b.active)
    requires i < |b.active| && JobOk(b.active[i], |b.users|) && !b.active[i].state.Running?
    requires b.busySlots + b.active[i].slots <= cpus && binding && !b.active[i].noBinding && b.active[i].pid != 0
    ensures Start(b, i, now, cpus, binding).active[i].bound == b.active[i].slots
  {
    CpusWithinSlots(b.active, |b.users|);
    hide Sum;
    assert Sum(b.active, AllSlots) <= Reading(b.users, b.busySlots, AllSlots);
  }

  lemma StartServed(b: Books, i: nat, now: int, cpus: nat)
    requires Sound(b) && AllTidy(b.active)
    requires i < |b.active| && JobOk(b.active[i], |b.users|) && !b.active[i].state.Running?
    requires b.busySlots + b.active[i].slots <= cpus
    ensures var c := Start(b, i, now, cpus, true); Tidy(c.active[i]) && Served(c.active[i]) && c.busySlots <= cpus
  {
    if b.active[i].pid != 0 && !b.active[i].noBinding {
      RoomForStarting(b, i, now, cpus, true);
    }
    hide Sum, Sound;
  }

  lemma ChargePays(b: Books, c: Books, x: Job, z: Job)
    requires JobOk(x, |b.users|) && !x.state.Running?
    requires z.user == x.user && z.slots == x.slots && z.state.Running? && z.held == z.slots
    requires c.users == Charge(b.users, x) && c.busySlots == b.busySlots + x.slots
    ensures SameCaps(b.users, c.users) && Pays(b, c, x, z) && PaysExactly(b, c, x, z)
  {
  }

  /** config_running on a paused job of a user with slots, or one being resumed. */
  lemma StartSteady(lim: Limits, b: Books, i: nat, now: int, cpus: nat, binding: bool, exempt: set<nat>)
    requires Sound(b) && i < |b.active| && JobOk(b.active[i], |b.users|) && !b.active[i].state.Running?
    requires b.users[b.active[i].user].cap > 0 || b.active[i].user in exempt
    requires lim.cpus == cpus && lim.binding == binding && b.busySlots + b.active[i].slots <= lim.top
    ensures Steady(lim, b, Start(b, i, now, cpus, binding), exempt)
  {
    var c := Start(b, i, now, cpus, binding);
    StartedOk(b, i, now, cpus, binding);
    ChargePays(b, c, b.active[i], c.active[i]);
    if FullyBound(lim, b) && binding && lim.top <= cpus {
      StartServed(b, i, now, cpus);
    }
    hide JobOk, Sound, Pays, PaysExactly, SameCaps;
    Replaced(lim, b, c, i, c.active[i], exempt);
  }

  /** A change that no counter sees. */
  lemma EditSteady(lim: Limits, b: Books, i: nat, y: Job)
    requires Sound(b) && i < |b.active| && y.id == b.active[i].id && y.user == b.active[i].user
    requires y.state == b.active[i].state && y.slots == b.active[i].slots && y.held == b.active[i].held && JobOk(y, |b.users|)
    requires (Tidy(b.active[i]) ==> Tidy(y)) && (Served(b.active[i]) ==> Served(y))
    ensures Steady(lim, b, b.(active := b.active[i := y]), {})
  {
    var c := b.(active := b.active[i := y]);
    assert SameCaps(b.users, c.users) && Pays(b, c, b.active[i], y);
    assert Exact(b) ==> PaysExactly(b, c, b.active[i], y);
    hide JobOk, Sound, Pays, PaysExactly, SameCaps, Exact;
    Replaced(lim, b, c, i, y, {});
  }

  /** A job enters or leaves the waiting states; user.queue moves with it. */
  lemma WaitSteady(lim: Limits, b: Books, i: nat, y: Job, users: seq<User>)
    requires Sound(b) && i < |b.active| && y.id == b.active[i].id && y.user == b.active[i].user
    requires !b.active[i].state.Running? && JobOk(y, |b.users|) && y.user < |b.users|
    requires y.state.Queued? || y.state.Locked? || y.state.Holding?
    requires users == b.users[y.user := b.users[y.user].(queue := b.users[y.user].queue
               + Weight(y, Waits(y.user)) - Weight(b.active[i], Waits(y.user)))]
    ensures Steady(lim, b, b.(users := users, active := b.active[i := y]), {})
  {
    var c := b.(users := users, active := b.active[i := y]);
    assert SameCaps(b.users, c.users) && Pays(b, c, b.active[i], y) && PaysExactly(b, c, b.active[i], y);
    hide JobOk, Sound, Pays, PaysExactly, SameCaps;
    Replaced(lim, b, c, i, y, {});
  }

  // ---------- what next_run_job looks for ----------

  /** A dependency holds its job back while it is QUEUED or RUNNING. */
  ghost predicate Blocks(active: seq<Job>, d: int) {
    exists i :: 0 <= i < |active| && active[i].id == d && (active[i].state.Queued? || active[i].state.Running?)
  }

  ghost predicate Ready(active: seq<Job>, j: Job) {
    forall k :: 0 <= k < |j.deps| ==> !Blocks(active, j.deps[k])
  }

  predicate Due(env: Env, j: Job) {
    !(j.sched > 0 && env.now < j.sched)
  }

  predicate Fits(b: Books, maxSlots: int, j: Job) {
    j.user < |b.users| && b.busySlots + j.slots <= maxSlots && b.users[j.user].busy + j.slots <= b.users[j.user].cap
  }

  /** What next_run_job starts: a queued job, or one paused by a time-out whose
      limit has been raised above the CPU time it used. */
  ghost predicate Startable(b: Books, maxSlots: int, env: Env, j: Job) {
    && Fits(b, maxSlots, j)
    && if j.state.Queued? then Ready(b.active, j) && Due(env, j) && j.client > 0
       else j.state.Paused? && j.wall < 0 && env.cpuTime(j.pid) < Abs(j.wall)
  }

  /** Starting job i; a queued job also leaves user.queue. */
  function Launch(b: Books, i: nat, now: int, cpus: nat, binding: bool): Books
    requires i < |b.active| && b.active[i].user < |b.users|
  {
    if b.active[i].state.Queued?
    then Start(b.(users := Dequeue(b.users, b.active[i].user)), i, now, cpus, binding)
    else Start(b, i, now, cpus, binding)
  }

  lemma DequeuePays(b: Books, c: Books, x: Job, z: Job)
    requires JobOk(x, |b.users|) && x.state.Queued?
    requires z.user == x.user && z.slots == x.slots && z.state.Running? && z.held == z.slots
    requires c.users == Charge(Dequeue(b.users, x.user), x) && c.busySlots == b.busySlots + x.slots
    ensures SameCaps(b.users, c.users) && Pays(b, c, x, z) && PaysExactly(b, c, x, z)
  {
  }

  lemma LaunchPays(b: Books, i: nat, now: int, cpus: nat, binding: bool)
    requires i < |b.active| && JobOk(b.active[i], |b.users|) && !b.active[i].state.Running?
    ensures var c := Launch(b, i, now, cpus, binding);
      && JobOk(c.active[i], |b.users|) && c.active == b.active[i := c.active[i]]
      && c.active[i].id == b.active[i].id && c.active[i].user == b.active[i].user
      && SameCaps(b.users, c.users) && Pays(b, c, b.active[i], c.active[i]) && PaysExactly(b, c, b.active[i], c.active[i])
  {
    hide Sum, Pays, PaysExactly, SameCaps;
    var d := if b.active[i].state.Queued? then b.(users := Dequeue(b.users, b.active[i].user)) else b;
    var c := Start(d, i, now, cpus, binding);
    StartedOk(d, i, now, cpus, binding);
    if b.active[i].state.Queued? {
      DequeuePays(b, c, b.active[i], c.active[i]);
    } else {
      ChargePays(b, c, b.active[i], c.active[i]);
    }
  }

  lemma LaunchServed(b: Books, i: nat, now: int, cpus: nat)
    requires Sound(b) && i < |b.active| && JobOk(b.active[i], |b.users|) && !b.active[i].state.Running?
    requires AllTidy(b.active) && b.busySlots + b.active[i].slots <= cpus
    ensures var c := Launch(b, i, now, cpus, true); Tidy(c.active[i]) && Served(c.active[i]) && c.busySlots <= cpus
  {
    if b.active[i].state.Queued? {
      hide Sum, Sound;
    } else {
      StartServed(b, i, now, cpus);
    }
  }

  lemma LaunchSteady(lim: Limits, b: Books, i: nat, now: int, cpus: nat, binding: bool)
    requires Sound(b) && i < |b.active| && JobOk(b.active[i], |b.users|) && !b.active[i].state.Running?
    requires b.users[b.active[i].user].cap > 0
    requires lim.cpus == cpus && lim.binding == binding && b.busySlots + b.active[i].slots <= lim.top
    ensures Steady(lim, b, Launch(b, i, now, cpus, binding), {})
    ensures Even(b) ==> Even(Launch(b, i, now, cpus, binding))
  {
    LaunchPays(b, i, now, cpus, binding);
    if FullyBound(lim, b) && binding && lim.top <= cpus {
      LaunchServed(b, i, now, cpus);
    }
    hide JobOk, Sound, Pays, PaysExactly, SameCaps, Launch, Even, Steady, Exact;
    var c := Launch(b, i, now, cpus, binding);
    Replaced(lim, b, c, i, c.active[i], {});
    if Even(b) {
      ReplacedEven(b, c, i, c.active[i]);
    }
  }

  /** Dispatching respects the global and the per-user limits. */
  ghost predicate Capped(a: Books, b: Books, maxSlots: int) {
    && |a.users| == |b.users|
    && (b.busySlots <= a.busySlots || b.busySlots <= maxSlots)
    && forall u :: 0 <= u < |a.users| ==>
         b.users[u].cap == a.users[u].cap && b.users[u].uid == a.users[u].uid && (b.users[u].busy <= a.users[u].busy || b.users[u].busy <= b.users[u].cap)
  }

  lemma LaunchCapped(b: Books, i: nat, maxSlots: int, now: int, cpus: nat, binding: bool)
    requires i < |b.active| && Fits(b, maxSlots, b.active[i])
    ensures Capped(b, Launch(b, i, now, cpus, binding), maxSlots)
  {
  }

  lemma CappedTwice(a: Books, b: Books, c: Books, maxSlots: int)
    requires Capped(a, b, maxSlots) && Capped(b, c, maxSlots)
    ensures Capped(a, c, maxSlots)
  {
  }

  lemma CappedStill(a: Books, maxSlots: int)
    ensures Capped(a, a, maxSlots)
  {
  }

  lemma CapsTwice(us: seq<User>, vs: seq<User>, ws: seq<User>)
    requires SameCaps(us, vs) && SameCaps(vs, ws)
    ensures SameCaps(us, ws)
  {
  }

  lemma CapsStill(us: seq<User>)
    ensures SameCaps(us, us)
  {
  }

  /** No job of a user without slots fits. */
  lemma FitsNeedsSlots(b: Books, maxSlots: int, i: nat)
    requires Sound(b) && i < |b.active| && Fits(b, maxSlots, b.active[i])
    ensures JobOk(b.active[i], |b.users|) && b.users[b.active[i].user].cap > 0
  {
    SumNonNegative(b.active, |b.users|, Slots(b.active[i].user));
    hide Sum;
    assert Sum(b.active, Slots(b.active[i].user)) <= Reading(b.users, b.busySlots, Slots(b.active[i].user));
  }

  lemma {:induction false} SumNonNegative(s: seq<Job>, n: nat, m: Meter)
    requires JobsOk(s, n)
    ensures 0 <= Sum(s, m)
  {
    if s != [] {
      SumNonNegative(s[..|s| - 1], n, m);
    }
  }

  lemma LaunchTodo(b: Books, i: nat, now: int, cpus: nat, binding: bool)
    requires i < |b.active| && b.active[i].user < |b.users| && (b.active[i].state.Queued? || b.active[i].state.Paused?)
    ensures Sum(Launch(b, i, now, cpus, binding).active, Todo) < Sum(b.active, Todo)
  {
    hide Sum;
    var c := Launch(b, i, now, cpus, binding);
    assert c.active == b.active[i := c.active[i]] && c.active[i].state.Running?;
    SumUpdate(b.active, i, c.active[i], Todo);
  }

  // ---------- facts that callers use without the definitions ----------

  lemma StopIsLocal(b: Books, i: nat, y: Job)
    requires i < |b.active| && b.active[i].user < |b.users|
    ensures Stop(b, i, y).active == b.active[i := y]
    ensures |Stop(b, i, y).users| == |b.users| && SameCaps(b.users, Stop(b, i, y).users)
  {
  }

  lemma StartShape(b: Books, i: nat, now: int, cpus: nat, binding: bool)
    requires i < |b.active| && b.active[i].user < |b.users|
    ensures var c := Start(b, i, now, cpus, binding);
      && c.active == b.active[i := c.active[i]] && c.active[i].state.Running? && |c.users| == |b.users|
      && c.active[i].id == b.active[i].id && c.active[i].held == b.active[i].slots
      && c.active[i] == Started(b.active[i], now).(bound := c.active[i].bound)
      && c.busySlots == b.busySlots + b.active[i].slots
      && (forall u :: 0 <= u < |b.users| ==> c.users[u].cap == b.users[u].cap)
      && c.users[b.active[i].user].busy == b.users[b.active[i].user].busy + b.active[i].slots
  {
    hide Sum;
  }

  lemma StartedKeeps(p: Job, now: int)
    ensures var y := Started(p, now);
      y.id == p.id && y.bound == p.bound && y.pid == p.pid && y.held == p.slots && y.noBinding == p.noBinding
  {
  }

  lemma OnlyOne(active: seq<Job>, d: nat, id: int)
    requires d < |active| && active[d].id == id && DistinctIds(active)
    requires !active[d].state.Queued? && !active[d].state.Running?
    ensures !Blocks(active, id)
  {
  }

  /** With exact counters the CPUs bound to jobs are within the slots of running ones. */
  lemma BoundWithin(b: Books)
    requires Sound(b)
    ensures Exact(b) ==> Sum(b.active, Cpus) <= Sum(b.active, AllSlots)
  {
    hide Sum, Even, Covers;
    if Exact(b) {
      CpusWithinSlots(b.active, |b.users|);
    }
  }

  lemma FrozenPositive(b: Books, u: nat)
    requires Sound(b)
    ensures Sum(b.active, Frozen(u)) >= 0
  {
    SumNonNegative(b.active, |b.users|, Frozen(u));
  }
}
