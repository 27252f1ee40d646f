/** The counters the scheduler keeps beside its job list, and what they count. */
module SlotBooks {
  import opened JobRecord

  /** Users, active jobs and the global counter of busy slots. */
  datatype Books = Books(users: seq<User>, active: seq<Job>, busySlots: int)

  /** What is counted. The last four have no counter of their own. */
  datatype Meter =
    | AllSlots             // busy_slots
    | Slots(who: nat)      // user.busy
    | Runs(who: nat)       // user.jobs
    | Waits(who: nat)      // user.queue
    | Cpus                 // CPUs bound to jobs
    | Others(who: nat)     // jobs that do not run
    | Frozen(who: nat)     // slots of the jobs that resuming the user starts
    | Todo                 // what next_run_job still could do

  function Weight(j: Job, m: Meter): int {
    match m
    case AllSlots => if j.state.Running? then j.slots else 0
    case Slots(u) => if j.state.Running? && j.user == u then j.slots else 0
    case Runs(u) => if j.state.Running? && j.user == u then 1 else 0
    case Waits(u) => if (j.state.Queued? || j.state.Holding?) && j.user == u then 1 else 0
    case Cpus => j.bound
    case Others(u) => if !j.state.Running? && j.user == u then 1 else 0
    case Frozen(u) => if j.state.Paused? && j.pid != 0 && j.user == u then j.slots else 0
    case Todo => if j.state.Holding? then 3 else if j.state.Queued? then 2 else if j.state.Paused? then 1 else 0
  }

  function Sum(s: seq<Job>, m: Meter): int {
    if s == [] then 0 else Sum(s[..|s| - 1], m) + Weight(s[|s| - 1], m)
  }

  predicate Counted(m: Meter, n: nat) {
    match m
    case AllSlots => true
    case Slots(u) => u < n
    case Runs(u) => u < n
    case Waits(u) => u < n
    case Cpus => false
    case Others(u) => false
    case Frozen(u) => false
    case Todo => false
  }

  function Reading(users: seq<User>, busySlots: int, m: Meter): int
    requires Counted(m, |users|)
  {
    match m
    case AllSlots => busySlots
    case Slots(u) => users[u].busy
    case Runs(u) => users[u].jobs
    case Waits(u) => users[u].queue
  }

  // ---------- sums ----------

  lemma SumAppend(s: seq<Job>, j: Job, m: Meter)
    ensures Sum(s + [j], m) == Sum(s, m) + Weight(j, m)
  {
    assert (s + [j])[..|s|] == s;
  }

  lemma {:induction false} SumConcat(s: seq<Job>, t: seq<Job>, m: Meter)
    ensures Sum(s + t, m) == Sum(s, m) + Sum(t, m)
  {
    hide Weight;
    if t == [] {
      assert s + t == s;
    } else {
      SumConcat(s, t[..|t| - 1], m);
      SumAppend(s + t[..|t| - 1], t[|t| - 1], m);
      assert s + t == s + t[..|t| - 1] + [t[|t| - 1]];
    }
  }

  lemma SumOne(j: Job, m: Meter)
    ensures Sum([j], m) == Weight(j, m)
  {
    SumAppend([], j, m);
    assert [] + [j] == [j];
  }

  lemma SumSplit(s: seq<Job>, i: nat, m: Meter)
    requires i < |s|
    ensures Sum(s, m) == Sum(s[..i], m) + Weight(s[i], m) + Sum(s[i + 1..], m)
  {
    hide Sum, Weight;
    assert s == s[..i] + [s[i]] + s[i + 1..];
    SumConcat(s[..i] + [s[i]], s[i + 1..], m);
    SumAppend(s[..i], s[i], m);
  }

  lemma SumUpdate(s: seq<Job>, i: nat, j: Job, m: Meter)
    requires i < |s|
    ensures Sum(s[i := j], m) == Sum(s, m) - Weight(s[i], m) + Weight(j, m)
  {
    hide Sum, Weight;
    SumSplit(s, i, m);
    SumSplit(s[i := j], i, m);
    assert s[i := j][..i] == s[..i] && s[i := j][i + 1..] == s[i + 1..];
  }

  lemma SumRemove(s: seq<Job>, i: nat, m: Meter)
    requires i < |s|
    ensures Sum(s[..i] + s[i + 1..], m) == Sum(s, m) - Weight(s[i], m)
  {
    hide Sum, Weight;
    SumSplit(s, i, m);
    SumConcat(s[..i], s[i + 1..], m);
  }

  lemma SumPrepend(s: seq<Job>, j: Job, m: Meter)
    ensures Sum([j] + s, m) == Weight(j, m) + Sum(s, m)
  {
    hide Sum, Weight;
    SumConcat([j], s, m);
    SumOne(j, m);
  }

  // ---------- what every request keeps ----------

  /** A job as the vector of active jobs may hold it. After a restart a running
      job can have nothing recorded as allocated, and a paused one can hold CPUs. */
  predicate JobOk(j: Job, n: nat) {
    && !j.state.Finished? && !j.state.Skipped?
    && j.user < n && 1 <= j.slots
    && (j.held == 0 || (j.state.Running? && j.held == j.slots))
    && (j.state.Queued? || j.state.Holding? || j.state.Locked? ==> j.pid == 0)
    && j.bound <= if j.state.Running? || j.state.Paused? then j.slots else 0
  }

  ghost predicate JobsOk(s: seq<Job>, n: nat) {
    forall i :: 0 <= i < |s| ==> JobOk(s[i], n)
  }

  ghost predicate DistinctIds(s: seq<Job>) {
    forall i, j :: 0 <= i < j < |s| ==> s[i].id != s[j].id
  }

  /** No counter is below what it counts. */
  ghost predicate Covers(b: Books) {
    forall m: Meter :: Counted(m, |b.users|) ==> Sum(b.active, m) <= Reading(b.users, b.busySlots, m)
  }

  /** Root is the first user, and no two share an id. */
  ghost predicate RootFirst(users: seq<User>) {
    |users| > 0 && users[0].uid == 0 && forall u, v :: 0 <= u < v < |users| ==> users[u].uid != users[v].uid
  }

  ghost predicate Sound(b: Books) {
    RootFirst(b.users) && JobsOk(b.active, |b.users|) && DistinctIds(b.active) && Covers(b)
  }

  /** The slot counters are equal to what they count. */
  ghost predicate Even(b: Books) {
    forall m: Meter :: Counted(m, |b.users|) && !m.Waits? ==> Sum(b.active, m) == Reading(b.users, b.busySlots, m)
  }

  /** A running job has its slots recorded, any other one holds no CPUs. */
  predicate Tidy(j: Job) {
    if j.state.Running? then j.held == j.slots else j.bound == 0
  }

  ghost predicate AllTidy(s: seq<Job>) {
    forall i :: 0 <= i < |s| ==> Tidy(s[i])
  }

  ghost predicate Exact(b: Books) {
    Even(b) && AllTidy(b.active)
  }

  /** A running job that has reported a process has all its CPUs. */
  predicate Served(j: Job) {
    j.state.Running? && j.pid != 0 && !j.noBinding ==> j.bound == j.slots
  }

  ghost predicate AllServed(s: seq<Job>) {
    forall i :: 0 <= i < |s| ==> Served(s[i])
  }

  /** CPUs of the topology, whether binding is on, and the highest value that
      busy_slots may reach while one request is served. */
  datatype Limits = Limits(cpus: nat, binding: bool, top: int)

  /** Every running job has its CPUs, no other job has any, and busy_slots is
      within the topology. */
  ghost predicate FullyBound(lim: Limits, b: Books) {
    lim.binding ==> AllTidy(b.active) && AllServed(b.active) && b.busySlots <= lim.cpus
  }

  /** Every binding succeeds as long as busy_slots stays within the topology. */
  ghost predicate KeepsBound(lim: Limits, a: Books, b: Books) {
    FullyBound(lim, a) && lim.top <= lim.cpus ==> FullyBound(lim, b)
  }

  /** The running jobs of one user. */
  ghost function RunningOf(s: seq<Job>, u: nat): set<int> {
    set i | 0 <= i < |s| && s[i].state.Running? && s[i].user == u :: s[i].id
  }

  /** No job of a user without slots starts, unless the user is exempt. */
  ghost predicate Quiet(a: Books, b: Books, exempt: set<nat>) {
    && |a.users| <= |b.users|
    && forall u: nat :: u < |a.users| && a.users[u].cap <= 0 && u !in exempt ==>
         b.users[u].cap <= 0 && RunningOf(b.active, u) <= RunningOf(a.active, u)
  }

  /** Root has no slots of its own. */
  predicate RootIdle(users: seq<User>) {
    |users| > 0 && users[0].cap == 0
  }

  /** One request, seen from the counters. `exempt` are the users it resumes. */
  ghost predicate Steady(lim: Limits, a: Books, b: Books, exempt: set<nat>) {
    && Sound(b)
    && (Exact(a) ==> Exact(b))
    && (RootIdle(a.users) ==> RootIdle(b.users) && Quiet(a, b, exempt))
    && KeepsBound(lim, a, b)
  }

  /** A higher limit on busy_slots promises less. */
  lemma SteadyHigher(lim: Limits, top: int, a: Books, b: Books, exempt: set<nat>)
    requires Steady(lim, a, b, exempt) && lim.top <= top
    ensures Steady(lim.(top := top), a, b, exempt)
  {
    hide Sound, Exact, Quiet, AllTidy, AllServed;
  }

  lemma QuietTwice(a: Books, b: Books, c: Books, e: set<nat>, f: set<nat>)
    requires Quiet(a, b, e) && Quiet(b, c, f)
    ensures Quiet(a, c, e + f)
  {
    forall u: nat | u < |a.users| && a.users[u].cap <= 0 && u !in e + f
      ensures c.users[u].cap <= 0 && RunningOf(c.active, u) <= RunningOf(a.active, u)
    {
      assert u !in e && u !in f;
      assert RunningOf(c.active, u) <= RunningOf(b.active, u);
    }
  }

  lemma SteadyTwice(lim: Limits, a: Books, b: Books, c: Books, e: set<nat>, f: set<nat>)
    requires Steady(lim, a, b, e) && Steady(lim, b, c, f)
    ensures Steady(lim, a, c, e + f)
  {
    hide Sound, Exact, Quiet, FullyBound;
    if RootIdle(a.users) {
      QuietTwice(a, b, c, e, f);
    }
  }

  lemma SteadyStill(lim: Limits, a: Books)
    requires Sound(a)
    ensures Steady(lim, a, a, {})
  {
    hide Covers, JobsOk, Exact;
  }

  // ---------- one job replaced ----------

  ghost predicate SameCaps(us: seq<User>, vs: seq<User>) {
    && |us| == |vs|
    && forall u :: 0 <= u < |us| ==> vs[u].cap == us[u].cap && vs[u].uid == us[u].uid
  }

  lemma SameCapsTwice(us: seq<User>, vs: seq<User>, ws: seq<User>)
    requires SameCaps(us, vs) && SameCaps(vs, ws)
    ensures SameCaps(us, ws)
  {
  }

  /** The counters move at least as far as what they count. */
  ghost predicate Pays(a: Books, b: Books, x: Job, y: Job)
    requires |a.users| == |b.users|
  {
    forall m: Meter :: Counted(m, |a.users|) ==>
      Weight(y, m) - Weight(x, m) <= Reading(b.users, b.busySlots, m) - Reading(a.users, a.busySlots, m)
  }

  /** The slot counters move exactly as far. */
  ghost predicate PaysExactly(a: Books, b: Books, x: Job, y: Job)
    requires |a.users| == |b.users|
  {
    && Tidy(y)
    && forall m: Meter :: Counted(m, |a.users|) && !m.Waits? ==>
         Weight(y, m) - Weight(x, m) == Reading(b.users, b.busySlots, m) - Reading(a.users, a.busySlots, m)
  }

  /** A job may only enter RUNNING when its user has slots or is being resumed. */
  ghost predicate MayRun(a: Books, x: Job, y: Job, exempt: set<nat>) {
    y.state.Running? && !x.state.Running? ==> y.user in exempt || (y.user < |a.users| && a.users[y.user].cap > 0)
  }

  lemma ReplacedSound(a: Books, b: Books, i: nat, y: Job)
    requires Sound(a) && i < |a.active| && b.active == a.active[i := y]
    requires y.id == a.active[i].id && JobOk(y, |a.users|) && SameCaps(a.users, b.users)
    requires Pays(a, b, a.active[i], y)
    ensures Sound(b)
  {
    hide JobOk, Weight, Reading, Sum;
    forall m: Meter | Counted(m, |b.users|)
      ensures Sum(b.active, m) <= Reading(b.users, b.busySlots, m)
    {
      SumUpdate(a.active, i, y, m);
      assert Sum(a.active, m) <= Reading(a.users, a.busySlots, m);
      assert Weight(y, m) - Weight(a.active[i], m) <= Reading(b.users, b.busySlots, m) - Reading(a.users, a.busySlots, m);
    }
  }

  lemma ReplacedEven(a: Books, b: Books, i: nat, y: Job)
    requires Even(a) && i < |a.active| && b.active == a.active[i := y] && |a.users| == |b.users|
    requires PaysExactly(a, b, a.active[i], y)
    ensures Even(b)
  {
    hide Weight, Reading, Sum;
    forall m: Meter | Counted(m, |b.users|) && !m.Waits?
      ensures Sum(b.active, m) == Reading(b.users, b.busySlots, m)
    {
      SumUpdate(a.active, i, y, m);
      assert Sum(a.active, m) == Reading(a.users, a.busySlots, m);
      assert Weight(y, m) - Weight(a.active[i], m) == Reading(b.users, b.busySlots, m) - Reading(a.users, a.busySlots, m);
    }
  }

  lemma ReplacedQuiet(a: Books, b: Books, i: nat, y: Job, exempt: set<nat>)
    requires i < |a.active| && b.active == a.active[i := y] && SameCaps(a.users, b.users)
    requires y.id == a.active[i].id && y.user == a.active[i].user && MayRun(a, a.active[i], y, exempt)
    ensures Quiet(a, b, exempt)
  {
    forall u: nat | u < |a.users| && a.users[u].cap <= 0 && u !in exempt
      ensures RunningOf(b.active, u) <= RunningOf(a.active, u)
    {
      forall id | id in RunningOf(b.active, u)
        ensures id in RunningOf(a.active, u)
      {
        var k :| 0 <= k < |b.active| && b.active[k].state.Running? && b.active[k].user == u && b.active[k].id == id;
        assert a.active[k].state.Running? && a.active[k].user == u && a.active[k].id == id;
      }
    }
  }

  lemma ReplacedBound(lim: Limits, a: Books, b: Books, i: nat, y: Job)
    requires i < |a.active| && b.active == a.active[i := y]
    requires FullyBound(lim, a) && lim.binding && lim.top <= lim.cpus ==> Tidy(y) && Served(y) && b.busySlots <= lim.cpus
    ensures KeepsBound(lim, a, b)
  {
    hide Tidy, Served;
  }

  lemma Replaced(lim: Limits, a: Books, b: Books, i: nat, y: Job, exempt: set<nat>)
    requires Sound(a) && i < |a.active| && b.active == a.active[i := y]
    requires y.id == a.active[i].id && y.user == a.active[i].user && JobOk(y, |a.users|) && SameCaps(a.users, b.users)
    requires Pays(a, b, a.active[i], y) && MayRun(a, a.active[i], y, exempt)
    requires Exact(a) ==> PaysExactly(a, b, a.active[i], y)
    requires FullyBound(lim, a) && lim.binding && lim.top <= lim.cpus ==> Tidy(y) && Served(y) && b.busySlots <= lim.cpus
    ensures Steady(lim, a, b, exempt)
  {
    ReplacedSound(a, b, i, y);
    ReplacedQuiet(a, b, i, y, exempt);
    ReplacedBound(lim, a, b, i, y);
    if Exact(a) {
      ReplacedEven(a, b, i, y);
      assert AllTidy(b.active);
    }
    hide Sound, Exact, Quiet, Pays, PaysExactly, MayRun, JobOk, FullyBound;
  }

  // ---------- leaving and joining ----------

  lemma LeftQuiet(a: Books, b: Books, i: nat)
    requires i < |a.active| && b.active == a.active[..i] + a.active[i + 1..] && SameCaps(a.users, b.users)
    ensures Quiet(a, b, {})
  {
    forall u: nat | u < |a.users| && a.users[u].cap <= 0
      ensures RunningOf(b.active, u) <= RunningOf(a.active, u)
    {
      forall id | id in RunningOf(b.active, u)
        ensures id in RunningOf(a.active, u)
      {
        var k :| 0 <= k < |b.active| && b.active[k].state.Running? && b.active[k].user == u && b.active[k].id == id;
        var q := if k < i then k else k + 1;
        assert a.active[q].state.Running? && a.active[q].user == u && a.active[q].id == id;
      }
    }
  }

  /** A job leaves and the counters drop no further than it weighed. */
  ghost predicate Settles(a: Books, b: Books, x: Job)
    requires |a.users| == |b.users|
  {
    forall m: Meter :: Counted(m, |a.users|) ==>
      -Weight(x, m) <= Reading(b.users, b.busySlots, m) - Reading(a.users, a.busySlots, m)
  }

  ghost predicate SettlesExactly(a: Books, b: Books, x: Job)
    requires |a.users| == |b.users|
  {
    forall m: Meter :: Counted(m, |a.users|) && !m.Waits? ==>
      -Weight(x, m) == Reading(b.users, b.busySlots, m) - Reading(a.users, a.busySlots, m)
  }

  lemma Left(lim: Limits, a: Books, b: Books, i: nat)
    requires Sound(a) && i < |a.active| && b.active == a.active[..i] + a.active[i + 1..] && SameCaps(a.users, b.users)
    requires Settles(a, b, a.active[i]) && (Exact(a) ==> SettlesExactly(a, b, a.active[i])) && b.busySlots <= a.busySlots
    ensures Steady(lim, a, b, {})
  {
    LeftQuiet(a, b, i);
    LeftSound(a, b, i);
    LeftBound(lim, a, b, i);
    if Exact(a) {
      LeftExact(a, b, i);
    }
    hide Sound, Exact, Quiet, Settles, SettlesExactly, FullyBound;
  }

  lemma LeftBound(lim: Limits, a: Books, b: Books, i: nat)
    requires i < |a.active| && b.active == a.active[..i] + a.active[i + 1..] && b.busySlots <= a.busySlots
    ensures KeepsBound(lim, a, b)
  {
    hide Tidy, Served;
    forall k | 0 <= k < |b.active|
      ensures b.active[k] == a.active[if k < i then k else k + 1]
    {
    }
  }

  lemma LeftSound(a: Books, b: Books, i: nat)
    requires Sound(a) && i < |a.active| && b.active == a.active[..i] + a.active[i + 1..] && SameCaps(a.users, b.users)
    requires Settles(a, b, a.active[i])
    ensures Sound(b)
  {
    hide JobOk, Weight, Reading, Sum;
    forall m: Meter | Counted(m, |b.users|)
      ensures Sum(b.active, m) <= Reading(b.users, b.busySlots, m)
    {
      SumRemove(a.active, i, m);
      assert Sum(a.active, m) <= Reading(a.users, a.busySlots, m);
      assert -Weight(a.active[i], m) <= Reading(b.users, b.busySlots, m) - Reading(a.users, a.busySlots, m);
    }
    forall k | 0 <= k < |b.active|
      ensures b.active[k] == a.active[if k < i then k else k + 1]
    {
    }
  }

  lemma LeftExact(a: Books, b: Books, i: nat)
    requires Exact(a) && i < |a.active| && b.active == a.active[..i] + a.active[i + 1..] && |a.users| == |b.users|
    requires SettlesExactly(a, b, a.active[i])
    ensures Exact(b)
  {
    hide Weight, Reading, Sum;
    forall m: Meter | Counted(m, |b.users|) && !m.Waits?
      ensures Sum(b.active, m) == Reading(b.users, b.busySlots, m)
    {
      SumRemove(a.active, i, m);
      assert Sum(a.active, m) == Reading(a.users, a.busySlots, m);
      assert -Weight(a.active[i], m) == Reading(b.users, b.busySlots, m) - Reading(a.users, a.busySlots, m);
    }
    forall k | 0 <= k < |b.active|
      ensures b.active[k] == a.active[if k < i then k else k + 1]
    {
    }
  }

  /** A job that is not running joins at the back. */
  lemma Joined(lim: Limits, a: Books, b: Books, y: Job)
    requires Sound(a) && b.active == a.active + [y] && SameCaps(a.users, b.users)
    requires JobOk(y, |a.users|) && !y.state.Running? && y.bound == 0 && forall i :: 0 <= i < |a.active| ==> a.active[i].id != y.id
    requires b.busySlots == a.busySlots
    requires forall u :: 0 <= u < |a.users| ==>
      b.users[u].busy == a.users[u].busy && b.users[u].jobs == a.users[u].jobs &&
      a.users[u].queue + Weight(y, Waits(u)) <= b.users[u].queue
    ensures Steady(lim, a, b, {})
  {
    JoinedSums(a, b, y);
    JoinedQuiet(a, b, y);
    assert forall i :: 0 <= i < |a.active| ==> b.active[i] == a.active[i];
    assert b.active[|a.active|] == y;
    hide JobOk, Quiet, Covers, Weight;
  }

  lemma JoinedSums(a: Books, b: Books, y: Job)
    requires Covers(a) && b.active == a.active + [y] && |a.users| == |b.users| && !y.state.Running?
    requires b.busySlots == a.busySlots
    requires forall u :: 0 <= u < |a.users| ==>
      b.users[u].busy == a.users[u].busy && b.users[u].jobs == a.users[u].jobs &&
      a.users[u].queue + Weight(y, Waits(u)) <= b.users[u].queue
    ensures Covers(b)
    ensures forall m: Meter :: Counted(m, |b.users|) && !m.Waits? ==>
      Sum(b.active, m) == Sum(a.active, m) && Reading(b.users, b.busySlots, m) == Reading(a.users, a.busySlots, m)
  {
    hide Sum;
    forall m: Meter | Counted(m, |a.users|)
      ensures Sum(b.active, m) <= Reading(b.users, b.busySlots, m)
      ensures !m.Waits? ==>
        Sum(b.active, m) == Sum(a.active, m) && Reading(b.users, b.busySlots, m) == Reading(a.users, a.busySlots, m)
    {
      SumAppend(a.active, y, m);
      assert Sum(a.active, m) <= Reading(a.users, a.busySlots, m);
    }
  }

  lemma JoinedQuiet(a: Books, b: Books, y: Job)
    requires b.active == a.active + [y] && SameCaps(a.users, b.users) && !y.state.Running?
    ensures Quiet(a, b, {})
  {
    forall u: nat | u < |a.users| && a.users[u].cap <= 0
      ensures RunningOf(b.active, u) <= RunningOf(a.active, u)
    {
      forall id | id in RunningOf(b.active, u)
        ensures id in RunningOf(a.active, u)
      {
        var k :| 0 <= k < |b.active| && b.active[k].state.Running? && b.active[k].user == u && b.active[k].id == id;
        assert a.active[k].state.Running? && a.active[k].user == u && a.active[k].id == id;
      }
    }
  }

  /** The jobs in another order. */
  ghost predicate Reordered(s: seq<Job>, t: seq<Job>) {
    && |s| == |t|
    && (forall k :: 0 <= k < |t| ==> t[k] in s)
    && (forall k :: 0 <= k < |s| ==> s[k] in t)
    && DistinctIds(t)
    && forall m: Meter {:trigger Sum(t, m)} :: Sum(t, m) == Sum(s, m)
  }

  lemma OnlyReordered(lim: Limits, a: Books, b: Books)
    requires Sound(a) && Reordered(a.active, b.active) && b.users == a.users && b.busySlots == a.busySlots
    ensures Steady(lim, a, b, {})
  {
    hide JobOk, Sum, Weight, Reading;
    forall k | 0 <= k < |b.active|
      ensures JobOk(b.active[k], |b.users|)
      ensures Exact(a) ==> Tidy(b.active[k])
    {
      var q :| 0 <= q < |a.active| && a.active[q] == b.active[k];
    }
    forall u: nat
      ensures RunningOf(b.active, u) <= RunningOf(a.active, u)
    {
      forall id | id in RunningOf(b.active, u)
        ensures id in RunningOf(a.active, u)
      {
        var k :| 0 <= k < |b.active| && b.active[k].state.Running? && b.active[k].user == u && b.active[k].id == id;
        var q :| 0 <= q < |a.active| && a.active[q] == b.active[k];
      }
    }
  }

  lemma MovedToFront(s: seq<Job>, i: nat)
    requires i < |s| && DistinctIds(s)
    ensures Reordered(s, [s[i]] + (s[..i] + s[i + 1..]))
  {
    hide Sum, Weight;
    var t := [s[i]] + (s[..i] + s[i + 1..]);
    forall m: Meter
      ensures Sum(t, m) == Sum(s, m)
    {
      SumPrepend(s[..i] + s[i + 1..], s[i], m);
      SumRemove(s, i, m);
    }
    forall k | 0 <= k < |t|
      ensures t[k] == s[if k == 0 then i else if k <= i then k - 1 else k]
    {
    }
    forall k | 0 <= k < |s|
      ensures s[k] in t
    {
      assert t[if k == i then 0 else if k < i then k + 1 else k] == s[k];
    }
  }

  lemma MovedToBack(s: seq<Job>, i: nat)
    requires i < |s| && DistinctIds(s)
    ensures Reordered(s, (s[..i] + s[i + 1..]) + [s[i]])
  {
    hide Sum, Weight;
    var t := (s[..i] + s[i + 1..]) + [s[i]];
    forall m: Meter
      ensures Sum(t, m) == Sum(s, m)
    {
      SumAppend(s[..i] + s[i + 1..], s[i], m);
      SumRemove(s, i, m);
    }
    forall k | 0 <= k < |t|
      ensures t[k] == s[if k == |s| - 1 then i else if k < i then k else k + 1]
    {
    }
    forall k | 0 <= k < |s|
      ensures s[k] in t
    {
      assert t[if k == i then |s| - 1 else if k < i then k else k - 1] == s[k];
    }
  }

  lemma Exchanged(s: seq<Job>, i: nat, j: nat)
    requires i < |s| && j < |s| && DistinctIds(s)
    ensures Reordered(s, s[i := s[j]][j := s[i]])
  {
    hide Sum, Weight;
    var t := s[i := s[j]][j := s[i]];
    forall m: Meter
      ensures Sum(t, m) == Sum(s, m)
    {
      SumUpdate(s, i, s[j], m);
      SumUpdate(s[i := s[j]], j, s[i], m);
    }
    forall k | 0 <= k < |t|
      ensures t[k] == s[if k == j then i else if k == i then j else k]
    {
    }
    forall k | 0 <= k < |s|
      ensures s[k] in t
    {
      assert t[if k == j then i else if k == i then j else k] == s[k];
    }
  }

  // ---------- facts that callers use without the definitions ----------

  lemma AllJobsOk(b: Books)
    requires Sound(b)
    ensures JobsOk(b.active, |b.users|)
  {
  }

  lemma RootKnown(b: Books)
    requires Sound(b)
    ensures RootFirst(b.users)
  {
  }

  lemma RootAt(b: Books)
    requires Sound(b)
    ensures |b.users| > 0
  {
  }

  lemma AllDistinct(b: Books)
    requires Sound(b)
    ensures DistinctIds(b.active)
  {
  }

  lemma OwnerKnown(j: Job, n: nat)
    requires JobOk(j, n)
    ensures j.user < n
  {
  }

  lemma SameOrder(s: seq<Job>)
    requires DistinctIds(s)
    ensures Reordered(s, s)
  {
  }

  lemma SameCount(us: seq<User>, vs: seq<User>)
    requires SameCaps(us, vs)
    ensures |us| == |vs|
  {
  }

  /** No counter is below what it counts, and only running jobs hold slots. */
  lemma NeverTooLow(b: Books)
    requires Sound(b)
    ensures Sum(b.active, AllSlots) <= b.busySlots
    ensures forall u: nat :: u < |b.users| ==> Sum(b.active, Slots(u)) <= b.users[u].busy && Sum(b.active, Waits(u)) <= b.users[u].queue
    ensures forall i :: 0 <= i < |b.active| && !b.active[i].state.Running? ==> b.active[i].held == 0
  {
    hide Sum;
    assert Sum(b.active, AllSlots) <= Reading(b.users, b.busySlots, AllSlots);
    forall u: nat | u < |b.users|
      ensures Sum(b.active, Slots(u)) <= b.users[u].busy && Sum(b.active, Waits(u)) <= b.users[u].queue
    {
      assert Sum(b.active, Slots(u)) <= Reading(b.users, b.busySlots, Slots(u));
      assert Sum(b.active, Waits(u)) <= Reading(b.users, b.busySlots, Waits(u));
    }
    forall i | 0 <= i < |b.active| && !b.active[i].state.Running?
      ensures b.active[i].held == 0
    {
      assert JobOk(b.active[i], |b.users|);
    }
  }

  lemma OnlyJob(active: seq<Job>, i: nat, id: int)
    requires DistinctIds(active) && i < |active| && active[i].id == id
    ensures forall k :: 0 <= k < |active| && active[k].id == id ==> k == i
  {
  }

  lemma EmptyBooks(us: seq<User>, lim: Limits)
    requires RootFirst(us) && forall u :: 0 <= u < |us| ==> us[u].busy == 0 && us[u].jobs == 0 && us[u].queue == 0
    ensures Sound(Books(us, [], 0)) && Exact(Books(us, [], 0)) && FullyBound(lim, Books(us, [], 0))
  {
  }

  lemma SteadyBound(lim: Limits, top: int, a: Books, b: Books, exempt: set<nat>)
    requires Steady(lim.(top := top), a, b, exempt)
    ensures FullyBound(lim, a) && top <= lim.cpus ==> FullyBound(lim, b)
  {
    hide Sound, Exact, Quiet, AllTidy, AllServed;
  }

  lemma BoundAnyTop(lim: Limits, top: int, b: Books)
    ensures FullyBound(lim, b) <==> FullyBound(lim.(top := top), b)
  {
    hide AllTidy, AllServed;
  }

  lemma SteadyUnlimited(lim: Limits, a: Books, b: Books, exempt: set<nat>)
    requires Steady(lim, a, b, exempt)
    ensures Steady(lim.(top := lim.cpus + 1), a, b, exempt)
  {
    hide Sound, Exact, Quiet, AllTidy, AllServed;
  }

  function Higher(a: int, b: int): int {
    if a >= b then a else b
  }
}
