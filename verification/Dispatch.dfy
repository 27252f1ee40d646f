/** What next_run_job may do, step by step, and what it leaves behind. */
module Dispatch {
  import opened JobRecord
  import opened SlotBooks
  import opened SlotMoves
  import opened DependencyLedger
  import opened Roster
  import opened Requests

  /** The limits and the observations of one call. */
  datatype Call = Call(env: Env, maxSlots: int, cpus: nat, binding: bool)

  function LimitsOf(c: Call): Limits {
    Limits(c.cpus, c.binding, c.maxSlots)
  }

  /** wake_hold_client: the first held job becomes an ordinary queued one. */
  function Wake(b: Books, i: nat): Books
    requires i < |b.active|
  {
    b.(active := b.active[i := b.active[i].(state := Queued)])
  }

  /** The guard under which next_run_job overlooks a job it could start. */
  predicate Overlooked(b: Books, j: Job) {
    j.user < |b.users| && b.users[j.user].queue == 0
  }

  /** No earlier job of the same user could start. */
  ghost predicate Foremost(c: Call, a: Books, i: nat)
    requires i < |a.active|
  {
    forall k :: 0 <= k < i && a.active[k].user == a.active[i].user ==> !Startable(a, c.maxSlots, c.env, a.active[k])
  }

  ghost predicate Launches(c: Call, a: Books, b: Books, i: nat) {
    && i < |a.active| && a.active[i].user < |a.users|
    && Startable(a, c.maxSlots, c.env, a.active[i]) && !Overlooked(a, a.active[i]) && Foremost(c, a, i)
    && b == Launch(a, i, c.env.now, c.cpus, c.binding)
  }

  ghost predicate Wakes(a: Books, b: Books, i: nat) {
    && i < |a.active| && a.active[i].state.Holding? && b == Wake(a, i)
    && forall k :: 0 <= k < i ==> !a.active[k].state.Holding?
  }

  /** One dispatch step: the earliest job of a user that can start is started, or the
      earliest held one is woken. */
  ghost predicate StepOf(c: Call, a: Books, b: Books) {
    exists i: nat :: Launches(c, a, b, i) || Wakes(a, b, i)
  }

  ghost predicate Path(c: Call, p: seq<Books>) {
    |p| > 0 && forall k :: 0 < k < |p| ==> StepOf(c, p[k - 1], p[k])
  }

  lemma PathStep(c: Call, p: seq<Books>, b: Books)
    requires Path(c, p) && StepOf(c, p[|p| - 1], b)
    ensures Path(c, p + [b])
  {
    hide StepOf;
    var q := p + [b];
    forall k | 0 < k < |q|
      ensures StepOf(c, q[k - 1], q[k])
    {
      assert q[k - 1] == p[k - 1];
    }
  }

  lemma PathJoin(c: Call, p: seq<Books>, q: seq<Books>)
    requires Path(c, p) && Path(c, q) && p[|p| - 1] == q[0]
    ensures Path(c, p + q[1..])
  {
    hide StepOf;
    var r := p + q[1..];
    forall k | 0 < k < |r|
      ensures StepOf(c, r[k - 1], r[k])
    {
      if k >= |p| {
        assert r[k] == q[k - |p| + 1] && r[k - 1] == q[k - |p|];
      }
    }
  }

  // ---------- what a step keeps ----------

  /** What dispatching can do to a job. */
  predicate Moves(x: Job, y: Job) {
    && y.id == x.id && y.user == x.user && y.pid == x.pid
    && (|| y.state == x.state
        || (y.state.Running? && (x.state.Queued? || x.state.Paused? || x.state.Holding?))
        || (y.state.Queued? && x.state.Holding?))
  }

  /** Jobs keep their places and ids, and running jobs keep running. */
  ghost predicate InPlace(s: seq<Job>, t: seq<Job>) {
    |s| == |t| && forall i :: 0 <= i < |s| ==> Moves(s[i], t[i])
  }

  lemma InPlaceTwice(s: seq<Job>, t: seq<Job>, r: seq<Job>)
    requires InPlace(s, t) && InPlace(t, r)
    ensures InPlace(s, r)
  {
    forall i | 0 <= i < |s|
      ensures Moves(s[i], r[i])
    {
      assert Moves(s[i], t[i]) && Moves(t[i], r[i]);
    }
  }

  /** All that is kept along a path. */
  ghost predicate Advances(c: Call, a: Books, b: Books) {
    && Steady(LimitsOf(c), a, b, {}) && (Even(a) ==> Even(b))
    && Capped(a, b, c.maxSlots)
    && LinksFrom(a.active, b.active)
    && InPlace(a.active, b.active)
    && Sum(b.active, Todo) <= Sum(a.active, Todo)
  }

  lemma AdvancesStill(c: Call, a: Books)
    requires Sound(a)
    ensures Advances(c, a, a)
  {
    SteadyStill(LimitsOf(c), a);
    CappedStill(a, c.maxSlots);
    LinksStill(a.active);
    hide Steady, Capped, LinksFrom, Sum, Even;
  }

  lemma AdvancesTwice(c: Call, a: Books, b: Books, d: Books)
    requires Advances(c, a, b) && Advances(c, b, d)
    ensures Advances(c, a, d)
  {
    hide Steady, Capped, LinksFrom, Sum, Even;
    var none: set<nat> := {};
    SteadyTwice(LimitsOf(c), a, b, d, none, none);
    assert none + none == none;
    CappedTwice(a, b, d, c.maxSlots);
    LinksTwice(a.active, b.active, d.active);
    InPlaceTwice(a.active, b.active, d.active);
  }

  lemma LaunchInPlace(c: Call, a: Books, i: nat)
    requires i < |a.active| && a.active[i].user < |a.users| && (a.active[i].state.Queued? || a.active[i].state.Paused?)
    ensures var b := Launch(a, i, c.env.now, c.cpus, c.binding);
      InPlace(a.active, b.active) && LinksFrom(a.active, b.active) && b.active[i].state.Running?
  {
    hide LinksFrom, Sum;
    var b := Launch(a, i, c.env.now, c.cpus, c.binding);
    assert b.active == a.active[i := b.active[i]] && SameLinks(a.active[i], b.active[i]);
    LinksReplaced(a.active, i, b.active[i]);
  }

  lemma LaunchAdvances(c: Call, a: Books, b: Books, i: nat)
    requires Sound(a) && Launches(c, a, b, i)
    ensures Advances(c, a, b) && Sum(b.active, Todo) < Sum(a.active, Todo)
    ensures i < |a.active| && |b.active| == |a.active| && b.active[i].state.Running? && !a.active[i].state.Running?
  {
    FitsNeedsSlots(a, c.maxSlots, i);
    LaunchSteady(LimitsOf(c), a, i, c.env.now, c.cpus, c.binding);
    LaunchCapped(a, i, c.maxSlots, c.env.now, c.cpus, c.binding);
    LaunchTodo(a, i, c.env.now, c.cpus, c.binding);
    LaunchInPlace(c, a, i);
    hide Steady, Capped, LinksFrom, Sum, Launch, Sound, InPlace, Even;
  }

  lemma WakeAdvances(c: Call, a: Books, b: Books, i: nat)
    requires Sound(a) && Wakes(a, b, i)
    ensures Advances(c, a, b) && Sum(b.active, Todo) < Sum(a.active, Todo)
  {
    hide LinksFrom, Sum, Steady, Covers, DistinctIds;
    var y := a.active[i].(state := Queued);
    assert JobOk(a.active[i], |a.users|) && JobOk(y, |a.users|);
    assert a.users[y.user := a.users[y.user].(queue := a.users[y.user].queue + 1 - 1)] == a.users;
    WaitSteady(LimitsOf(c), a, i, y, a.users);
    CappedStill(a, c.maxSlots);
    LinksReplaced(a.active, i, y);
    SumUpdate(a.active, i, y, Todo);
    if Even(a) {
      ReplacedEven(a, b, i, y);
    }
    hide Steady, LinksFrom, Sum, Sound, Even;
  }

  // ---------- what is left ----------

  /** No job that could start is left, except paused ones of users whose queue
      counter is 0. */
  ghost predicate Exhausted(c: Call, b: Books) {
    forall i :: 0 <= i < |b.active| && Startable(b, c.maxSlots, c.env, b.active[i]) ==>
      b.active[i].state.Paused? && Overlooked(b, b.active[i])
  }

  /** The counter never hides a queued job. */
  lemma QueueCounted(b: Books, i: nat)
    requires Sound(b) && i < |b.active| && (b.active[i].state.Queued? || b.active[i].state.Holding?)
    ensures !Overlooked(b, b.active[i])
  {
    var m := Waits(b.active[i].user);
    assert JobOk(b.active[i], |b.users|);
    assert Sum(b.active, m) <= Reading(b.users, b.busySlots, m);
    SumSplit(b.active, i, m);
    SumNonNegative(b.active[..i], |b.users|, m);
    SumNonNegative(b.active[i + 1..], |b.users|, m);
    hide Sum;
  }

  /** A pass over all users that found nothing. */
  lemma NothingFound(c: Call, b: Books)
    requires Sound(b)
    requires forall i :: 0 <= i < |b.active| && !Overlooked(b, b.active[i]) ==> !Startable(b, c.maxSlots, c.env, b.active[i])
    ensures Exhausted(c, b)
  {
    hide Sound, Ready;
    forall i | 0 <= i < |b.active| && Startable(b, c.maxSlots, c.env, b.active[i])
      ensures b.active[i].state.Paused? && Overlooked(b, b.active[i])
    {
      assert Overlooked(b, b.active[i]);
      if b.active[i].state.Queued? {
        QueueCounted(b, i);
      }
    }
  }

  /** Without a free slot nothing can start. */
  lemma NoSlotLeft(c: Call, b: Books)
    requires Sound(b) && c.maxSlots <= b.busySlots
    ensures forall i :: 0 <= i < |b.active| ==> !Startable(b, c.maxSlots, c.env, b.active[i])
  {
    hide Covers, Ready;
    forall i | 0 <= i < |b.active|
      ensures !Startable(b, c.maxSlots, c.env, b.active[i])
    {
      assert JobOk(b.active[i], |b.users|);
    }
  }

  /** The i-th user in a pass that begins at `last`. */
  function Turn(last: nat, i: nat, n: nat): (u: nat)
    requires n > 0
    ensures u < n
  {
    (last + i) % n
  }

  /** A pass begins at `last` and goes on from each user to the next, from the last
      one to the first. */
  lemma NextTurn(last: nat, i: nat, n: nat)
    requires last < n
    ensures Turn(last, 0, n) == last
    ensures Turn(last, i + 1, n) == if Turn(last, i, n) + 1 < n then Turn(last, i, n) + 1 else 0
  {
    var q, u := (last + i) / n, (last + i) % n;
    Remainder(last, n, 0, last);
    if u + 1 < n {
      Remainder(last + i + 1, n, q, u + 1);
    } else {
      Remainder(last + i + 1, n, q + 1, 0);
    }
  }

  /** The rotated numbering reaches every user. */
  lemma EveryUser(last: nat, n: nat, u: nat) returns (i: nat)
    requires last < n && u < n
    ensures i < n && Turn(last, i, n) == u
  {
    if last <= u {
      i := u - last;
      Remainder(last + i, n, 0, u);
    } else {
      i := u + n - last;
      Remainder(last + i, n, 1, u);
    }
  }

  lemma Remainder(x: nat, n: nat, q: nat, r: nat)
    requires r < n && x == q * n + r
    ensures x % n == r
  {
    var p, t := x / n, x % n;
    assert x == p * n + t && t < n;
    SameQuotient(p, q, n, t, r);
  }

  lemma SameQuotient(p: int, q: int, n: nat, t: nat, r: nat)
    requires p * n + t == q * n + r && t < n && r < n
    ensures t == r
  {
    assert (p - q) * n == r - t;
    assert p - q >= 1 ==> (p - q) * n >= n;
    assert p - q <= -1 ==> (p - q) * n + n <= 0;
  }

  // ---------- one call ----------

  /** A path from a to b and what it keeps. */
  ghost predicate Passed(c: Call, path: seq<Books>, a: Books, b: Books) {
    Path(c, path) && path[0] == a && path[|path| - 1] == b && Advances(c, a, b)
  }

  /** Running jobs go on and another one has started. */
  ghost predicate MoreRun(s: seq<Job>, t: seq<Job>) {
    && InPlace(s, t)
    && exists i :: 0 <= i < |s| && !s[i].state.Running? && t[i].state.Running?
  }

  lemma PassedStill(c: Call, a: Books)
    requires Sound(a)
    ensures Passed(c, [a], a, a)
  {
    AdvancesStill(c, a);
    hide Advances;
  }

  lemma PassedLaunch(c: Call, path: seq<Books>, a: Books, b: Books, d: Books, j: nat)
    requires Passed(c, path, a, b) && Launches(c, b, d, j)
    ensures Passed(c, path + [d], a, d) && MoreRun(a.active, d.active) && |d.users| == |a.users|
    ensures Sum(d.active, Todo) < Sum(a.active, Todo)
  {
    hide Launches, Steady, Capped, LinksFrom, Sum, Path;
    AdvancesSound(c, a, b);
    LaunchAdvances(c, b, d, j);
    AdvancesTwice(c, a, b, d);
    SameUsers(a, d, c.maxSlots);
    assert StepOf(c, b, d);
    PathGrows(c, path, d);
    StillStopped(a.active, b.active, j);
  }

  lemma PathGrows(c: Call, path: seq<Books>, d: Books)
    requires Path(c, path) && StepOf(c, path[|path| - 1], d)
    ensures |path| > 0 && Path(c, path + [d]) && (path + [d])[0] == path[0]
  {
    PathStep(c, path, d);
  }

  lemma StillStopped(s: seq<Job>, t: seq<Job>, j: nat)
    requires InPlace(s, t) && j < |t| && !t[j].state.Running?
    ensures !s[j].state.Running?
  {
  }

  lemma PassedWake(c: Call, path: seq<Books>, a: Books, b: Books, d: Books, j: nat)
    requires Passed(c, path, a, b) && Wakes(b, d, j)
    ensures Passed(c, path + [d], a, d) && Sum(d.active, Todo) < Sum(b.active, Todo)
  {
    hide Wakes, Steady, Capped, LinksFrom, Sum, Path;
    AdvancesSound(c, a, b);
    WakeAdvances(c, b, d, j);
    AdvancesTwice(c, a, b, d);
    assert StepOf(c, b, d);
    PathGrows(c, path, d);
  }

  function Then(p: seq<Books>, q: seq<Books>): seq<Books> {
    if q == [] then p else p + q[1..]
  }

  lemma PassedTwice(c: Call, p: seq<Books>, q: seq<Books>, a: Books, b: Books, d: Books)
    requires Passed(c, p, a, b) && Passed(c, q, b, d)
    ensures Passed(c, Then(p, q), a, d)
  {
    hide Advances;
    AdvancesTwice(c, a, b, d);
    PathJoin(c, p, q);
    hide Path;
    assert (p + q[1..])[|p + q[1..]| - 1] == d;
  }

  lemma PassedSteady(c: Call, path: seq<Books>, a: Books, b: Books)
    requires Passed(c, path, a, b)
    ensures Steady(LimitsOf(c), a, b, {}) && (Even(a) ==> Even(b)) && InPlace(a.active, b.active)
  {
    hide Steady, Even, Path;
  }

  lemma PassedUsers(c: Call, path: seq<Books>, a: Books, b: Books)
    requires Passed(c, path, a, b)
    ensures |a.users| == |b.users| && Capped(a, b, c.maxSlots) && SameCaps(a.users, b.users)
  {
    hide Path, Steady, Even, LinksFrom;
  }

  lemma RosterKept(c: Call, path: seq<Books>, a: Books, b: Books, finished: seq<Job>, next: int)
    requires Passed(c, path, a, b) && OnRoster(a.active, finished, next)
    ensures Sound(b) && OnRoster(b.active, finished, next)
  {
    hide OnRoster, LinksFrom, Covers, JobsOk, Path;
    RosterFrom(a.active, b.active, finished, next);
  }

  /** The user has no job that can start, or its counter is 0. */
  ghost predicate UserTried(c: Call, b: Books, u: nat) {
    forall q :: 0 <= q < |b.active| && b.active[q].user == u && !Overlooked(b, b.active[q]) ==>
      !Startable(b, c.maxSlots, c.env, b.active[q])
  }

  /** So for the first i users of the pass. */
  ghost predicate Tried(c: Call, b: Books, first: nat, i: nat) {
    first < |b.users| && forall k: nat :: k < i ==> UserTried(c, b, Turn(first, k, |b.users|))
  }

  lemma SameUsers(a: Books, b: Books, maxSlots: int)
    requires Capped(a, b, maxSlots)
    ensures |a.users| == |b.users|
  {
  }

  lemma TriedNone(c: Call, b: Books, first: nat)
    requires first < |b.users|
    ensures Tried(c, b, first, 0)
  {
  }

  lemma IdleTried(c: Call, b: Books, u: nat)
    requires u < |b.users| && b.users[u].queue == 0
    ensures UserTried(c, b, u)
  {
  }

  lemma TriedMore(c: Call, b: Books, first: nat, i: nat)
    requires Tried(c, b, first, i) && UserTried(c, b, Turn(first, i, |b.users|))
    ensures Tried(c, b, first, i + 1)
  {
    hide UserTried, Turn;
  }

  // ---------- whose turn it is ----------

  /** A start within a pass: at position `at`, with last_uid `last`, job number `job`
      of `from` was started. */
  datatype Pick = Pick(at: nat, last: nat, from: Books, job: nat)

  ghost predicate Picked(c: Call, p: Pick) {
    && p.job < |p.from.active| && p.from.active[p.job].user < |p.from.users| && p.at < |p.from.users|
    && p.from.active[p.job].user == Turn(p.last, p.at, |p.from.users|)
    && Launches(c, p.from, Launch(p.from, p.job, c.env.now, c.cpus, c.binding), p.job)
  }

  /** The books and last_uid after a start: the next user is to be asked first. */
  ghost predicate Leads(c: Call, p: Pick, b: Books, last: nat)
    requires Picked(c, p)
  {
    && b == Launch(p.from, p.job, c.env.now, c.cpus, c.binding)
    && last == Following(p.from.active[p.job].user, |p.from.users|)
  }

  /** The user behind u, in a circle. */
  function Following(u: nat, n: nat): nat {
    if u + 1 < n then u + 1 else 0
  }

  /** The position after the m-th start, or the first one. */
  function After(picks: seq<Pick>, m: nat): nat
    requires m <= |picks|
  {
    if m == 0 then 0 else picks[m - 1].at + 1
  }

  /** Nothing could be started at the positions from..until-1 of the pass. */
  ghost predicate Barren(c: Call, b: Books, last: nat, from: nat, until: nat) {
    |b.users| > 0 && forall k: nat :: from <= k < until ==> UserTried(c, b, Turn(last, k, |b.users|))
  }

  /** The pass up to position i: each start is the first of its user's jobs that can
      start, its user is the first after the position of the start before, counted
      from last_uid, and last_uid moves to the user behind it. */
  ghost predicate InTurns(c: Call, picks: seq<Pick>, a: Books, first: nat, b: Books, last: nat, i: nat) {
    && AllPicked(c, picks, i) && NobodyBetween(c, picks) && Chained(c, picks)
    && (if picks == [] then b == a && last == first else picks[0].from == a && picks[0].last == first)
    && (picks != [] ==> Leads(c, picks[|picks| - 1], b, last))
    && Barren(c, b, last, After(picks, |picks|), i)
  }

  ghost predicate AllPicked(c: Call, picks: seq<Pick>, i: nat) {
    forall m :: 0 <= m < |picks| ==> Picked(c, picks[m]) && picks[m].at < i
  }

  ghost predicate NobodyBetween(c: Call, picks: seq<Pick>) {
    forall m: nat :: m < |picks| ==>
      After(picks, m) <= picks[m].at && Barren(c, picks[m].from, picks[m].last, After(picks, m), picks[m].at)
  }

  ghost predicate Chained(c: Call, picks: seq<Pick>) {
    forall m, n :: 0 <= m < n < |picks| && n == m + 1 ==> Succeeds(c, picks[m], picks[n])
  }

  ghost predicate Succeeds(c: Call, p: Pick, q: Pick) {
    Picked(c, p) && Leads(c, p, q.from, q.last)
  }

  lemma TurnsBegin(c: Call, a: Books, first: nat)
    requires |a.users| > 0
    ensures InTurns(c, [], a, first, a, first, 0)
  {
  }

  lemma TurnsPass(c: Call, picks: seq<Pick>, a: Books, first: nat, b: Books, last: nat, i: nat)
    requires InTurns(c, picks, a, first, b, last, i) && |b.users| > 0 && UserTried(c, b, Turn(last, i, |b.users|))
    ensures InTurns(c, picks, a, first, b, last, i + 1)
  {
    hide UserTried, Turn, Picked, Leads;
  }

  lemma PickedBy(c: Call, b: Books, last: nat, i: nat, j: nat, d: Books)
    requires i < |b.users| && Launches(c, b, d, j) && b.active[j].user == Turn(last, i, |b.users|)
    ensures j < |b.active| && Picked(c, Pick(i, last, b, j)) && Leads(c, Pick(i, last, b, j), d, Following(b.active[j].user, |b.users|))
  {
    hide Launch, Startable, Overlooked, Foremost, Turn;
  }

  lemma TurnsStart(c: Call, picks: seq<Pick>, a: Books, first: nat, b: Books, last: nat, i: nat, j: nat, d: Books)
    requires InTurns(c, picks, a, first, b, last, i) && i < |b.users| && Launches(c, b, d, j) && |d.users| > 0
    requires b.active[j].user == Turn(last, i, |b.users|)
    ensures InTurns(c, picks + [Pick(i, last, b, j)], a, first, d, Following(b.active[j].user, |b.users|), i + 1)
  {
    hide UserTried, Turn, Launches, Picked, Leads, Barren, NobodyBetween, Chained, AllPicked, After;
    var p := Pick(i, last, b, j);
    PickedBy(c, b, last, i, j, d);
    AfterBelow(c, picks, a, first, b, last, i);
    OnePicked(c, picks, p);
    OneBetween(c, picks, p);
    LastPicked(c, picks, i);
    OneChained(c, picks, p);
    NothingYet(c, d, Following(b.active[j].user, |b.users|), i + 1);
    AfterLast(picks, p);
  }

  lemma OnePicked(c: Call, picks: seq<Pick>, p: Pick)
    requires AllPicked(c, picks, p.at) && Picked(c, p)
    ensures AllPicked(c, picks + [p], p.at + 1)
  {
    hide Picked;
  }

  lemma OneBetween(c: Call, picks: seq<Pick>, p: Pick)
    requires NobodyBetween(c, picks) && After(picks, |picks|) <= p.at && Barren(c, p.from, p.last, After(picks, |picks|), p.at)
    ensures NobodyBetween(c, picks + [p])
  {
    hide Barren, After;
    var next := picks + [p];
    forall m: nat | m < |next|
      ensures After(next, m) <= next[m].at && Barren(c, next[m].from, next[m].last, After(next, m), next[m].at)
    {
      AfterSame(picks, p, m);
      assert next[m] == if m < |picks| then picks[m] else p;
    }
  }

  lemma OneChained(c: Call, picks: seq<Pick>, p: Pick)
    requires Chained(c, picks) && (picks != [] ==> Succeeds(c, picks[|picks| - 1], p))
    ensures Chained(c, picks + [p])
  {
    hide Succeeds;
    var next := picks + [p];
    assert Chained(c, next) by {
      forall m, n | 0 <= m < n < |next| && n == m + 1
        ensures Succeeds(c, next[m], next[n])
      {
        assert next[m] == picks[m] && next[n] == if n < |picks| then picks[n] else p;
      }
    }
  }

  lemma AfterSame(picks: seq<Pick>, p: Pick, m: nat)
    requires m <= |picks|
    ensures After(picks + [p], m) == After(picks, m)
  {
  }

  lemma LastPicked(c: Call, picks: seq<Pick>, i: nat)
    requires AllPicked(c, picks, i)
    ensures picks != [] ==> Picked(c, picks[|picks| - 1])
  {
    hide Picked;
  }

  lemma AfterLast(picks: seq<Pick>, p: Pick)
    ensures After(picks + [p], |picks| + 1) == p.at + 1
  {
  }

  lemma AfterBelow(c: Call, picks: seq<Pick>, a: Books, first: nat, b: Books, last: nat, i: nat)
    requires InTurns(c, picks, a, first, b, last, i)
    ensures After(picks, |picks|) <= i
  {
  }

  lemma NothingYet(c: Call, b: Books, last: nat, i: nat)
    requires |b.users| > 0
    ensures Barren(c, b, last, i, i)
  {
  }

  /** A whole pass: it ends at the last position, or when no slot is free. */
  ghost predicate RoundRobin(c: Call, picks: seq<Pick>, a: Books, first: nat, b: Books, last: nat) {
    exists i: nat :: InTurns(c, picks, a, first, b, last, i) && (i >= |b.users| || c.maxSlots <= b.busySlots)
  }

  /** Books and last_uid after m starts. */
  ghost function At(picks: seq<Pick>, b: Books, last: nat, m: nat): (Books, nat)
    requires m <= |picks|
  {
    if m < |picks| then (picks[m].from, picks[m].last) else (b, last)
  }

  /** A user that can be served at a position still to come is not passed by. */
  lemma MustPick(c: Call, picks: seq<Pick>, a: Books, first: nat, b: Books, last: nat, i: nat, m: nat, k: nat)
    requires InTurns(c, picks, a, first, b, last, i) && (i >= |b.users| || c.maxSlots <= b.busySlots) && m <= |picks|
    requires var (d, l) := At(picks, b, last, m);
      After(picks, m) <= k < |d.users| && d.busySlots < c.maxSlots && !UserTried(c, d, Turn(l, k, |d.users|))
    ensures m < |picks| && picks[m].at <= k
  {
    hide UserTried, Turn, Picked, Leads;
  }

  lemma {:induction false} SameUsersAt(c: Call, picks: seq<Pick>, a: Books, first: nat, b: Books, last: nat, i: nat, m: nat)
    requires InTurns(c, picks, a, first, b, last, i) && m < |picks|
    ensures |picks[m].from.users| == |a.users|
  {
    hide UserTried, Turn, Barren, Launches;
    if m > 0 {
      SameUsersAt(c, picks, a, first, b, last, i, m - 1);
      assert Picked(c, picks[m - 1]) && Leads(c, picks[m - 1], picks[m].from, picks[m].last);
      LaunchLocal(picks[m - 1].from, picks[m - 1].job, c.env.now, c.cpus, c.binding);
    }
  }

  lemma SameUsersAll(c: Call, picks: seq<Pick>, a: Books, first: nat, b: Books, last: nat, i: nat)
    requires InTurns(c, picks, a, first, b, last, i)
    ensures forall m :: 0 <= m < |picks| ==> |picks[m].from.users| == |a.users|
  {
    hide InTurns;
    forall m | 0 <= m < |picks|
      ensures |picks[m].from.users| == |a.users|
    {
      SameUsersAt(c, picks, a, first, b, last, i, m);
    }
  }

  lemma NoThird(c: Call, picks: seq<Pick>, a: Books, first: nat, b: Books, last: nat, i: nat)
    requires InTurns(c, picks, a, first, b, last, i) && |picks| >= 2
    requires forall m :: 0 <= m < |picks| ==> |picks[m].from.users| == picks[1].at + 1
    ensures |picks| == 2
  {
    hide UserTried, Turn, Launches, Leads, Barren;
    assert forall m: nat :: m < |picks| ==> After(picks, m) <= picks[m].at && Picked(c, picks[m]);
    assert After(picks, 2) == picks[1].at + 1;
  }

  /** The first start of a pass serves the first user, counted from last_uid, that has
      a job to start. */
  lemma FirstServed(c: Call, picks: seq<Pick>, a: Books, first: nat, b: Books, last: nat)
    requires RoundRobin(c, picks, a, first, b, last) && picks != []
    ensures picks[0].from == a && picks[0].last == first && Picked(c, picks[0]) && Barren(c, a, first, 0, picks[0].at)
  {
    hide Barren, Picked, Leads;
    var i: nat :| InTurns(c, picks, a, first, b, last, i) && (i >= |b.users| || c.maxSlots <= b.busySlots);
    assert After(picks, 0) == 0;
  }

  /** For a later start of the pass this holds exactly when nobody could be served at
      the positions up to that of the start before: last_uid has moved, and the pass
      goes on behind that position. */
  lemma LaterServed(c: Call, picks: seq<Pick>, a: Books, first: nat, b: Books, last: nat, m: nat)
    requires RoundRobin(c, picks, a, first, b, last) && 0 < m < |picks|
    ensures Barren(c, picks[m].from, picks[m].last, 0, picks[m].at) <==>
      Barren(c, picks[m].from, picks[m].last, 0, picks[m - 1].at + 1)
  {
    hide UserTried, Picked, Leads, Turn;
    var i: nat :| InTurns(c, picks, a, first, b, last, i) && (i >= |b.users| || c.maxSlots <= b.busySlots);
    assert After(picks, m) == picks[m - 1].at + 1;
  }

  /** All held clients are queued, and nothing else has changed. */
  ghost function Woken(b: Books): Books {
    b.(active := seq(|b.active|, k requires 0 <= k < |b.active| =>
      if b.active[k].state.Holding? then b.active[k].(state := Queued) else b.active[k]))
  }

  lemma WokenStep(a: Books, b: Books, i: nat)
    requires Wakes(a, b, i)
    ensures Woken(b) == Woken(a)
  {
  }

  lemma WokenAll(b: Books)
    requires forall k :: 0 <= k < |b.active| ==> !b.active[k].state.Holding?
    ensures Woken(b) == b
  {
  }

  /** One pass of next_run_job, from `a` to `b`. */
  datatype Lap = Lap(picks: seq<Pick>, a: Books, first: nat, b: Books, last: nat)

  /** What the pass leaves, with the held clients woken if it started a job. */
  ghost function Left(lap: Lap): Books {
    if lap.picks == [] then lap.b else Woken(lap.b)
  }

  /** Passes one after the other, each but the last with a start. */
  ghost predicate Laps(c: Call, laps: seq<Lap>, a: Books, first: nat, b: Books, last: nat) {
    if laps == [] then
      b == a && last == first
    else
      var before, lap := laps[..|laps| - 1], laps[|laps| - 1];
      && RoundRobin(c, lap.picks, lap.a, lap.first, lap.b, lap.last)
      && (before != [] ==> before[|before| - 1].picks != [])
      && Laps(c, before, a, first, lap.a, lap.first)
      && b == Left(lap) && last == lap.last
  }

  ghost function Starts(laps: seq<Lap>): nat {
    if laps == [] then 0 else Starts(laps[..|laps| - 1]) + |laps[|laps| - 1].picks|
  }

  lemma LapsNone(c: Call, a: Books, first: nat)
    ensures Laps(c, [], a, first, a, first) && Starts([]) == 0
  {
  }

  lemma PassedSize(c: Call, path: seq<Books>, a: Books, b: Books)
    requires Passed(c, path, a, b)
    ensures |a.active| == |b.active|
  {
    hide Path, Steady, Capped, LinksFrom;
  }

  lemma StartsMore(laps: seq<Lap>, lap: Lap)
    ensures Starts(laps + [lap]) == Starts(laps) + |lap.picks|
  {
    assert (laps + [lap])[..|laps|] == laps;
  }

  lemma LapsMore(c: Call, laps: seq<Lap>, a: Books, first: nat, b: Books, last: nat, lap: Lap)
    requires Laps(c, laps, a, first, b, last) && (laps != [] ==> laps[|laps| - 1].picks != [])
    requires RoundRobin(c, lap.picks, lap.a, lap.first, lap.b, lap.last) && lap.a == b && lap.first == last
    ensures Laps(c, laps + [lap], a, first, Left(lap), lap.last)
    ensures Starts(laps + [lap]) == Starts(laps) + |lap.picks|
  {
    hide RoundRobin, Left, Starts;
    StartsMore(laps, lap);
    assert (laps + [lap])[..|laps|] == laps;
  }

  lemma RoundOver(c: Call, b: Books, first: nat, i: nat, cut: bool)
    requires Sound(b) && Tried(c, b, first, i) && if cut then c.maxSlots <= b.busySlots else i >= |b.users|
    ensures Exhausted(c, b)
  {
    if cut {
      NoSlotLeft(c, b);
    } else {
      forall q | 0 <= q < |b.active| && !Overlooked(b, b.active[q])
        ensures !Startable(b, c.maxSlots, c.env, b.active[q])
      {
        assert JobOk(b.active[q], |b.users|);
        var k := EveryUser(first, |b.users|, b.active[q].user);
        assert UserTried(c, b, Turn(first, k, |b.users|));
      }
    }
    hide Sound, Startable, Turn, Tried;
    NothingFound(c, b);
  }

  ghost function TodoLeft(b: Books): nat {
    if Sum(b.active, Todo) < 0 then 0 else Sum(b.active, Todo)
  }

  lemma TodoFalls(a: Books, b: Books)
    requires Sound(b) && Sum(b.active, Todo) < Sum(a.active, Todo)
    ensures TodoLeft(b) < TodoLeft(a)
  {
    hide Covers, DistinctIds, Sum;
    SumNonNegative(b.active, |b.users|, Todo);
  }

  lemma EmptyExhausted(c: Call, b: Books)
    requires b.active == []
    ensures Exhausted(c, b)
  {
  }

  /** A round that started something, then the waking of held jobs. */
  lemma StillMore(c: Call, a: Books, b: Books, d: Books, e: Books, p: seq<Books>, q: seq<Books>, before: nat)
    requires Sound(e) && Passed(c, p, b, d) && Passed(c, q, d, e) && MoreRun(b.active, d.active)
    requires Sum(d.active, Todo) < Sum(b.active, Todo)
    requires before == 0 ==> a == b
    requires before > 0 ==> MoreRun(a.active, b.active)
    ensures MoreRun(a.active, e.active) && TodoLeft(e) < TodoLeft(b)
  {
    hide Path, Sum, LinksFrom, Steady, Capped, Sound;
    TodoFalls(b, e);
    if before > 0 {
      var i :| 0 <= i < |a.active| && !a.active[i].state.Running? && b.active[i].state.Running?;
      assert e.active[i].state.Running?;
    } else {
      var i :| 0 <= i < |b.active| && !b.active[i].state.Running? && d.active[i].state.Running?;
      assert e.active[i].state.Running?;
    }
  }

  lemma LedgerKept(c: Call, path: seq<Books>, a: Books, b: Books, finished: seq<Job>, book: Book, next: int)
    requires Passed(c, path, a, b)
    ensures InBalance(a.active, finished, book, next) ==> InBalance(b.active, finished, book, next)
  {
    hide InBalance, Path, LinksFrom, Steady, Capped, Sum, InPlace;
    if InBalance(a.active, finished, book, next) {
      InBalanceFrom(a.active, b.active, finished, book, next);
    }
  }

  /** A user whose counter is 0 is passed over: its jobs stay as they are. */
  ghost predicate PassedOver(a: Books, b: Books, u: nat) {
    && u < |b.users| && b.users[u].queue == 0
    && InPlace(a.active, b.active)
    && forall i :: 0 <= i < |a.active| && a.active[i].user == u ==> b.active[i] == a.active[i]
  }

  lemma NotDead(env: Env, s: seq<Job>, t: seq<Job>, n: nat)
    requires InPlace(s, t) && JobsOk(s, n) && NoneDead(env, s, 0)
    ensures NoneDead(env, t, 0)
  {
    forall k | 0 <= k < |t|
      ensures !Dead(env, t[k])
    {
      assert Moves(s[k], t[k]) && JobOk(s[k], n) && !Dead(env, s[k]);
    }
  }

  lemma StartableState(b: Books, maxSlots: int, env: Env, j: Job)
    requires Startable(b, maxSlots, env, j)
    ensures j.state.Queued? || j.state.Paused?
  {
  }

  lemma SurviveInPlace(env: Env, s: seq<Job>, t: seq<Job>, r: seq<Job>)
    requires Survive(env, s, t) && InPlace(t, r)
    ensures Survive(env, s, r)
  {
    hide Dead;
    forall k | 0 <= k < |s| && !Dead(env, s[k])
      ensures Known(r, s[k].id)
    {
      assert Known(t, s[k].id);
      var q :| 0 <= q < |t| && t[q].id == s[k].id;
      assert Moves(t[q], r[q]);
    }
  }

  lemma LaunchLocal(a: Books, i: nat, now: int, cpus: nat, binding: bool)
    requires i < |a.active| && a.active[i].user < |a.users|
    ensures var b := Launch(a, i, now, cpus, binding);
      && b.active == a.active[i := b.active[i]] && |b.users| == |a.users|
      && forall u :: 0 <= u < |a.users| && u != a.active[i].user ==> b.users[u] == a.users[u]
  {
    hide Sum;
  }

  lemma LaunchPassesOver(c: Call, a: Books, b: Books, u: nat, i: nat)
    requires u < |a.users| && a.users[u].queue == 0 && Launches(c, a, b, i)
    ensures PassedOver(a, b, u)
  {
    hide LinksFrom, Sum, Startable, InPlace, Launch;
    StartableState(a, c.maxSlots, c.env, a.active[i]);
    LaunchInPlace(c, a, i);
    LaunchLocal(a, i, c.env.now, c.cpus, c.binding);
    assert a.active[i].user != u;
  }

  lemma WakePassesOver(a: Books, b: Books, u: nat, i: nat)
    requires Sound(a) && u < |a.users| && a.users[u].queue == 0 && Wakes(a, b, i)
    ensures PassedOver(a, b, u)
  {
    QueueCounted(a, i);
    assert JobOk(a.active[i], |a.users|);
    hide Sound;
  }

  lemma StepPassesOver(c: Call, a: Books, b: Books, u: nat)
    requires Sound(a) && u < |a.users| && a.users[u].queue == 0 && StepOf(c, a, b)
    ensures Sound(b) && PassedOver(a, b, u)
  {
    hide Sound, Launches, Wakes, PassedOver, Advances;
    var i: nat :| Launches(c, a, b, i) || Wakes(a, b, i);
    if Launches(c, a, b, i) {
      LaunchAdvances(c, a, b, i);
      LaunchPassesOver(c, a, b, u, i);
    } else {
      WakeAdvances(c, a, b, i);
      WakePassesOver(a, b, u, i);
    }
    AdvancesSound(c, a, b);
  }

  lemma AdvancesSound(c: Call, a: Books, b: Books)
    requires Advances(c, a, b)
    ensures Sound(b)
  {
    hide Sound;
  }

  /** A whole call passes such a user over, so a paused job of it that could
      start is left waiting: the condition in `Exhausted` is exact. */
  lemma {:induction false} PathPassesOver(c: Call, p: seq<Books>, u: nat)
    requires Path(c, p) && Sound(p[0]) && u < |p[0].users| && p[0].users[u].queue == 0
    ensures Sound(p[|p| - 1]) && PassedOver(p[0], p[|p| - 1], u)
    decreases |p|
  {
    hide Sound, StepOf;
    if |p| > 1 {
      var q := p[..|p| - 1];
      PathPassesOver(c, q, u);
      assert StepOf(c, p[|p| - 2], p[|p| - 1]);
      StepPassesOver(c, p[|p| - 2], p[|p| - 1], u);
    }
  }

  // ---------- no deadlock ----------

  /** The queued job with the smallest id. */
  lemma {:induction false} FirstQueued(s: seq<Job>) returns (i: nat)
    requires exists k :: 0 <= k < |s| && s[k].state.Queued?
    ensures i < |s| && s[i].state.Queued?
    ensures forall k :: 0 <= k < |s| && s[k].state.Queued? ==> s[i].id <= s[k].id
  {
    var r, last := s[..|s| - 1], s[|s| - 1];
    assert forall k :: 0 <= k < |r| ==> r[k] == s[k];
    if exists k :: 0 <= k < |r| && r[k].state.Queued? {
      i := FirstQueued(r);
      if last.state.Queued? && last.id < s[i].id {
        i := |s| - 1;
      }
    } else {
      i := |s| - 1;
    }
  }

  /** Its dependencies have smaller ids, so none of them can hold it back when
      nothing runs. */
  lemma FirstIsReady(active: seq<Job>, finished: seq<Job>, next: int, i: nat)
    requires OnRoster(active, finished, next) && i < |active|
    requires forall k :: 0 <= k < |active| && active[k].state.Queued? ==> active[i].id <= active[k].id
    requires forall k :: 0 <= k < |active| ==> !active[k].state.Running?
    ensures Ready(active, active[i])
  {
    forall k | 0 <= k < |active[i].deps|
      ensures !Blocks(active, active[i].deps[k])
    {
      var d := active[i].deps[k];
      assert d in active[i].deps && Below(active[i].deps, active[i].id);
    }
  }

  /** Every queued job is connected, due, and fits the machine when it is empty. */
  ghost predicate AllCouldRun(c: Call, b: Books) {
    forall k :: 0 <= k < |b.active| && b.active[k].state.Queued? ==>
      Due(c.env, b.active[k]) && b.active[k].client > 0 && b.active[k].user < |b.users|
      && b.active[k].slots <= c.maxSlots && b.active[k].slots <= b.users[b.active[k].user].cap
  }

  /** With nothing running and exact counters, a queue of such jobs is never
      exhausted: some dependency-free job can start. */
  lemma NoDeadlock(c: Call, b: Books, finished: seq<Job>, next: int)
    requires Sound(b) && Even(b) && OnRoster(b.active, finished, next) && AllCouldRun(c, b)
    requires forall k :: 0 <= k < |b.active| ==> !b.active[k].state.Running?
    requires exists k :: 0 <= k < |b.active| && b.active[k].state.Queued?
    ensures !Exhausted(c, b)
  {
    var i := FirstQueued(b.active);
    FirstIsReady(b.active, finished, next, i);
    var u := b.active[i].user;
    NothingRuns(b.active, AllSlots);
    NothingRuns(b.active, Slots(u));
    hide Sum, Ready, OnRoster, Sound;
    assert Sum(b.active, AllSlots) == Reading(b.users, b.busySlots, AllSlots);
    assert Sum(b.active, Slots(u)) == Reading(b.users, b.busySlots, Slots(u));
    assert Startable(b, c.maxSlots, c.env, b.active[i]);
  }

  lemma {:induction false} NothingRuns(s: seq<Job>, m: Meter)
    requires forall k :: 0 <= k < |s| ==> !s[k].state.Running?
    requires m.AllSlots? || m.Slots? || m.Runs?
    ensures Sum(s, m) == 0
  {
    if s != [] {
      NothingRuns(s[..|s| - 1], m);
    }
  }

  /** Nothing runs, the slot counters are equal to what they count, and there are queued jobs that are
      connected, due and fit an empty machine. */
  ghost predicate IdleWithWork(c: Call, b: Books) {
    && Even(b) && AllCouldRun(c, b)
    && (forall k :: 0 <= k < |b.active| ==> !b.active[k].state.Running?)
    && exists k :: 0 <= k < |b.active| && b.active[k].state.Queued?
  }

  lemma NeverStuck(c: Call, b: Books, finished: seq<Job>, next: int)
    requires Sound(b)
    ensures IdleWithWork(c, b) && OnRoster(b.active, finished, next) ==> !Exhausted(c, b)
  {
    hide Sound, OnRoster, Exhausted, AllCouldRun, Even;
    if IdleWithWork(c, b) && OnRoster(b.active, finished, next) {
      NoDeadlock(c, b, finished, next);
    }
  }
}
