/** The functions that compute the next state keep the promises. */
module PromisesKept {
  import opened JobRecord
  import opened SlotBooks
  import opened SlotMoves
  import opened Dispatch
  import opened Requests
  import opened UserRequests
  import opened Promises
  import opened ServerClock
  import opened ServerBinding
  import opened JobTable

  // ---------- time-outs ----------

  lemma TimedOutIs(j: Job, now: int)
    ensures TimedOut(j, now) <==> Overdue(j, now)
    ensures TimedOut(j, now) ==> j.state.Running?
    ensures j.state.Running? || j.state.Paused? ==> PutOff(j, Relegated(j, now), now)
  {
  }

  lemma CheckedKept(s: seq<Job>, t: seq<Job>, now: int)
    requires AllChecked(s, t, now)
    ensures Timeouts(s, t, now)
  {
    hide TimedOut, Overdue, Relegated, PutOff;
    forall k | 0 <= k < |s|
      ensures OneTimed(s[k], t, now)
    {
      TimedOutIs(s[k], now);
      var y := Checked(s[k], now);
      assert y in t;
      var i :| 0 <= i < |t| && t[i] == y;
      RelegatedId(s[k], now);
    }
  }

  lemma LateIsOverdue(s: seq<Job>, now: int)
    ensures SomeLate(s, now) <==> exists k :: 0 <= k < |s| && Overdue(s[k], now)
  {
    hide TimedOut, Overdue;
    forall k | 0 <= k < |s|
      ensures TimedOut(s[k], now) <==> Overdue(s[k], now)
    {
      TimedOutIs(s[k], now);
    }
  }

  /** Every overdue job that is still there has got a day. */
  ghost predicate LateServed(s: seq<Job>, t: seq<Job>, now: int) {
    forall k, i :: 0 <= k < |s| && 0 <= i < |t| && t[i].id == s[k].id && Overdue(s[k], now) ==> Size(t[i].wall) >= Size(s[k].wall) + 86400
  }

  lemma LateServedAtOnce(s: seq<Job>, t: seq<Job>, now: int)
    requires Timeouts(s, t, now) && DistinctIds(t)
    ensures LateServed(s, t, now)
  {
    hide Overdue;
    forall k, i | 0 <= k < |s| && 0 <= i < |t| && t[i].id == s[k].id && Overdue(s[k], now)
      ensures Size(t[i].wall) >= Size(s[k].wall) + 86400
    {
      assert OneTimed(s[k], t, now);
      var j :| 0 <= j < |t| && t[j].id == s[k].id && PutOff(s[k], t[j], now);
      assert i == j;
    }
  }

  lemma LateServedStill(s: seq<Job>, b: seq<Job>, t: seq<Job>, now: int, next: int)
    requires LateServed(s, b, now) && Ticked(b, t, now, next, true) && forall k :: 0 <= k < |s| ==> s[k].id < next
    ensures LateServed(s, t, now)
  {
    hide Overdue;
    forall k, i | 0 <= k < |s| && 0 <= i < |t| && t[i].id == s[k].id && Overdue(s[k], now)
      ensures Size(t[i].wall) >= Size(s[k].wall) + 86400
    {
      var j := StemFrom(b, t, now, next, i);
      hide Ticked, LateServed;
      StillLonger(b[j], t[i], now);
    }
  }

  lemma StillLonger(x: Job, y: Job, now: int)
    requires Ticks(x, y, now, true)
    ensures y.id == x.id && Size(y.wall) >= Size(x.wall)
  {
  }

  // ---------- a restart ----------

  lemma RestoredKept(row: Job, env: Env)
    ensures Restored(row, env).Some? <==> Restorable(row, env)
    ensures Restored(row, env).Some? ==> TakenUp(row, Restored(row, env).job, env)
  {
  }

  lemma {:induction false} LoadedKept(rows: seq<Job>, env: Env)
    ensures AllTakenUp(rows, Loaded(rows, env), env)
    decreases |rows|
  {
    hide Restored, Restorable, TakenUp;
    if rows != [] {
      var n := |rows| - 1;
      var s, r, t := Loaded(rows[..n], env), Restored(rows[n], env), Loaded(rows, env);
      LoadedKept(rows[..n], env);
      RestoredKept(rows[n], env);
      assert t == s + if r.Some? then [r.job] else [];
      forall k | 0 <= k < |rows| && Restorable(rows[k], env)
        ensures TakenFrom(rows[k], t, env)
      {
        if k < n {
          assert rows[..n][k] == rows[k] && TakenFrom(rows[..n][k], s, env);
          var i :| 0 <= i < |s| && TakenUp(rows[k], s[i], env);
          assert t[i] == s[i];
        } else {
          assert t[|s|] == r.job;
        }
      }
      forall i | 0 <= i < |t|
        ensures OfRow(rows, t[i], env)
      {
        if i < |s| {
          assert t[i] == s[i] && OfRow(rows[..n], s[i], env);
          var k :| 0 <= k < n && Restorable(rows[..n][k], env) && TakenUp(rows[..n][k], s[i], env);
          assert rows[k] == rows[..n][k];
        } else {
          assert t[i] == r.job && Restorable(rows[n], env);
        }
      }
    }
  }

  // ---------- holding and continuing ----------

  lemma HeldKept(b: Books, i: nat, u: nat, now: int)
    requires i < |b.active| && b.active[i].user < |b.users| && u < |b.users|
    ensures HoldDone(b, HeldBack(b, i, u, now), i, u, now)
  {
  }

  lemma ContinuedKept(b: Books, i: nat, u: nat, maxSlots: int, now: int, cpus: nat, binding: bool)
    requires i < |b.active| && b.active[i].user < |b.users| && u < |b.users|
    ensures ContDone(b, Continued(b, i, u, maxSlots, now, cpus, binding), i, u, maxSlots, now)
  {
    hide BoundTo;
  }

  /** Continuing undoes holding a queued job. */
  lemma HoldThenCont(b: Books, i: nat, u: nat, maxSlots: int, now: int, later: int, cpus: nat, binding: bool)
    requires i < |b.active| && b.active[i].user < |b.users| && b.active[i].state.Queued? && Mine(b.users, u, b.active[i])
    ensures HeldBack(b, i, u, now).active[i].state.Locked?
    ensures Continued(HeldBack(b, i, u, now), i, u, maxSlots, later, cpus, binding) == b
  {
    var c := HeldBack(b, i, u, now);
    var d := Continued(c, i, u, maxSlots, later, cpus, binding);
    assert d.users == b.users && d.active == b.active;
  }

  lemma PausedKept(s: seq<Job>, t: seq<Job>, u: nat, now: int)
    requires PausedUpTo(s, t, u, |s|, now)
    ensures AllHalted(s, t, u, now)
  {
  }

  lemma ResumedKept(s: seq<Job>, t: seq<Job>, u: nat, now: int)
    requires ResumedUpTo(s, t, u, |s|, now)
    ensures AllGoing(s, t, u, now)
  {
  }

  lemma StartKept(b: Books, i: nat, now: int, cpus: nat, binding: bool)
    requires i < |b.active| && b.active[i].user < |b.users|
    ensures OthersSame(b.active, Start(b, i, now, cpus, binding).active, i)
    ensures Going(b.active[i], Start(b, i, now, cpus, binding).active[i], now)
    ensures SlotsMoved(b, Start(b, i, now, cpus, binding), b.active[i].user, b.active[i].slots, 1)
  {
    hide BoundTo;
  }

  lemma ExaminedKept(s: seq<Job>, t: seq<Job>, env: Env)
    requires ExaminedUpTo(s, t, |s|, env)
    ensures AllExamined(s, t, env)
  {
  }

  lemma DeadIs(j: Job, env: Env)
    ensures Dead(env, j) <==> Lifeless(j, env)
  {
  }

  /** No lifeless job is left, and whoever has left was lifeless. */
  lemma BuriedKept(env: Env, s: seq<Job>, t: seq<Job>)
    requires NoneDead(env, t, 0) && Survive(env, s, t)
    ensures forall k :: 0 <= k < |t| ==> !Lifeless(t[k], env)
    ensures forall k :: 0 <= k < |s| && !Known(t, s[k].id) ==> Lifeless(s[k], env)
  {
    hide Dead, Lifeless;
    forall k | 0 <= k < |t|
      ensures !Lifeless(t[k], env)
    {
      DeadIs(t[k], env);
    }
    forall k | 0 <= k < |s| && !Known(t, s[k].id)
      ensures Lifeless(s[k], env)
    {
      DeadIs(s[k], env);
    }
  }

  /** No job of the user that has a process runs. */
  ghost predicate NoneAtWork(s: seq<Job>, u: nat) {
    forall k :: 0 <= k < |s| && s[k].user == u && s[k].state.Running? ==> s[k].pid == 0
  }

  lemma HaltedIdle(s: seq<Job>, t: seq<Job>, u: nat, now: int)
    requires AllHalted(s, t, u, now)
    ensures NoneAtWork(t, u)
  {
  }

  lemma RootStays(lim: Limits, a: Books, b: Books, c: Books)
    requires Steady(lim, a, c, {}) && Steady(lim, a, b, {})
    ensures RootIdle(a.users) ==> RootIdle(b.users) && RootIdle(c.users)
  {
    hide Sound, Exact, Quiet, KeepsBound;
  }

  lemma CapNegative(cap: int)
    ensures -Abs(cap) <= 0
  {
  }

  /** A user without slots that has no job at work gets none. */
  lemma StillNoWork(lim: Limits, a: Books, b: Books, u: nat, now: int, next: int, late: bool)
    requires Steady(lim, a, b, {}) && RootIdle(a.users) && u < |a.users| && a.users[u].cap <= 0 && NoneAtWork(a.active, u)
    requires Ticked(a.active, b.active, now, next, late) && DistinctIds(a.active) && forall k :: 0 <= k < |b.active| ==> b.active[k].id < next
    ensures NoneAtWork(b.active, u)
  {
    hide Sound, Exact, KeepsBound;
    assert RunningOf(b.active, u) <= RunningOf(a.active, u);
    forall k | 0 <= k < |b.active| && b.active[k].user == u && b.active[k].state.Running?
      ensures b.active[k].pid == 0
    {
      assert b.active[k].id in RunningOf(b.active, u);
      var i :| 0 <= i < |a.active| && a.active[i].state.Running? && a.active[i].user == u && a.active[i].id == b.active[k].id;
      assert Stems(a.active, b.active[k], now, next, late);
      var j :| 0 <= j < |a.active| && Ticks(a.active[j], b.active[k], now, late);
      assert i == j;
    }
  }

  /** The paused jobs of the users behind root and below n that have a process go on. */
  ghost predicate ResumedBelow(s: seq<Job>, t: seq<Job>, n: nat, now: int) {
    |s| == |t| && forall k :: 0 <= k < |s| ==>
      if 1 <= s[k].user < n && s[k].state.Paused? && s[k].pid != 0 then Going(s[k], t[k], now) else t[k] == s[k]
  }

  lemma ResumedNone(s: seq<Job>, now: int)
    ensures ResumedBelow(s, s, 1, now)
  {
  }

  lemma ResumedMore(s: seq<Job>, b: seq<Job>, t: seq<Job>, i: nat, now: int)
    requires ResumedBelow(s, b, i, now) && AllGoing(b, t, i, now) && i >= 1
    ensures ResumedBelow(s, t, i + 1, now)
  {
    forall k | 0 <= k < |s|
      ensures if 1 <= s[k].user < i + 1 && s[k].state.Paused? && s[k].pid != 0 then Going(s[k], t[k], now) else t[k] == s[k]
    {
      assert if b[k].user == i && b[k].state.Paused? && b[k].pid != 0 then Going(b[k], t[k], now) else t[k] == b[k];
    }
  }

  lemma ResumedFar(s: seq<Job>, t: seq<Job>, i: nat, n: nat, now: int)
    requires ResumedBelow(s, t, i, now) && (i == n || (i == 1 && n <= 1))
    ensures ResumedBelow(s, t, n, now)
  {
    hide Going;
  }

  // ---------- what can start ----------

  /** What next_run_job asks of a job, field by field. */
  lemma StartableIs(b: Books, maxSlots: int, env: Env, j: Job)
    ensures Startable(b, maxSlots, env, j) <==>
      && (j.state.Queued? || j.state.Paused?) && Timely(j, env)
      && j.user < |b.users| && b.busySlots + j.slots <= maxSlots && b.users[j.user].busy + j.slots <= b.users[j.user].cap
      && (j.state.Queued? ==> forall i :: 0 <= i < |b.active| && b.active[i].id in j.deps ==>
            !b.active[i].state.Queued? && !b.active[i].state.Running?)
  {
    ReadyIs(b.active, j);
    hide Ready;
  }

  lemma ReadyIs(active: seq<Job>, j: Job)
    ensures Ready(active, j) <==>
      forall i :: 0 <= i < |active| && active[i].id in j.deps ==> !active[i].state.Queued? && !active[i].state.Running?
  {
    if Ready(active, j) {
      forall i | 0 <= i < |active| && active[i].id in j.deps
        ensures !active[i].state.Queued? && !active[i].state.Running?
      {
        var k :| 0 <= k < |j.deps| && j.deps[k] == active[i].id;
        assert !Blocks(active, j.deps[k]);
      }
    } else {
      var k :| 0 <= k < |j.deps| && Blocks(active, j.deps[k]);
      var i :| 0 <= i < |active| && active[i].id == j.deps[k] && (active[i].state.Queued? || active[i].state.Running?);
    }
  }

  /** Not started: as it was, or woken. */
  predicate Waits1(x: Job, y: Job) {
    y == x || (x.state.Holding? && y == x.(state := Queued))
  }

  /** Each job waits as before, or was timely and goes on. */
  ghost predicate TimelyStarts(s: seq<Job>, t: seq<Job>, env: Env) {
    |s| == |t| && forall k :: 0 <= k < |s| ==> Waits1(s[k], t[k]) || (Timely(s[k], env) && !s[k].state.Running? && Going(s[k], t[k], env.now))
  }

  lemma TimelyStep(c: Call, s: seq<Job>, a: Books, b: Books)
    requires TimelyStarts(s, a.active, c.env) && StepOf(c, a, b)
    ensures TimelyStarts(s, b.active, c.env)
  {
    var i: nat :| Launches(c, a, b, i) || Wakes(a, b, i);
    hide Foremost, Overlooked;
    if Launches(c, a, b, i) {
      var x := a.active[i];
      StartableIs(a, c.maxSlots, c.env, x);
      var d := if x.state.Queued? then a.(users := Dequeue(a.users, x.user)) else a;
      StartKept(d, i, c.env.now, c.cpus, c.binding);
      hide Startable, Start, Going;
      assert !x.state.Running?;
      NotGoing(s[i], x, c.env.now);
      GoingFrom(s[i], x, b.active[i], c.env.now);
    } else {
      WakeTimely(c, s, a, b, i);
    }
  }

  lemma NotGoing(x: Job, y: Job, now: int)
    requires !y.state.Running?
    ensures !Going(x, y, now)
  {
  }

  lemma GoingFrom(x: Job, y: Job, z: Job, now: int)
    requires Waits1(x, y) && Going(y, z, now) && !y.state.Holding?
    ensures Going(x, z, now)
  {
  }

  lemma WakeTimely(c: Call, s: seq<Job>, a: Books, b: Books, i: nat)
    requires TimelyStarts(s, a.active, c.env) && Wakes(a, b, i)
    ensures TimelyStarts(s, b.active, c.env)
  {
    NotGoing(s[i], a.active[i], c.env.now);
    hide Going, Timely;
  }

  lemma {:induction false} TimelyPath(c: Call, p: seq<Books>)
    requires Path(c, p)
    ensures TimelyStarts(p[0].active, p[|p| - 1].active, c.env)
    decreases |p|
  {
    hide StepOf, Going, Timely;
    var n := |p| - 1;
    if n > 0 {
      TimelyPath(c, p[..n]);
      assert StepOf(c, p[n - 1], p[n]);
      TimelyStep(c, p[0].active, p[n - 1], p[n]);
    }
  }

  lemma TimelyPassed(c: Call, path: seq<Books>, a: Books, b: Books)
    requires Passed(c, path, a, b)
    ensures TimelyStarts(a.active, b.active, c.env)
  {
    TimelyPath(c, path);
  }

  lemma DemotedLast(b: Books, i: nat, now: int)
    requires i < |b.active| && b.active[i].user < |b.users| && (b.active[i].state.Running? || b.active[i].state.Paused?)
    ensures |Demoted(b, i, now).active| == |b.active|
    ensures PutOff(b.active[i], Demoted(b, i, now).active[|b.active| - 1], now)
  {
    TimedOutIs(b.active[i], now);
    hide Relegated, PutOff;
  }

  /** How many finished jobs are kept: the oldest goes when the shelf is full. */
  function Shelf(n: nat, max: nat): nat {
    if n >= max && n > 0 then n else n + 1
  }

  lemma RowsDeleted(rows: seq<Job>, env: Env, table: map<int, int>, next: int)
    requires Listed(rows, table, next)
    ensures forall k :: 0 <= k < |rows| ==>
      (rows[k].id in table - GoneIds(rows, env) <==> !rows[k].state.Running? || (rows[k].pid > 0 && rows[k].pid in env.alive))
  {
    forall k | 0 <= k < |rows|
      ensures rows[k].id in table - GoneIds(rows, env) <==> !rows[k].state.Running? || (rows[k].pid > 0 && rows[k].pid in env.alive)
    {
      assert Ids(rows)[k] in table;
      if !Gone(rows[k], env) {
        assert Stays(rows, env, rows[k].id);
        StaysListed(rows, env, rows[k].id, table);
      }
    }
  }

  // ---------- new, reported and changed jobs ----------

  /** A new job: what its client asked for, the smaller of the two limits, and queued
      if there is room for it. */
  predicate Newcomer(y: Job, id: int, u: nat, m: NewJob, maxWall: int, room: bool) {
    && y.id == id && y.user == u && y.slots == m.slots && y.sched == m.sched && y.client == m.client && y.noBinding == m.noBinding
    && y.wall <= m.wall && y.wall <= maxWall && (y.wall == m.wall || y.wall == maxWall)
    && y.state == (if room then Queued else Holding)
    && y.held == 0 && y.bound == 0 && y.pid == 0 && y.start == 0 && y.pauseTime == 0 && y.pauseDur == 0 && !y.healthy
  }

  lemma FreshKept(y: Job, id: int, u: nat, m: NewJob, maxWall: int, room: bool)
    requires Fresh(y, id, u, m, maxWall, room)
    ensures Newcomer(y, id, u, m, maxWall, room)
  {
  }

  lemma ConfirmedKept(b: Books, i: nat, pid: int, now: int, cpus: nat, binding: bool)
    requires i < |b.active|
    ensures var x, y := b.active[i], Confirmed(b, i, pid, now, cpus, binding);
      y == x.(pid := pid, bound := y.bound, start := if x.start == 0 then now else x.start)
  {
    hide BoundTo;
  }

  /** The 64-bit limit of s_add_wtime. */
  predicate Acceptable(wall: int, add: int) {
    Size(wall) + add > 0 && (add > 0 ==> Size(wall) + add <= 0x7FFF_FFFF_FFFF_FFFF)
  }

  /** A limit with its sign, further from 0 by `add`. */
  function Shifted(wall: int, add: int): int {
    if wall < 0 then wall - add else wall + add
  }

  lemma WallKept(j: Job, add: int)
    ensures WallAdded(j, add).Some? <==> Acceptable(j.wall, add)
    ensures WallAdded(j, add).Some? ==> WallAdded(j, add).job == j.(wall := Shifted(j.wall, add))
  {
  }

  // ---------- a restart, once more ----------

  /** What a row keeps for good: its limit can only have grown by whole days. */
  predicate SameBasics(row: Job, j: Job) {
    && j.id == row.id && j.user == row.user && j.slots == row.slots && j.deps == row.deps
    && Size(j.wall) >= Size(row.wall) && (Size(j.wall) - Size(row.wall)) % 86400 == 0
  }

  /** A job of this row is there. */
  ghost predicate Present(row: Job, s: seq<Job>) {
    exists i :: 0 <= i < |s| && SameBasics(row, s[i])
  }

  /** The row of a job. */
  ghost predicate Rooted(rows: seq<Job>, j: Job, env: Env) {
    exists k :: 0 <= k < |rows| && Restorable(rows[k], env) && SameBasics(rows[k], j)
  }

  /** Its process has gone while the server was down. */
  predicate Perished(row: Job, env: Env) {
    row.state.Paused? && row.pid > 0 && row.pid !in env.alive
  }

  /** Every row that can be taken up and has not perished has its job, and every job has
      its row. */
  ghost predicate Recovered(rows: seq<Job>, s: seq<Job>, env: Env) {
    && (forall k :: 0 <= k < |rows| && Restorable(rows[k], env) && !Perished(rows[k], env) ==> Present(rows[k], s))
    && (forall i :: 0 <= i < |s| ==> Rooted(rows, s[i], env))
  }

  /** Nothing for the first update to do: no row has overrun its limit or perished. */
  ghost predicate Undisturbed(rows: seq<Job>, env: Env) {
    forall k :: 0 <= k < |rows| && Restorable(rows[k], env) ==>
      !Perished(rows[k], env) && !(Overdue(rows[k], env.now) && rows[k].pauseTime <= 0)
  }

  lemma UndisturbedLoaded(rows: seq<Job>, env: Env)
    requires Undisturbed(rows, env)
    ensures !SomeLate(Loaded(rows, env), env.now) && NoneDead(env, Loaded(rows, env), 0)
  {
    LoadedKept(rows, env);
    var s := Loaded(rows, env);
    hide Loaded;
    LateIsOverdue(s, env.now);
    forall i | 0 <= i < |s|
      ensures !Overdue(s[i], env.now) && !Dead(env, s[i])
    {
      assert OfRow(rows, s[i], env);
      var k :| 0 <= k < |rows| && Restorable(rows[k], env) && TakenUp(rows[k], s[i], env);
    }
  }

  lemma AllUnclaimed(rows: seq<Job>, env: Env)
    ensures forall k :: 0 <= k < |Loaded(rows, env)| ==> Loaded(rows, env)[k].bound == 0
  {
    LoadedKept(rows, env);
    var s := Loaded(rows, env);
    hide Loaded, Restorable;
    forall k | 0 <= k < |s|
      ensures s[k].bound == 0
    {
      assert OfRow(rows, s[k], env);
    }
  }

  function Unbound(t: seq<Job>): seq<Job> {
    seq(|t|, k requires 0 <= k < |t| => t[k].(bound := 0))
  }

  lemma AsLeft(rows: seq<Job>, env: Env, t: seq<Job>, claims: seq<Claim>)
    requires Rebound(Loaded(rows, env), t, claims)
    ensures AllTakenUp(rows, Unbound(t), env)
  {
    LoadedKept(rows, env);
    AllUnclaimed(rows, env);
    var s := Loaded(rows, env);
    hide Loaded, Restorable;
    assert Unbound(t) == s;
  }

  /** Jobs of rows that had overrun their limit have got a day. */
  ghost predicate RowsServed(rows: seq<Job>, t: seq<Job>, env: Env) {
    forall k, i :: 0 <= k < |rows| && 0 <= i < |t| && t[i].id == rows[k].id && Overran(rows[k], env) ==>
      Size(t[i].wall) >= Size(rows[k].wall) + 86400
  }

  predicate Overran(row: Job, env: Env) {
    Restorable(row, env) && row.pauseTime <= 0 && Overdue(row, env.now)
  }

  lemma RowsServedBy(rows: seq<Job>, env: Env, s: seq<Job>, mid: seq<Job>, t: seq<Job>, claims: seq<Claim>)
    requires AllTakenUp(rows, s, env) && LateServed(s, mid, env.now) && NoneDead(env, mid, 0) && Rebound(mid, t, claims)
    ensures RowsServed(rows, t, env) && forall k :: 0 <= k < |t| ==> !Lifeless(t[k], env)
  {
    forall k | 0 <= k < |t|
      ensures !Lifeless(t[k], env)
    {
      DeadIs(mid[k], env);
    }
    hide Restorable, AllTakenUp, NoneDead;
    forall k, i | 0 <= k < |rows| && 0 <= i < |t| && t[i].id == rows[k].id && Overran(rows[k], env)
      ensures Size(t[i].wall) >= Size(rows[k].wall) + 86400
    {
      var j := TakenAt(rows, env, s, k);
      assert mid[i].id == s[j].id && Overdue(s[j], env.now) && t[i].wall == mid[i].wall;
    }
  }

  lemma TakenAt(rows: seq<Job>, env: Env, s: seq<Job>, k: nat) returns (j: nat)
    requires AllTakenUp(rows, s, env) && k < |rows| && Restorable(rows[k], env)
    ensures j < |s| && TakenUp(rows[k], s[j], env)
  {
    assert TakenFrom(rows[k], s, env);
    j :| 0 <= j < |s| && TakenUp(rows[k], s[j], env);
  }

  /** From the jobs as they were taken up to the jobs after the first update. */
  lemma RecoveredFrom(rows: seq<Job>, env: Env, s: seq<Job>, mid: seq<Job>, t: seq<Job>, next: int, claims: seq<Claim>)
    requires AllTakenUp(rows, s, env) && Survive(env, s, mid) && Ticked(s, mid, env.now, next, true)
    requires DistinctIds(s) && (forall k :: 0 <= k < |mid| ==> mid[k].id < next) && Rebound(mid, t, claims)
    ensures Recovered(rows, t, env)
  {
    hide Restorable, Survive, AllTakenUp;
    forall k | 0 <= k < |rows| && Restorable(rows[k], env) && !Perished(rows[k], env)
      ensures Present(rows[k], t)
    {
      PresentFrom(rows, env, s, mid, next, k);
      var i :| 0 <= i < |mid| && SameBasics(rows[k], mid[i]);
      assert SameBasics(rows[k], t[i]);
    }
    forall i | 0 <= i < |t|
      ensures Rooted(rows, t[i], env)
    {
      RootedFrom(rows, env, s, mid, next, i);
      var k :| 0 <= k < |rows| && Restorable(rows[k], env) && SameBasics(rows[k], mid[i]);
      assert SameBasics(rows[k], t[i]);
    }
  }

  lemma BasicsFrom(row: Job, x: Job, y: Job, env: Env)
    requires TakenUp(row, x, env) && Ticks(x, y, env.now, true)
    ensures SameBasics(row, y)
  {
  }

  lemma StemFrom(s: seq<Job>, mid: seq<Job>, now: int, next: int, i: nat) returns (j: nat)
    requires Ticked(s, mid, now, next, true) && i < |mid| && mid[i].id < next
    ensures j < |s| && Ticks(s[j], mid[i], now, true)
  {
    assert Stems(s, mid[i], now, next, true);
    j :| 0 <= j < |s| && Ticks(s[j], mid[i], now, true);
  }

  lemma RootedFrom(rows: seq<Job>, env: Env, s: seq<Job>, mid: seq<Job>, next: int, i: nat)
    requires AllTakenUp(rows, s, env) && Ticked(s, mid, env.now, next, true) && i < |mid| && mid[i].id < next
    ensures Rooted(rows, mid[i], env)
  {
    hide Ticked, Restorable;
    var j := StemFrom(s, mid, env.now, next, i);
    assert OfRow(rows, s[j], env);
    var k :| 0 <= k < |rows| && Restorable(rows[k], env) && TakenUp(rows[k], s[j], env);
    BasicsFrom(rows[k], s[j], mid[i], env);
  }

  lemma PresentFrom(rows: seq<Job>, env: Env, s: seq<Job>, mid: seq<Job>, next: int, k: nat)
    requires AllTakenUp(rows, s, env) && Survive(env, s, mid) && Ticked(s, mid, env.now, next, true) && DistinctIds(s)
    requires (forall i :: 0 <= i < |mid| ==> mid[i].id < next) && k < |rows| && Restorable(rows[k], env) && !Perished(rows[k], env)
    ensures Present(rows[k], mid)
  {
    hide Ticked, Ticks;
    assert TakenFrom(rows[k], s, env);
    var i :| 0 <= i < |s| && TakenUp(rows[k], s[i], env);
    assert !Dead(env, s[i]);
    var q :| 0 <= q < |mid| && mid[q].id == s[i].id;
    var j := StemFrom(s, mid, env.now, next, q);
    TickedId(s[j], mid[q], env.now);
    assert j == i;
    BasicsFrom(rows[k], s[i], mid[q], env);
  }

  lemma TickedId(x: Job, y: Job, now: int)
    requires Ticks(x, y, now, true)
    ensures y.id == x.id
  {
  }

  // ---------- counting anew ----------

  lemma {:induction false} RestCounted(s: seq<Job>, u: nat)
    ensures Sum(s, Others(u)) == |AtRest(s, u)|
  {
    if s == [] {
      assert AtRest(s, u) == {};
    } else {
      var n, t := |s| - 1, s[..|s| - 1];
      RestCounted(t, u);
      if s[n].user == u && !s[n].state.Running? {
        assert AtRest(s, u) == AtRest(t, u) + {n};
      } else {
        assert AtRest(s, u) == AtRest(t, u);
      }
    }
  }

  lemma {:induction false} WorkCounted(s: seq<Job>, u: nat)
    ensures Sum(s, Runs(u)) == |AtWork(s, u)|
  {
    if s == [] {
      assert AtWork(s, u) == {};
    } else {
      var n, t := |s| - 1, s[..|s| - 1];
      WorkCounted(t, u);
      if s[n].user == u && s[n].state.Running? {
        assert AtWork(s, u) == AtWork(t, u) + {n};
      } else {
        assert AtWork(s, u) == AtWork(t, u);
      }
    }
  }

  lemma TalliedKept(users: seq<User>, usage: int, s: seq<Job>)
    requires Tallied(users, usage, s)
    ensures Recounted(users, s)
  {
    hide Sum, AtRest, AtWork;
    forall u | 0 <= u < |users|
      ensures users[u].queue == |AtRest(s, u)| && users[u].jobs == |AtWork(s, u)|
    {
      RestCounted(s, u);
      WorkCounted(s, u);
      assert Reading(users, usage, Waits(u)) == Sum(s, Asked(Waits(u)));
      assert Reading(users, usage, Runs(u)) == Sum(s, Asked(Runs(u)));
    }
  }

  // ---------- dependencies ----------

  /** What one requested dependency stands for: the job named, or for -1 the newest
      job in the queue unless a later one has ended, else the newest stored job. An
      active job is awaited. A stored one passes its error level on at once, a job
      that is not known counts as failed, and without a job to wait for the last
      error level counts unless a newer job is stored. */
  ghost predicate StandsFor(p: Past, d: int, target: int, awaited: seq<int>, e: int) {
    if d != -1 then
      && target == d
      && (Has(p.active, d) ==> awaited == [d] && e == 0)
      && (!Has(p.active, d) ==> awaited == [])
      && (!Has(p.active, d) && !Has(p.finished, d) ==> e == 1)
      && (!Has(p.active, d) ==> forall k :: 0 <= k < |p.finished| && p.finished[k].id == d ==> e == Size(p.finished[k].err))
    else if exists m :: Newest(p.active, m) && p.lastFinished <= m then
      Newest(p.active, target) && awaited == [target] && e == 0
    else
      && awaited == [] && (if p.finished == [] then target == -1 else Newest(p.finished, target))
      && (target <= p.lastFinished || p.finished == [] ==> e == Size(p.lastErr))
      && (target > p.lastFinished ==> forall k :: 0 <= k < |p.finished| && p.finished[k].id == target ==> e == Size(p.finished[k].err))
  }

  ghost predicate Has(s: seq<Job>, id: int) {
    exists k :: 0 <= k < |s| && s[k].id == id
  }

  /** The largest id there is. */
  ghost predicate Newest(s: seq<Job>, m: int) {
    Has(s, m) && forall k :: 0 <= k < |s| ==> s[k].id <= m
  }

  lemma {:induction false} LargestFound(s: seq<Job>)
    requires forall k :: 0 <= k < |s| ==> s[k].id > 0
    ensures if s == [] then LargestId(s) == -1 else Newest(s, LargestId(s))
  {
    if s != [] {
      var r := s[..|s| - 1];
      LargestFound(r);
      if r != [] && s[|s| - 1].id <= LargestId(r) {
        var k :| 0 <= k < |r| && r[k].id == LargestId(r);
        assert s[k].id == LargestId(s);
      } else {
        assert s[|s| - 1].id == LargestId(s);
      }
      forall k | 0 <= k < |s|
        ensures s[k].id <= LargestId(s)
      {
        assert k < |r| ==> s[k] == r[k];
      }
    }
  }

  lemma ErrsAre(f: seq<Job>, d: int)
    requires DistinctIds(f)
    ensures forall k :: 0 <= k < |f| && f[k].id == d ==> ErrOf(f, d) == f[k].err
  {
    forall k | 0 <= k < |f| && f[k].id == d
      ensures ErrOf(f, d) == f[k].err
    {
      ErrIs(f, k);
    }
  }

  /** The dependency taken up is the one asked for. */
  lemma DependencyIs(p: Past, d: int)
    requires DistinctIds(p.finished) && (forall k :: 0 <= k < |p.active| ==> p.active[k].id > 0)
    requires forall k :: 0 <= k < |p.finished| ==> p.finished[k].id > 0
    ensures StandsFor(p, d, TargetOf(p, d), AwaitedFor(p, d), InheritedFrom(p, d))
  {
    hide LargestId, ErrOf, DistinctIds;
    ErrsAre(p.finished, TargetOf(p, d));
    if d == -1 {
      LargestFound(p.active);
      LargestFound(p.finished);
      if m :| Newest(p.active, m) && p.lastFinished <= m {
        assert Newest(p.active, LargestId(p.active));
      }
    }
  }
}
