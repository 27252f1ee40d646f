/** The clocks of all jobs while the server answers requests. */
module ServerClock {
  import opened JobRecord
  import opened SlotBooks
  import opened SlotMoves
  import opened Dispatch
  import opened Requests
  import opened UserRequests

  /** A pause is open exactly while the job is paused. */
  predicate InStep(j: Job) {
    j.state.Paused? <==> j.pauseTime != 0
  }

  /** The limit without its sign is the same, or has grown by whole days. */
  predicate Longer(x: Job, y: Job, late: bool) {
    if late then Abs(x.wall) <= Abs(y.wall) && (Abs(y.wall) - Abs(x.wall)) % 86400 == 0 else Abs(y.wall) == Abs(x.wall)
  }

  lemma LongerTwice(x: Job, y: Job, z: Job, late: bool)
    requires Longer(x, y, late) && Longer(y, z, late)
    ensures Longer(x, z, late)
  {
  }

  /** What is done to a job at time `now` does not move its readings at `now`; the
      clock never shows 0, which stands for no pause. A limit grows only while the work
      time exceeds it. */
  predicate Ticks(x: Job, y: Job, now: int, late: bool) {
    && y.id == x.id && y.user == x.user && y.slots == x.slots && y.deps == x.deps && y.pid == x.pid && Longer(x, y, late)
    && (now != 0 && InStep(x) ==>
          && InStep(y)
          && (x.start != 0 ==>
                && y.start == x.start && WorkTime(y, now) == WorkTime(x, now) && PauseTime(y, now) == PauseTime(x, now)
                && (Abs(y.wall) > Abs(x.wall) ==> WorkTime(x, now) > Abs(y.wall) - 86400 && WorkTime(x, now) > 2)))
  }

  predicate SameClock(x: Job, y: Job) {
    && y.id == x.id && y.user == x.user && y.slots == x.slots && y.deps == x.deps && y.pid == x.pid
    && y.start == x.start && y.pauseTime == x.pauseTime && y.pauseDur == x.pauseDur
    && (y.state.Paused? <==> x.state.Paused?) && Abs(y.wall) == Abs(x.wall)
  }

  /** A job that was there before, or one with a new id. */
  ghost predicate Stems(s: seq<Job>, y: Job, now: int, next: int, late: bool) {
    (exists i :: 0 <= i < |s| && Ticks(s[i], y, now, late)) || (y.id >= next && (now != 0 ==> InStep(y)))
  }

  ghost predicate Ticked(s: seq<Job>, t: seq<Job>, now: int, next: int, late: bool) {
    forall k :: 0 <= k < |t| ==> Stems(s, t[k], now, next, late)
  }

  ghost predicate ClockOf(s: seq<Job>, y: Job) {
    exists i :: 0 <= i < |s| && SameClock(s[i], y)
  }

  /** No clock is touched; jobs may leave. */
  ghost predicate ClocksKept(s: seq<Job>, t: seq<Job>) {
    forall k :: 0 <= k < |t| ==> ClockOf(s, t[k])
  }

  lemma KeptTicks(s: seq<Job>, t: seq<Job>, now: int, next: int, late: bool)
    requires ClocksKept(s, t)
    ensures Ticked(s, t, now, next, late)
  {
    forall k | 0 <= k < |t|
      ensures Stems(s, t[k], now, next, late)
    {
      assert ClockOf(s, t[k]);
      var i :| 0 <= i < |s| && SameClock(s[i], t[k]);
      assert Ticks(s[i], t[k], now, late);
    }
  }

  lemma TickedStill(s: seq<Job>, now: int, next: int, late: bool)
    ensures Ticked(s, s, now, next, late)
  {
    forall k | 0 <= k < |s|
      ensures Stems(s, s[k], now, next, late)
    {
      assert Ticks(s[k], s[k], now, late);
    }
  }

  lemma TickedTwice(s: seq<Job>, t: seq<Job>, r: seq<Job>, now: int, next: int, later: int, late: bool)
    requires Ticked(s, t, now, next, late) && Ticked(t, r, now, later, late) && next <= later
    ensures Ticked(s, r, now, next, late)
  {
    hide WorkTime, PauseTime, InStep, Longer;
    forall k | 0 <= k < |r|
      ensures Stems(s, r[k], now, next, late)
    {
      assert Stems(t, r[k], now, later, late);
      if i :| 0 <= i < |t| && Ticks(t[i], r[k], now, late) {
        assert Stems(s, t[i], now, next, late);
        if j :| 0 <= j < |s| && Ticks(s[j], t[i], now, late) {
          LongerTwice(s[j], t[i], r[k], late);
          assert Ticks(s[j], r[k], now, late);
        }
      }
    }
  }

  ghost predicate AllInStep(s: seq<Job>) {
    forall k :: 0 <= k < |s| ==> InStep(s[k])
  }

  lemma TickedInStep(s: seq<Job>, t: seq<Job>, now: int, next: int, late: bool)
    requires Ticked(s, t, now, next, late) && AllInStep(s) && now != 0
    ensures AllInStep(t)
  {
    forall k | 0 <= k < |t|
      ensures InStep(t[k])
    {
      assert Stems(s, t[k], now, next, late);
    }
  }

  /** Between requests one reading grows with the clock and the other stands. */
  lemma TimeGoesBy(j: Job, from: int, until: int)
    requires InStep(j)
    ensures WorkTime(j, until) == WorkTime(j, from) + if j.state.Paused? then 0 else until - from
    ensures PauseTime(j, until) == PauseTime(j, from) + if j.state.Paused? then until - from else 0
  {
  }

  lemma TickedLate(s: seq<Job>, t: seq<Job>, now: int, next: int)
    requires Ticked(s, t, now, next, false)
    ensures Ticked(s, t, now, next, true)
  {
    forall k | 0 <= k < |t|
      ensures Stems(s, t[k], now, next, true)
    {
      assert Stems(s, t[k], now, next, false);
      if i :| 0 <= i < |s| && Ticks(s[i], t[k], now, false) {
        assert Ticks(s[i], t[k], now, true);
      }
    }
  }

  // ---------- requests ----------

  lemma TickedInPlace(s: seq<Job>, t: seq<Job>, now: int, next: int, late: bool)
    requires |s| == |t| && forall i :: 0 <= i < |s| ==> Ticks(s[i], t[i], now, late)
    ensures Ticked(s, t, now, next, late)
  {
  }

  lemma TickedReplaced(s: seq<Job>, i: nat, y: Job, now: int, next: int, late: bool)
    requires i < |s| && Ticks(s[i], y, now, late)
    ensures Ticked(s, s[i := y], now, next, late)
  {
    hide WorkTime, PauseTime;
    forall k | 0 <= k < |s|
      ensures Ticks(s[k], s[i := y][k], now, late)
    {
    }
    TickedInPlace(s, s[i := y], now, next, late);
  }

  lemma KeptAmong(s: seq<Job>, t: seq<Job>)
    requires forall k :: 0 <= k < |t| ==> t[k] in s
    ensures ClocksKept(s, t)
  {
    forall k | 0 <= k < |t|
      ensures ClockOf(s, t[k])
    {
      var i :| 0 <= i < |s| && s[i] == t[k];
      assert SameClock(s[i], t[k]);
    }
  }

  lemma KeptShape(s: seq<Job>, t: seq<Job>)
    requires SameShape(s, t)
    ensures ClocksKept(s, t)
  {
    forall k | 0 <= k < |t|
      ensures ClockOf(s, t[k])
    {
      assert SameClock(s[k], t[k]);
    }
  }

  lemma KeptTwice(s: seq<Job>, t: seq<Job>, r: seq<Job>)
    requires ClocksKept(s, t) && ClocksKept(t, r)
    ensures ClocksKept(s, r)
  {
    forall k | 0 <= k < |r|
      ensures ClockOf(s, r[k])
    {
      assert ClockOf(t, r[k]);
      var i :| 0 <= i < |t| && SameClock(t[i], r[k]);
      assert ClockOf(s, t[i]);
      var j :| 0 <= j < |s| && SameClock(s[j], t[i]);
      assert SameClock(s[j], r[k]);
    }
  }

  lemma KeptStill(s: seq<Job>)
    ensures ClocksKept(s, s)
  {
    KeptAmong(s, s);
  }

  lemma KeptReordered(s: seq<Job>, t: seq<Job>)
    requires Reordered(s, t)
    ensures ClocksKept(s, t)
  {
    KeptAmong(s, t);
  }

  lemma KeptWithout(s: seq<Job>, i: nat)
    requires i < |s|
    ensures ClocksKept(s, s[..i] + s[i + 1..])
  {
    KeptAmong(s, s[..i] + s[i + 1..]);
  }

  lemma KeptEnded(b: Books, i: nat, e: int)
    requires i < |b.active| && b.active[i].user < |b.users|
    ensures ClocksKept(b.active, Ended(b, i, e).active)
  {
    EndedShape(b, i, e);
    hide Ended;
    KeptWithout(b.active, i);
    KeptShape(b.active[..i] + b.active[i + 1..], Ended(b, i, e).active);
    KeptTwice(b.active, b.active[..i] + b.active[i + 1..], Ended(b, i, e).active);
  }

  lemma TickedEnded(s: seq<Job>, b: Books, i: nat, e: int, now: int, next: int, late: bool)
    requires i < |b.active| && b.active[i].user < |b.users| && Ticked(s, b.active, now, next, late)
    ensures Ticked(s, Ended(b, i, e).active, now, next, late)
  {
    hide Ended, Ticked, ClocksKept;
    KeptEnded(b, i, e);
    KeptTicks(b.active, Ended(b, i, e).active, now, next, late);
    TickedTwice(s, b.active, Ended(b, i, e).active, now, next, next, late);
  }

  lemma KeptReplaced(s: seq<Job>, i: nat, y: Job)
    requires i < |s| && SameClock(s[i], y)
    ensures ClocksKept(s, s[i := y])
  {
    var t := s[i := y];
    forall k | 0 <= k < |t|
      ensures ClockOf(s, t[k])
    {
      assert SameClock(s[k], t[k]);
    }
  }

  lemma TickedChecked(s: seq<Job>, t: seq<Job>, now: int, next: int)
    requires AllChecked(s, t, now)
    ensures Ticked(s, t, now, next, true)
  {
    forall k | 0 <= k < |t|
      ensures Stems(s, t[k], now, next, true)
    {
      assert ImageOf(s, t[k], now);
      var i :| 0 <= i < |s| && t[k] == Checked(s[i], now);
      assert Ticks(s[i], t[k], now, true);
    }
  }

  lemma TickedPaused(s: seq<Job>, t: seq<Job>, u: nat, now: int, next: int, late: bool)
    requires PausedUpTo(s, t, u, |s|, now)
    ensures Ticked(s, t, now, next, late)
  {
    forall i | 0 <= i < |s|
      ensures Ticks(s[i], t[i], now, late)
    {
    }
    TickedInPlace(s, t, now, next, late);
  }

  lemma TickedExamined(s: seq<Job>, t: seq<Job>, env: Env, next: int, late: bool)
    requires ExaminedUpTo(s, t, |s|, env)
    ensures Ticked(s, t, env.now, next, late)
  {
    forall i | 0 <= i < |s|
      ensures Ticks(s[i], t[i], env.now, late)
    {
    }
    TickedInPlace(s, t, env.now, next, late);
  }

  lemma TickedHeld(b: Books, i: nat, u: nat, now: int, next: int, late: bool)
    requires i < |b.active| && b.active[i].user < |b.users|
    ensures Ticked(b.active, HeldBack(b, i, u, now).active, now, next, late)
  {
    var p := b.active[i];
    assert !p.state.Paused? ==> Ticks(p, Stopped(p, now), now, late);
    hide Ticked, Stopped, Ticks;
    TickedStill(b.active, now, next, late);
    KeptTicked(b.active, i, p.(wall := Abs(p.wall)), now, next, late);
    if p.state.Queued? {
      KeptTicked(b.active, i, p.(state := Locked), now, next, late);
    }
    if !p.state.Paused? {
      TickedReplaced(b.active, i, Stopped(p, now), now, next, late);
    }
  }

  lemma TickedContinued(b: Books, i: nat, u: nat, maxSlots: int, now: int, cpus: nat, binding: bool, next: int, late: bool)
    requires i < |b.active| && b.active[i].user < |b.users|
    ensures Ticked(b.active, Continued(b, i, u, maxSlots, now, cpus, binding).active, now, next, late)
  {
    var p := b.active[i];
    var c := b.(active := b.active[i := p.(wall := Abs(p.wall))]);
    hide Start, Ticked, ClocksKept;
    TickedStill(b.active, now, next, late);
    KeptTicked(b.active, i, p.(wall := Abs(p.wall)), now, next, late);
    KeptTicked(b.active, i, p.(wall := -Abs(p.wall)), now, next, late);
    if p.state.Locked? {
      KeptTicked(b.active, i, p.(state := Queued), now, next, late);
    }
    TickedStart(c, i, now, cpus, binding, next, late);
    TickedTwice(b.active, c.active, Start(c, i, now, cpus, binding).active, now, next, next, late);
  }

  lemma KeptTicked(s: seq<Job>, i: nat, y: Job, now: int, next: int, late: bool)
    requires i < |s| && SameClock(s[i], y)
    ensures Ticked(s, s[i := y], now, next, late)
  {
    KeptReplaced(s, i, y);
    KeptTicks(s, s[i := y], now, next, late);
  }

  /** A job with a day more, as a relegation leaves it. */
  function DayMore(j: Job): Job {
    j.(wall := Abs(j.wall) + 86400)
  }

  lemma TickedDemoted(b: Books, i: nat, now: int, next: int)
    requires i < |b.active| && b.active[i].user < |b.users| && (b.active[i].state.Running? || b.active[i].state.Paused?)
    ensures Ticked(b.active[i := DayMore(b.active[i])], Demoted(b, i, now).active, now, next, false)
  {
    var x, y := DayMore(b.active[i]), Relegated(b.active[i], now);
    assert Ticks(x, y, now, false);
    var s := b.active[i := x];
    var t := b.active[i := y];
    TickedReplaced(s, i, y, now, next, false);
    assert s[i := y] == t && t[i] == y;
    hide Relegated, Ticks;
    var r := (t[..i] + t[i + 1..]) + [t[i]];
    KeptAmong(t, r);
    KeptTicks(t, r, now, next, false);
    TickedTwice(s, t, r, now, next, next, false);
  }

  lemma TickedConfirmed(b: Books, i: nat, pid: int, now: int, cpus: nat, binding: bool, next: int, late: bool)
    requires i < |b.active|
    ensures Ticked(b.active[i := b.active[i].(pid := pid)], b.active[i := Confirmed(b, i, pid, now, cpus, binding)], now, next, late)
  {
    hide BoundTo;
    var s, y := b.active[i := b.active[i].(pid := pid)], Confirmed(b, i, pid, now, cpus, binding);
    assert Ticks(s[i], y, now, late);
    TickedReplaced(s, i, y, now, next, late);
    assert s[i := y] == b.active[i := y];
  }

  lemma TickedStart(b: Books, i: nat, now: int, cpus: nat, binding: bool, next: int, late: bool)
    requires i < |b.active| && b.active[i].user < |b.users|
    ensures Ticked(b.active, Start(b, i, now, cpus, binding).active, now, next, late)
  {
    hide BoundTo;
    var y := Start(b, i, now, cpus, binding).active[i];
    assert Ticks(b.active[i], y, now, late);
    TickedReplaced(b.active, i, y, now, next, late);
  }

  lemma TickedStep(c: Call, a: Books, b: Books, next: int, late: bool)
    requires StepOf(c, a, b)
    ensures Ticked(a.active, b.active, c.env.now, next, late)
  {
    var i: nat :| Launches(c, a, b, i) || Wakes(a, b, i);
    hide Startable, Overlooked;
    if Launches(c, a, b, i) {
      var d := if a.active[i].state.Queued? then a.(users := Dequeue(a.users, a.active[i].user)) else a;
      TickedStart(d, i, c.env.now, c.cpus, c.binding, next, late);
    } else {
      KeptReplaced(a.active, i, a.active[i].(state := Queued));
      KeptTicks(a.active, b.active, c.env.now, next, late);
    }
  }

  lemma {:induction false} TickedPath(c: Call, p: seq<Books>, next: int, late: bool)
    requires Path(c, p)
    ensures Ticked(p[0].active, p[|p| - 1].active, c.env.now, next, late)
    decreases |p|
  {
    hide StepOf, Ticked;
    var n := |p| - 1;
    if n == 0 {
      TickedStill(p[0].active, c.env.now, next, late);
    } else {
      TickedPath(c, p[..n], next, late);
      assert StepOf(c, p[n - 1], p[n]);
      TickedStep(c, p[n - 1], p[n], next, late);
      TickedTwice(p[0].active, p[n - 1].active, p[n].active, c.env.now, next, next, late);
    }
  }

  lemma TickedPassed(c: Call, path: seq<Books>, a: Books, b: Books, next: int, late: bool)
    requires Passed(c, path, a, b)
    ensures Ticked(a.active, b.active, c.env.now, next, late)
  {
    TickedPath(c, path, next, late);
  }

  /** A new job joins with a clock that has not started. */
  lemma TickedJoined(s: seq<Job>, t: seq<Job>, id: int, u: nat, m: NewJob, maxWall: int, room: bool, now: int, late: bool)
    requires |t| == |s| + 1 && SameBody(s, t[..|s|]) && (forall k :: 0 <= k < |s| ==> t[k].deps == s[k].deps) && Fresh(t[|s|], id, u, m, maxWall, room)
    ensures Ticked(s, t, now, id, late)
  {
    forall k | 0 <= k < |t|
      ensures Stems(s, t[k], now, id, late)
    {
      if k < |s| {
        assert t[..|s|][k] == t[k];
        assert Ticks(s[k], t[k], now, late);
      }
    }
  }
}
