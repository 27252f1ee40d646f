/** What the program promises of its records, said field by field and without the
    functions that compute the next state. */
module Promises {
  import opened JobRecord
  import opened SlotBooks

  /** A number without its sign. */
  function Size(w: int): int {
    if w < 0 then -w else w
  }

  // ---------- one job ----------

  /** The job has worked longer than its limit, and longer than two seconds. */
  predicate Overdue(j: Job, now: int) {
    var worked := now - j.start - j.pauseDur;
    j.state.Running? && j.pid != 0 && worked > Size(j.wall) && worked > 2
  }

  /** Slots and CPUs are given back, and a pause is open. */
  predicate Halted(x: Job, y: Job, now: int) {
    y == x.(state := Paused, held := 0, bound := 0, pauseTime := if x.pauseTime == 0 then now else x.pauseTime)
  }

  /** Paused, with a day more and the sign of a job that waits. */
  predicate PutOff(x: Job, y: Job, now: int) {
    && y.wall == -(Size(x.wall) + 86400)
    && if x.state.Running? then Halted(x, y.(wall := x.wall), now) else y == x.(state := Paused, wall := y.wall)
  }

  /** The job runs with its slots, its pause is closed and its limit positive again. */
  predicate Going(x: Job, y: Job, now: int) {
    y == x.(state := Running, held := x.slots, wall := Size(x.wall), bound := y.bound, pauseTime := 0,
            pauseDur := x.pauseDur + if x.pauseTime == 0 then 0 else now - x.pauseTime)
  }

  /** A process that can be gone. */
  predicate Lifeless(j: Job, env: Env) {
    (j.state.Running? || j.state.Paused? || j.state.Abnormal?) && j.pid > 0 && j.pid !in env.alive
  }

  /** Connected, and its time has come. */
  predicate Timely(j: Job, env: Env) {
    if j.state.Paused? then j.wall < 0 && env.cpuTime(j.pid) < -j.wall
    else j.client > 0 && (j.sched <= 0 || j.sched <= env.now)
  }

  // ---------- time-outs ----------

  ghost predicate OneTimed(x: Job, t: seq<Job>, now: int) {
    exists i :: 0 <= i < |t| && t[i].id == x.id && if Overdue(x, now) then PutOff(x, t[i], now) else t[i] == x
  }

  /** Exactly the overdue jobs are put off, all others are as they were. */
  ghost predicate Timeouts(s: seq<Job>, t: seq<Job>, now: int) {
    |s| == |t| && forall k :: 0 <= k < |s| ==> OneTimed(s[k], t, now)
  }

  // ---------- a restart ----------

  /** Rows that a new server takes up. */
  predicate Restorable(row: Job, env: Env) {
    || row.state.Queued? || row.state.Locked? || row.state.Paused?
    || (row.state.Running? && row.pid > 0 && row.pid in env.alive)
  }

  /** The job that comes of a row. A running one that was paused is paused again. */
  predicate TakenUp(row: Job, j: Job, env: Env) {
    && j == row.(state := j.state, client := 0, bound := 0, pauseTime := j.pauseTime)
    && j.state == (if row.state.Running? && row.pauseTime > 0 then Paused else row.state)
    && j.pauseTime == if row.state.Paused? && row.pauseTime == 0 then env.now else row.pauseTime
  }

  ghost predicate TakenFrom(row: Job, s: seq<Job>, env: Env) {
    exists i :: 0 <= i < |s| && TakenUp(row, s[i], env)
  }

  ghost predicate OfRow(rows: seq<Job>, j: Job, env: Env) {
    exists k :: 0 <= k < |rows| && Restorable(rows[k], env) && TakenUp(rows[k], j, env)
  }

  /** Every such row has its job, and every job has such a row. */
  ghost predicate AllTakenUp(rows: seq<Job>, s: seq<Job>, env: Env) {
    && (forall k :: 0 <= k < |rows| && Restorable(rows[k], env) ==> TakenFrom(rows[k], s, env))
    && (forall i :: 0 <= i < |s| ==> OfRow(rows, s[i], env))
  }

  // ---------- holding and continuing ----------

  /** The caller owns the job or is root. */
  predicate Mine(users: seq<User>, u: nat, j: Job) {
    j.user == u || (u < |users| && users[u].uid == 0)
  }

  ghost predicate OthersSame(s: seq<Job>, t: seq<Job>, i: nat) {
    |s| == |t| && forall k :: 0 <= k < |s| && k != i ==> t[k] == s[k]
  }

  predicate CountersSame(a: Books, b: Books) {
    b.users == a.users && b.busySlots == a.busySlots
  }

  /** The queue counter of user w has moved by d, and nothing else. */
  ghost predicate QueueMoved(a: Books, b: Books, w: nat, d: int) {
    && b.busySlots == a.busySlots && |b.users| == |a.users|
    && forall k :: 0 <= k < |a.users| ==> b.users[k] == a.users[k].(queue := a.users[k].queue + if k == w then d else 0)
  }

  /** The counters of user w and of the server have moved by n slots and d jobs. */
  ghost predicate SlotsMoved(a: Books, b: Books, w: nat, n: int, d: int) {
    && b.busySlots == a.busySlots + n && |b.users| == |a.users|
    && forall k :: 0 <= k < |a.users| ==>
         b.users[k] == a.users[k].(busy := a.users[k].busy + (if k == w then n else 0), jobs := a.users[k].jobs + if k == w then d else 0)
  }

  /** s_hold_job on job i, for a caller whose own limit is not negative. */
  ghost predicate HoldDone(a: Books, b: Books, i: nat, u: nat, now: int)
    requires i < |a.active|
  {
    var x, mine := a.active[i], Mine(a.users, u, a.active[i]);
    && OthersSame(a.active, b.active, i)
    && var y := b.active[i];
    && (!mine ==> CountersSame(a, b) && y == x.(wall := if x.state.Paused? then Size(x.wall) else x.wall))
    && (mine && x.state.Queued? ==> y == x.(state := Locked) && QueueMoved(a, b, x.user, -1))
    && (mine && x.state.Locked? ==> CountersSame(a, b) && y == x)
    && (mine && x.state.Paused? ==> CountersSame(a, b) && y == x.(wall := Size(x.wall)))
    && (mine && (x.state.Running? || x.state.Abnormal? || x.state.Holding?) ==>
          if x.pid == 0 then CountersSame(a, b) && y == x
          else Halted(x, y, now) && SlotsMoved(a, b, x.user, if x.held == 0 then 0 else -x.slots, if x.held == 0 then 0 else -1))
  }

  /** s_cont_job on job i, on counters that are up to date. */
  ghost predicate ContDone(a: Books, b: Books, i: nat, u: nat, maxSlots: int, now: int)
    requires i < |a.active| && u < |a.users|
  {
    var x, mine := a.active[i], Mine(a.users, u, a.active[i]);
    var fits := a.users[u].busy + x.slots <= a.users[u].cap && a.busySlots + x.slots <= maxSlots;
    && OthersSame(a.active, b.active, i)
    && var y := b.active[i];
    && (!mine ==> CountersSame(a, b) && y == x.(wall := if x.state.Queued? || x.state.Locked? then x.wall else Size(x.wall)))
    && (mine && x.state.Locked? ==> y == x.(state := Queued) && QueueMoved(a, b, x.user, 1))
    && (mine && x.state.Queued? ==> CountersSame(a, b) && y == x)
    && (mine && x.state.Running? ==> CountersSame(a, b) && y == x.(wall := Size(x.wall)))
    && (mine && (x.state.Abnormal? || x.state.Holding?) ==>
          CountersSame(a, b) && y == x.(wall := if x.pid != 0 && !fits then -Size(x.wall) else Size(x.wall)))
    && (mine && x.state.Paused? && x.pid == 0 ==> CountersSame(a, b) && y == x.(wall := Size(x.wall)))
    && (mine && x.state.Paused? && x.pid != 0 && fits ==> Going(x, y, now) && SlotsMoved(a, b, x.user, x.slots, 1))
    && (mine && x.state.Paused? && x.pid != 0 && !fits ==> CountersSame(a, b) && y == x.(wall := -Size(x.wall)))
  }

  // ---------- all jobs of a user ----------

  /** Exactly the running jobs of the user that have a process are halted. */
  ghost predicate AllHalted(s: seq<Job>, t: seq<Job>, u: nat, now: int) {
    |s| == |t| && forall k :: 0 <= k < |s| ==>
      if s[k].user == u && s[k].state.Running? && s[k].pid != 0 then Halted(s[k], t[k], now) else t[k] == s[k]
  }

  /** Exactly the paused jobs of the user that have a process go on. */
  ghost predicate AllGoing(s: seq<Job>, t: seq<Job>, u: nat, now: int) {
    |s| == |t| && forall k :: 0 <= k < |s| ==>
      if s[k].user == u && s[k].state.Paused? && s[k].pid != 0 then Going(s[k], t[k], now) else t[k] == s[k]
  }

  // ---------- the health check ----------

  /** A running job that was not found healthy yet, five minutes after its start. */
  predicate ToExamine(j: Job, now: int) {
    j.state.Running? && !j.healthy && j.pid > 0 && now - j.start >= 300
  }

  /** Idle ones become abnormal and lose slots and CPUs, busy ones are healthy. */
  ghost predicate AllExamined(s: seq<Job>, t: seq<Job>, env: Env) {
    |s| == |t| && forall k :: 0 <= k < |s| ==>
      if !ToExamine(s[k], env.now) then t[k] == s[k]
      else if s[k].pid in env.idle then t[k] == s[k].(state := Abnormal, held := 0, bound := 0)
      else t[k] == s[k].(healthy := true)
  }

  // ---------- counting anew ----------

  ghost function AtRest(s: seq<Job>, u: nat): set<int> {
    set k | 0 <= k < |s| && s[k].user == u && !s[k].state.Running?
  }

  ghost function AtWork(s: seq<Job>, u: nat): set<int> {
    set k | 0 <= k < |s| && s[k].user == u && s[k].state.Running?
  }

  /** user.queue counts all jobs that do not run, also the paused, locked and
      abnormal ones, and user.jobs those that run. */
  ghost predicate Recounted(users: seq<User>, s: seq<Job>) {
    forall u :: 0 <= u < |users| ==> users[u].queue == |AtRest(s, u)| && users[u].jobs == |AtWork(s, u)|
  }
}
