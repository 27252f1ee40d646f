/** Jobs, users and what the server can observe, as values. */
module JobRecord {
  /** The states an active job can be in, then the two of a finished one. */
  datatype State = Queued | Running | Paused | Abnormal | Locked | Holding | Finished | Skipped

  datatype Job = Job(
    id: int,
    state: State,
    user: nat,          // index into the users vector
    slots: int,         // num_slots
    held: int,          // num_allocated
    bound: nat,         // CPUs in cpu_alloc, 0 when it is NULL
    noBinding: bool,    // no_cpu_binding
    wall: int,          // wall_time, negative while waiting after a time-out
    sched: int,         // schedule_time
    pid: int,
    client: int,        // client_socket
    deps: seq<int>,     // depend_on
    notify: seq<int>,   // notify_errorlevel_to
    depErr: int,        // dependency_errorlevel
    err: int,           // result.errorlevel
    healthy: bool,      // health_state == HEALTH_NORMAL
    start: int,
    pauseTime: int,
    pauseDur: int)

  datatype User = User(uid: int, cap: int, busy: int, jobs: int, queue: int, locked: bool)

  /** Clock and process table, fixed while one request is served. */
  datatype Env = Env(now: int, stopped: set<int>, alive: set<int>, idle: set<int>, cpuTime: int -> int)

  function Abs(x: int): int {
    if x < 0 then -x else x
  }

  predicate Asleep(env: Env, j: Job) {
    j.pid > 0 && j.pid in env.stopped
  }

  predicate Alive(env: Env, pid: int) {
    pid > 0 && pid in env.alive
  }

  // ---------- the clock of one job ----------

  /** pause_job_config. */
  function PauseClock(j: Job, now: int): Job {
    if j.pauseTime == 0 then j.(pauseTime := now) else j
  }

  /** rerun_job_config. */
  function RerunClock(j: Job, now: int): Job {
    if j.pauseTime != 0 then j.(pauseDur := j.pauseDur + (now - j.pauseTime), pauseTime := 0) else j
  }

  /** get_work_time_by_job of a job that has not finished. */
  function WorkTime(j: Job, now: int): int {
    (if j.state.Paused? then j.pauseTime else now) - (j.start + j.pauseDur)
  }

  /** get_pause_time_by_job. */
  function PauseTime(j: Job, now: int): int {
    j.pauseDur + if j.state.Paused? && j.pauseTime != 0 then now - j.pauseTime else 0
  }

  // ---------- one job changing state ----------

  /** What safe_pause_job leaves of a job the caller then marks PAUSE. */
  function Stopped(j: Job, now: int): Job {
    PauseClock(j, now).(state := Paused, held := 0, bound := 0)
  }

  /** s_relegate_job: 24 hours are added to the limit. */
  function Relegated(j: Job, now: int): Job {
    (if j.state.Running? then Stopped(j, now) else j.(state := Paused)).(wall := -Abs(j.wall) - 86400)
  }

  /** config_running, before any CPU is bound. */
  function Started(j: Job, now: int): Job {
    RerunClock(j, now).(state := Running, held := j.slots, wall := Abs(j.wall))
  }

  datatype Edited = None | Some(job: Job)

  /** s_add_wtime: refused when the 64-bit sum would overflow or the limit would
      not stay positive. */
  function WallAdded(j: Job, add: int): Edited {
    var limit := Abs(j.wall);
    if add > 0 && limit > 0x7FFF_FFFF_FFFF_FFFF - add then None
    else if limit + add <= 0 then None
    else Some(j.(wall := if j.wall < 0 then -(limit + add) else limit + add))
  }

  /** check_timeout: a running job has worked longer than its limit, and at least 3 seconds. */
  predicate TimedOut(j: Job, now: int) {
    j.state.Running? && j.pid != 0 && WorkTime(j, now) > Abs(j.wall) && WorkTime(j, now) >= 3
  }
}
