/** The time a job has worked and paused, over every history of one job. */
module JobClock {
  import opened JobRecord

  /** What can happen to the clock or the limit of a job, and when. */
  datatype Change =
    | Reported(at: int)              // s_process_runjob_ok
    | PausedAt(at: int)              // s_hold_job, s_suspend_user
    | ContinuedAt(at: int)           // config_running of a paused job
    | RelegatedAt(at: int)           // s_check_timeout, s_requeue_job
    | FoundIdle(at: int)             // s_check_running_health
    | SignSet(at: int, wait: bool)   // s_hold_job, s_cont_job on the sign of the limit
    | LimitAdded(at: int, add: int)  // s_add_wtime

  function Apply(j: Job, c: Change): Job {
    match c
    case Reported(t) => if j.state.Running? && j.start == 0 then j.(start := t) else j
    case PausedAt(t) => if j.state.Running? || j.state.Abnormal? then Stopped(j, t) else j
    case ContinuedAt(t) => if j.state.Paused? then Started(j, t) else j
    case RelegatedAt(t) => if j.state.Running? || j.state.Paused? then Relegated(j, t) else j
    case FoundIdle(t) => if j.state.Running? then j.(state := Abnormal) else j
    case SignSet(t, wait) => j.(wall := if wait then -Abs(j.wall) else Abs(j.wall))
    case LimitAdded(t, add) => var r := WallAdded(j, add); if r.Some? then r.job else j
  }

  function After(j: Job, cs: seq<Change>): Job
    decreases |cs|
  {
    if cs == [] then j else After(Apply(j, cs[0]), cs[1..])
  }

  /** A pause is open exactly while the job is paused. The clock never shows 0,
      which stands for no pause. */
  predicate Clocked(j: Job) {
    (j.state.Running? || j.state.Paused? || j.state.Abnormal?) && (j.state.Paused? <==> j.pauseTime != 0)
  }

  predicate ClockRuns(cs: seq<Change>) {
    forall k :: 0 <= k < |cs| ==> cs[k].at != 0
  }

  lemma ApplyClocked(j: Job, c: Change)
    requires Clocked(j) && c.at != 0
    ensures Clocked(Apply(j, c)) && (j.start != 0 ==> Apply(j, c).start == j.start)
  {
  }

  /** The length of an interval if the job spends it working (or paused). */
  function Part(j: Job, working: bool, from: int, until: int): int {
    if j.state.Paused? == working then 0 else until - from
  }

  /** The total time between `from` and `until` spent working (or paused), added
      up interval by interval. */
  function Spent(j: Job, cs: seq<Change>, working: bool, from: int, until: int): int
    decreases |cs|
  {
    if cs == [] then Part(j, working, from, until)
    else Part(j, working, from, cs[0].at) + Spent(Apply(j, cs[0]), cs[1..], working, cs[0].at, until)
  }

  /** A change at time t does not move the two readings at t. */
  lemma ChangeKeeps(j: Job, c: Change)
    requires Clocked(j) && c.at != 0 && j.start != 0
    ensures WorkTime(Apply(j, c), c.at) == WorkTime(j, c.at)
    ensures PauseTime(Apply(j, c), c.at) == PauseTime(j, c.at)
  {
  }

  /** Between changes one of the two grows with the clock and the other stands. */
  lemma TimePasses(j: Job, from: int, until: int)
    requires Clocked(j)
    ensures WorkTime(j, until) == WorkTime(j, from) + Part(j, true, from, until)
    ensures PauseTime(j, until) == PauseTime(j, from) + Part(j, false, from, until)
  {
  }

  /** Over every history the work time is the sum of the intervals spent not
      paused, and the pause time the sum of the others. */
  lemma {:induction false} TimesAddUp(j: Job, cs: seq<Change>, from: int, until: int)
    requires Clocked(j) && ClockRuns(cs) && j.start != 0
    ensures Clocked(After(j, cs)) && After(j, cs).start == j.start
    ensures WorkTime(After(j, cs), until) == WorkTime(j, from) + Spent(j, cs, true, from, until)
    ensures PauseTime(After(j, cs), until) == PauseTime(j, from) + Spent(j, cs, false, from, until)
    decreases |cs|
  {
    hide Clocked, WorkTime, PauseTime, Part, Apply;
    if cs == [] {
      TimePasses(j, from, until);
    } else {
      var c := cs[0];
      TimePasses(j, from, c.at);
      ChangeKeeps(j, c);
      ApplyClocked(j, c);
      TimesAddUp(Apply(j, c), cs[1..], c.at, until);
    }
  }

  /** Working and pausing fill the time. */
  lemma {:induction false} SpentFills(j: Job, cs: seq<Change>, from: int, until: int)
    ensures Spent(j, cs, true, from, until) + Spent(j, cs, false, from, until) == until - from
    decreases |cs|
  {
    if cs != [] {
      SpentFills(Apply(j, cs[0]), cs[1..], cs[0].at, until);
    }
  }

  /** For a job that has just started: work and pause time are what was spent so
      since the start, and together they are all the time since. */
  lemma Conservation(j: Job, cs: seq<Change>, now: int)
    requires j.state.Running? && j.start != 0 && j.pauseTime == 0 && j.pauseDur == 0 && ClockRuns(cs)
    ensures WorkTime(After(j, cs), now) == Spent(j, cs, true, j.start, now)
    ensures PauseTime(After(j, cs), now) == Spent(j, cs, false, j.start, now)
    ensures WorkTime(After(j, cs), now) + PauseTime(After(j, cs), now) == now - j.start
  {
    TimesAddUp(j, cs, j.start, now);
    SpentFills(j, cs, j.start, now);
  }

  lemma StaysPaused(j: Job, c: Change)
    requires j.state.Paused? && !c.ContinuedAt?
    ensures Apply(j, c).state.Paused?
  {
  }

  /** From the moment a job is paused until it is continued its work time stands
      still, whatever else is done to it. */
  lemma {:induction false} FrozenWhilePaused(j: Job, cs: seq<Change>, from: int, until: int)
    requires Clocked(j) && ClockRuns(cs) && j.start != 0 && j.state.Paused?
    requires forall k :: 0 <= k < |cs| ==> !cs[k].ContinuedAt?
    ensures WorkTime(After(j, cs), until) == WorkTime(j, from)
    decreases |cs|
  {
    hide Clocked, WorkTime, Apply, Part;
    if cs == [] {
      TimePasses(j, from, until);
      PausedPart(j, from, until);
    } else {
      var c := cs[0];
      TimePasses(j, from, c.at);
      PausedPart(j, from, c.at);
      ChangeKeeps(j, c);
      ApplyClocked(j, c);
      StaysPaused(j, c);
      FrozenWhilePaused(Apply(j, c), cs[1..], c.at, until);
    }
  }

  lemma PausedPart(j: Job, from: int, until: int)
    requires j.state.Paused?
    ensures Part(j, true, from, until) == 0
  {
  }

  /** A pause that a job went through before its process was reported is taken off
      its work time for good: the reading is the time worked if and only if there
      was none. */
  lemma WorkSinceReport(j: Job, cs: seq<Change>, now: int)
    requires j.state.Running? && j.start != 0 && j.pauseTime == 0 && ClockRuns(cs)
    ensures WorkTime(After(j, cs), now) == Spent(j, cs, true, j.start, now) - j.pauseDur
    ensures WorkTime(After(j, cs), now) == Spent(j, cs, true, j.start, now) <==> j.pauseDur == 0
  {
    TimesAddUp(j, cs, j.start, now);
  }

  /** Such a pause comes about when a job is relegated before its report: when it
      does start, it has a negative work time. */
  lemma PauseBeforeStart(j: Job, t1: int, t2: int, t3: int)
    requires j.state.Running? && j.start == 0 && j.pauseTime == 0 && j.pauseDur == 0 && 0 < t1 < t2 <= t3
    ensures var k := After(j, [RelegatedAt(t1), ContinuedAt(t2), Reported(t3)]);
      k.start == t3 && k.pauseDur == t2 - t1 && WorkTime(k, t3) == -(t2 - t1)
  {
    var a := Apply(j, RelegatedAt(t1));
    var b := Apply(a, ContinuedAt(t2));
    assert [RelegatedAt(t1), ContinuedAt(t2), Reported(t3)][1..] == [ContinuedAt(t2), Reported(t3)];
    assert [ContinuedAt(t2), Reported(t3)][1..] == [Reported(t3)];
    assert After(b, [Reported(t3)]) == Apply(b, Reported(t3));
  }

  // ---------- the limit ----------

  /** What one change adds to the limit: a day for each relegation, and accepted
      additions. */
  function Grant(j: Job, c: Change): int {
    match c
    case RelegatedAt(t) => if j.state.Running? || j.state.Paused? then 86400 else 0
    case LimitAdded(t, add) => if WallAdded(j, add).Some? then add else 0
    case _ => 0
  }

  function Granted(j: Job, cs: seq<Change>): int
    decreases |cs|
  {
    if cs == [] then 0 else Grant(j, cs[0]) + Granted(Apply(j, cs[0]), cs[1..])
  }

  lemma GrantAdds(j: Job, c: Change)
    requires j.wall != 0
    ensures Abs(Apply(j, c).wall) == Abs(j.wall) + Grant(j, c) && Apply(j, c).wall != 0
  {
  }

  /** The limit without its sign is the first one plus all that was granted, and
      it never becomes 0. */
  lemma {:induction false} LimitAddsUp(j: Job, cs: seq<Change>)
    requires j.wall != 0
    ensures Abs(After(j, cs).wall) == Abs(j.wall) + Granted(j, cs) && After(j, cs).wall != 0
    decreases |cs|
  {
    hide Apply, Grant, Abs;
    if cs != [] {
      GrantAdds(j, cs[0]);
      LimitAddsUp(Apply(j, cs[0]), cs[1..]);
    }
  }
}
