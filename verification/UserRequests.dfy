/** Holding, continuing, suspending and resuming, seen from the books. */
module UserRequests {
  import opened JobRecord
  import opened SlotBooks
  import opened SlotMoves
  import opened DependencyLedger
  import opened Requests

  /** A request of user u about a job of another user needs root. */
  predicate MayTouch(users: seq<User>, u: nat, j: Job) {
    j.user == u || (u < |users| && users[u].uid == 0)
  }

  /** user.queue changed by d. */
  function Requeued(users: seq<User>, u: nat, d: int): seq<User>
    requires u < |users|
  {
    users[u := users[u].(queue := users[u].queue + d)]
  }

  /** s_hold_job on job i, once the caller is known not to be suspended. A queued
      job is locked, a running one is paused; a job waiting after a time-out is
      turned into one paused by its user. */
  function HeldBack(b: Books, i: nat, u: nat, now: int): Books
    requires i < |b.active| && b.active[i].user < |b.users|
  {
    var p := b.active[i];
    match p.state
    case Queued =>
      if MayTouch(b.users, u, p)
      then b.(users := Requeued(b.users, p.user, -1), active := b.active[i := p.(state := Locked)])
      else b
    case Locked => b
    case Paused => if p.wall < 0 then b.(active := b.active[i := p.(wall := Abs(p.wall))]) else b
    case _ => if p.pid != 0 && MayTouch(b.users, u, p) then Stop(b, i, Stopped(p, now)) else b
  }

  lemma HeldBackSteady(lim: Limits, b: Books, i: nat, u: nat, now: int)
    requires Sound(b) && i < |b.active| && JobOk(b.active[i], |b.users|)
    ensures Steady(lim, b, HeldBack(b, i, u, now), {}) && LinksFrom(b.active, HeldBack(b, i, u, now).active)
  {
    var p, c := b.active[i], HeldBack(b, i, u, now);
    HeldBackLinks(b, i, u, now);
    if c == b {
      SteadyStill(lim, b);
    } else if p.state.Queued? {
      WaitSteady(lim, b, i, p.(state := Locked), c.users);
    } else if p.state.Paused? {
      EditSteady(lim, b, i, p.(wall := Abs(p.wall)));
    } else {
      assert p.pid != 0 && JobOk(Stopped(p, now), |b.users|) && !p.state.Holding?;
      StopSteady(lim, b, i, Stopped(p, now));
    }
    hide Steady, LinksFrom, Sound;
  }

  lemma HeldBackLinks(b: Books, i: nat, u: nat, now: int)
    requires i < |b.active| && b.active[i].user < |b.users|
    ensures LinksFrom(b.active, HeldBack(b, i, u, now).active)
  {
    hide LinksFrom, Abs;
    var c := HeldBack(b, i, u, now);
    assert c.active == b.active[i := c.active[i]] && SameLinks(b.active[i], c.active[i]);
    LinksReplaced(b.active, i, c.active[i]);
  }

  /** s_cont_job on job i, after the counters were brought up to date. A locked
      job is queued again. A paused one starts when it fits the caller's and the
      global limit, otherwise it waits like a timed-out job. */
  function Continued(b: Books, i: nat, u: nat, maxSlots: int, now: int, cpus: nat, binding: bool): Books
    requires i < |b.active| && b.active[i].user < |b.users|
  {
    var p := b.active[i];
    var q := p.(wall := Abs(p.wall));
    var c := b.(active := b.active[i := q]);
    match p.state
    case Locked =>
      if MayTouch(b.users, u, p)
      then b.(users := Requeued(b.users, p.user, 1), active := b.active[i := p.(state := Queued)])
      else b
    case Queued => b
    case Running => c
    case _ =>
      if p.pid == 0 || !MayTouch(b.users, u, p) then c
      else if CallerFits(b, u, maxSlots, p) then (if p.state.Paused? then Start(c, i, now, cpus, binding) else c)
      else b.(active := b.active[i := p.(wall := -Abs(p.wall))])
  }

  predicate CallerFits(b: Books, u: nat, maxSlots: int, p: Job) {
    u < |b.users| && b.users[u].busy + p.slots <= b.users[u].cap && b.busySlots + p.slots <= maxSlots
  }

  /** The caller's counter is not negative, so fitting means having slots. */
  lemma CallerHasSlots(b: Books, u: nat, maxSlots: int, i: nat)
    requires Sound(b) && i < |b.active| && CallerFits(b, u, maxSlots, b.active[i])
    ensures b.users[u].cap > 0
  {
    SumNonNegative(b.active, |b.users|, Slots(u));
    hide Sum;
    assert Sum(b.active, Slots(u)) <= Reading(b.users, b.busySlots, Slots(u));
    assert JobOk(b.active[i], |b.users|);
  }

  lemma WallSteady(lim: Limits, b: Books, i: nat, wall: int)
    requires Sound(b) && i < |b.active|
    ensures Steady(lim, b, b.(active := b.active[i := b.active[i].(wall := wall)]), {})
    ensures LinksFrom(b.active, b.active[i := b.active[i].(wall := wall)])
  {
    var y := b.active[i].(wall := wall);
    SoundAt(b, i);
    assert JobOk(y, |b.users|);
    hide JobOk, Sound, Steady, LinksFrom;
    EditSteady(lim, b, i, y);
    LinksReplaced(b.active, i, y);
  }

  lemma StartLinks(b: Books, i: nat, now: int, cpus: nat, binding: bool)
    requires i < |b.active| && b.active[i].user < |b.users|
    ensures LinksFrom(b.active, Start(b, i, now, cpus, binding).active)
  {
    hide LinksFrom, Sum;
    var c := Start(b, i, now, cpus, binding);
    assert c.active == b.active[i := c.active[i]] && SameLinks(b.active[i], c.active[i]);
    LinksReplaced(b.active, i, c.active[i]);
  }

  /** When root has slots, a start owed to root is allowed for anyone. */
  lemma StartByRoot(lim: Limits, b: Books, c: Books, u: nat)
    requires Steady(lim, b, c, {u}) && !RootIdle(b.users)
    ensures Steady(lim, b, c, {})
  {
    hide Sound, Exact, Quiet;
  }

  lemma OnlyRootIsRoot(users: seq<User>, u: nat)
    requires RootFirst(users) && u < |users| && users[u].uid == 0
    ensures u == 0
  {
  }

  lemma ContinuedStart(lim: Limits, b: Books, i: nat, u: nat, maxSlots: int, now: int, cpus: nat, binding: bool)
    requires lim == Limits(cpus, binding, maxSlots) && Sound(b) && i < |b.active| && JobOk(b.active[i], |b.users|) && b.active[i].state.Paused?
    requires MayTouch(b.users, u, b.active[i]) && CallerFits(b, u, maxSlots, b.active[i])
    ensures Steady(lim, b, Start(b, i, now, cpus, binding), {})
  {
    CallerHasSlots(b, u, maxSlots, i);
    var c := Start(b, i, now, cpus, binding);
    if b.users[b.active[i].user].cap > 0 {
      StartSteady(lim, b, i, now, cpus, binding, {});
    } else {
      OnlyRootIsRoot(b.users, u);
      StartSteady(lim, b, i, now, cpus, binding, {b.active[i].user});
      StartByRoot(lim, b, c, b.active[i].user);
    }
  }

  lemma ContinuedSteady(lim: Limits, b: Books, i: nat, u: nat, maxSlots: int, now: int, cpus: nat, binding: bool)
    requires lim == Limits(cpus, binding, maxSlots) && Sound(b) && i < |b.active| && b.active[i].user < |b.users|
    ensures Steady(lim, b, Continued(b, i, u, maxSlots, now, cpus, binding), {})
    ensures LinksFrom(b.active, Continued(b, i, u, maxSlots, now, cpus, binding).active)
  {
    hide Sound, Steady, LinksFrom, JobOk, Start, MayTouch, CallerFits, Abs;
    var p := b.active[i];
    SoundAt(b, i);
    SteadyStill(lim, b);
    LinksStill(b.active);
    WallSteady(lim, b, i, Abs(p.wall));
    WallSteady(lim, b, i, -Abs(p.wall));
    if p.state.Locked? {
      UnlockSteady(lim, b, i);
    } else if p.state.Paused? && MayTouch(b.users, u, p) && CallerFits(b, u, maxSlots, p) {
      ContinuedPaused(lim, b, i, u, maxSlots, now, cpus, binding);
    }
  }

  lemma ContinuedPaused(lim: Limits, b: Books, i: nat, u: nat, maxSlots: int, now: int, cpus: nat, binding: bool)
    requires lim == Limits(cpus, binding, maxSlots) && Sound(b) && i < |b.active| && b.active[i].user < |b.users| && b.active[i].state.Paused?
    requires MayTouch(b.users, u, b.active[i]) && CallerFits(b, u, maxSlots, b.active[i])
    ensures var c := Start(b.(active := b.active[i := b.active[i].(wall := Abs(b.active[i].wall))]), i, now, cpus, binding);
      Steady(lim, b, c, {}) && LinksFrom(b.active, c.active)
  {
    hide Sound, Steady, LinksFrom, JobOk, Start, Abs;
    var p := b.active[i];
    var c := b.(active := b.active[i := p.(wall := Abs(p.wall))]);
    WallSteady(lim, b, i, Abs(p.wall));
    SteadySound(lim, b, c, {});
    SoundAt(c, i);
    ContinuedStart(lim, c, i, u, maxSlots, now, cpus, binding);
    StartLinks(c, i, now, cpus, binding);
    SteadyThen(lim, b, c, Start(c, i, now, cpus, binding));
    LinksTwice(b.active, c.active, Start(c, i, now, cpus, binding).active);
  }

  lemma UnlockSteady(lim: Limits, b: Books, i: nat)
    requires Sound(b) && i < |b.active| && JobOk(b.active[i], |b.users|) && b.active[i].state.Locked?
    ensures var p := b.active[i];
      var t := b.active[i := p.(state := Queued)];
      Steady(lim, b, b.(users := Requeued(b.users, p.user, 1), active := t), {}) && LinksFrom(b.active, t)
  {
    var y := b.active[i].(state := Queued);
    WaitSteady(lim, b, i, y, Requeued(b.users, y.user, 1));
    hide Sound, Steady, LinksFrom;
    LinksReplaced(b.active, i, y);
  }

  // ---------- suspend and resume ----------

  function WithCap(b: Books, u: nat, cap: int, locked: bool): Books
    requires u < |b.users|
  {
    b.(users := b.users[u := b.users[u].(cap := cap, locked := locked)])
  }

  /** The sign of max_slots is all that is changed. */
  lemma CapSteady(lim: Limits, b: Books, u: nat, cap: int, locked: bool, exempt: set<nat>)
    requires Sound(b) && u < |b.users| && Abs(cap) == Abs(b.users[u].cap) && (cap <= 0 || u in exempt)
    ensures Steady(lim, b, WithCap(b, u, cap, locked), exempt)
  {
    var c := WithCap(b, u, cap, locked);
    hide Sum, JobsOk, DistinctIds, RunningOf;
    assert forall m: Meter :: Counted(m, |b.users|) ==> Reading(c.users, c.busySlots, m) == Reading(b.users, b.busySlots, m);
  }

  /** Running jobs of u that have not reported a process. */
  ghost function Unstarted(s: seq<Job>, u: nat): set<int> {
    set i | 0 <= i < |s| && s[i].state.Running? && s[i].user == u && s[i].pid == 0 :: s[i].id
  }

  /** The jobs of u before k: those with a process have been paused. */
  ghost predicate PausedUpTo(s: seq<Job>, t: seq<Job>, u: nat, k: nat, now: int) {
    && |s| == |t| && k <= |s|
    && forall i :: 0 <= i < |s| ==>
         t[i] == if i < k && s[i].user == u && s[i].state.Running? && s[i].pid != 0 then Stopped(s[i], now) else s[i]
  }

  lemma PausedRunning(s: seq<Job>, t: seq<Job>, u: nat, now: int)
    requires PausedUpTo(s, t, u, |s|, now)
    ensures RunningOf(t, u) <= Unstarted(s, u)
  {
    forall id | id in RunningOf(t, u)
      ensures id in Unstarted(s, u)
    {
      var k :| 0 <= k < |t| && t[k].state.Running? && t[k].user == u && t[k].id == id;
      assert s[k].state.Running? && s[k].user == u && s[k].pid == 0 && s[k].id == id;
    }
  }

  lemma PauseOne(lim: Limits, b: Books, i: nat, now: int)
    requires Sound(b) && i < |b.active| && JobOk(b.active[i], |b.users|) && b.active[i].state.Running?
    ensures Steady(lim, b, Stop(b, i, Stopped(b.active[i], now)), {})
    ensures LinksFrom(b.active, b.active[i := Stopped(b.active[i], now)])
  {
    var y := Stopped(b.active[i], now);
    assert JobOk(y, |b.users|) && SameLinks(b.active[i], y);
    hide JobOk, Sound, Steady, LinksFrom;
    StopSteady(lim, b, i, y);
    LinksReplaced(b.active, i, y);
  }

  lemma PausedSurvive(env: Env, s: seq<Job>, t: seq<Job>, r: seq<Job>, u: nat)
    requires PausedUpTo(s, t, u, |s|, env.now) && Survive(env, t, r)
    ensures Survive(env, s, r)
  {
    forall k | 0 <= k < |s| && !Dead(env, s[k])
      ensures Known(r, s[k].id)
    {
      assert !Dead(env, t[k]) && t[k].id == s[k].id;
    }
  }

  lemma PausedBuried(env: Env, s: seq<Job>, t: seq<Job>, ends: seq<Ending>, u: nat)
    requires PausedUpTo(s, t, u, |s|, env.now) && Buried(env, t, ends)
    ensures Buried(env, s, ends)
  {
    forall id
      ensures DeadFrom(env, s, 0, id) <==> DeadFrom(env, t, 0, id)
    {
      assert forall k :: 0 <= k < |s| ==> t[k].id == s[k].id && (Dead(env, t[k]) <==> Dead(env, s[k]));
      if DeadFrom(env, s, 0, id) {
        var k :| 0 <= k < |s| && s[k].id == id && Dead(env, s[k]);
        assert Dead(env, t[k]);
      }
      if DeadFrom(env, t, 0, id) {
        var k :| 0 <= k < |t| && t[k].id == id && Dead(env, t[k]);
        assert Dead(env, s[k]);
      }
    }
    hide Dead;
    BuriedBoth(env, s, t, ends);
  }

  predicate ToResume(j: Job, u: nat) {
    j.user == u && j.state.Paused? && j.pid != 0
  }

  /** The jobs before k: those of u that are paused and have a process run now,
      all others are as they were. */
  ghost predicate ResumedUpTo(s: seq<Job>, t: seq<Job>, u: nat, k: nat, now: int) {
    && |s| == |t| && k <= |s|
    && forall i :: 0 <= i < |s| ==>
         if i < k && ToResume(s[i], u) then t[i] == Started(s[i], now).(bound := t[i].bound) else t[i] == s[i]
  }

  lemma SteadyExempt(lim: Limits, a: Books, b: Books, c: Books, e: set<nat>)
    requires Steady(lim, a, b, e) && Steady(lim, b, c, e)
    ensures Steady(lim, a, c, e)
  {
    hide Steady;
    SteadyTwice(lim, a, b, c, e, e);
    assert e + e == e;
  }

  // ---------- refreshing the users ----------

  /** One line of the user file: the global limit, or a user and its limit. */
  datatype Line = SlotsLine(n: int) | UserLine(uid: int, slots: int)

  /** Users read again: known ones may have another limit, new ones follow. */
  ghost predicate Reread(us: seq<User>, vs: seq<User>) {
    && |us| <= |vs|
    && (forall u :: 0 <= u < |us| ==> vs[u] == us[u].(cap := vs[u].cap))
    && (forall u :: |us| <= u < |vs| ==> vs[u].busy == 0 && vs[u].jobs == 0 && vs[u].queue == 0)
    && RootFirst(vs)
  }

  /** The last positive TS_SLOTS line counts. */
  function LimitRead(lines: seq<Line>, m: int): int {
    if lines == [] then m
    else
      var l := lines[|lines| - 1];
      if l.SlotsLine? && l.n > 0 then l.n else LimitRead(lines[..|lines| - 1], m)
  }

  predicate Names(l: Line, uid: int) {
    l.UserLine? && l.uid == uid
  }

  /** The last line about its user. */
  ghost predicate Stands(lines: seq<Line>, k: nat) {
    k < |lines| && lines[k].UserLine? && forall q :: k < q < |lines| ==> !Names(lines[q], lines[k].uid)
  }

  ghost predicate Enrolled(us: seq<User>, uid: int) {
    exists u :: 0 <= u < |us| && us[u].uid == uid
  }

  ghost predicate Limited(us: seq<User>, uid: int, slots: int) {
    exists u :: 0 <= u < |us| && us[u].uid == uid && us[u].cap == slots
  }

  ghost predicate Mentioned(lines: seq<Line>, uid: int) {
    exists k :: 0 <= k < |lines| && Names(lines[k], uid)
  }

  /** The file has been read: each user's last line counts, unless there are a hundred
      users; no other user is new, and no other limit has changed. */
  ghost predicate FileRead(lines: seq<Line>, us: seq<User>, vs: seq<User>) {
    && (forall k: nat :: Stands(lines, k) ==>
          Limited(vs, lines[k].uid, lines[k].slots) || (|vs| >= 100 && !Enrolled(vs, lines[k].uid)))
    && (forall u :: |us| <= u < |vs| ==> Mentioned(lines, vs[u].uid))
    && (forall u :: 0 <= u < |us| && u < |vs| && !Mentioned(lines, us[u].uid) ==> vs[u].cap == us[u].cap)
  }

  lemma NothingRead(us: seq<User>, m: int)
    ensures FileRead([], us, us) && LimitRead([], m) == m
  {
  }

  lemma MentionedMore(lines: seq<Line>, k: nat, uid: int)
    requires k < |lines|
    ensures Mentioned(lines[..k], uid) ==> Mentioned(lines[..k + 1], uid)
    ensures Names(lines[k], uid) ==> Mentioned(lines[..k + 1], uid)
    ensures Mentioned(lines[..k + 1], uid) && !Names(lines[k], uid) ==> Mentioned(lines[..k], uid)
  {
    if Mentioned(lines[..k], uid) {
      var q :| 0 <= q < k && Names(lines[..k][q], uid);
      assert lines[..k + 1][q] == lines[..k][q];
    }
    if Names(lines[k], uid) {
      assert lines[..k + 1][k] == lines[k];
    }
    if Mentioned(lines[..k + 1], uid) && !Names(lines[k], uid) {
      var q :| 0 <= q < k + 1 && Names(lines[..k + 1][q], uid);
      assert lines[..k][q] == lines[q];
    }
  }

  lemma StandsBefore(lines: seq<Line>, k: nat, q: nat)
    requires k < |lines| && Stands(lines[..k + 1], q) && q < k
    ensures Stands(lines[..k], q) && lines[..k][q] == lines[q] && !Names(lines[k], lines[q].uid)
  {
    assert lines[..k + 1][k] == lines[k] && lines[..k + 1][q] == lines[q];
    forall p | q < p < k
      ensures !Names(lines[..k][p], lines[q].uid)
    {
      assert lines[..k + 1][p] == lines[..k][p];
    }
  }

  /** A line that changes no user. */
  lemma ReadSlots(lines: seq<Line>, k: nat, us: seq<User>, vs: seq<User>, m: int, max: int)
    requires k < |lines| && lines[k].SlotsLine? && FileRead(lines[..k], us, vs) && LimitRead(lines[..k], m) == max
    ensures FileRead(lines[..k + 1], us, vs)
    ensures LimitRead(lines[..k + 1], m) == if lines[k].n > 0 then lines[k].n else max
  {
    LimitStep(lines, k, m);
    forall uid
      ensures Mentioned(lines[..k], uid) <==> Mentioned(lines[..k + 1], uid)
    {
      MentionedMore(lines, k, uid);
    }
    var more := lines[..k + 1];
    forall q: nat | Stands(more, q)
      ensures Limited(vs, more[q].uid, more[q].slots) || (|vs| >= 100 && !Enrolled(vs, more[q].uid))
    {
      assert more[k] == lines[k];
      StandsBefore(lines, k, q);
      assert more[q] == lines[..k][q];
    }
  }

  lemma LimitStep(lines: seq<Line>, k: nat, m: int)
    requires k < |lines|
    ensures LimitRead(lines[..k + 1], m) ==
      if lines[k].SlotsLine? && lines[k].n > 0 then lines[k].n else LimitRead(lines[..k], m)
  {
    assert lines[..k + 1][..k] == lines[..k];
  }

  /** What a line about a user makes of the users. */
  ghost predicate LineRead(l: Line, vs: seq<User>, ws: seq<User>)
    requires l.UserLine?
  {
    if Enrolled(vs, l.uid) then
      |ws| == |vs| && (forall u :: 0 <= u < |vs| ==> ws[u] == if vs[u].uid == l.uid then vs[u].(cap := l.slots) else vs[u])
    else if |vs| < 100 then |ws| == |vs| + 1 && ws[..|vs|] == vs && ws[|vs|].uid == l.uid && ws[|vs|].cap == l.slots
    else ws == vs
  }

  lemma LineKeeps(l: Line, vs: seq<User>, ws: seq<User>, uid: int, slots: int)
    requires l.UserLine? && LineRead(l, vs, ws) && uid != l.uid
    ensures Limited(vs, uid, slots) ==> Limited(ws, uid, slots)
    ensures Enrolled(ws, uid) ==> Enrolled(vs, uid)
    ensures |ws| >= |vs|
  {
    if Limited(vs, uid, slots) {
      var u :| 0 <= u < |vs| && vs[u].uid == uid && vs[u].cap == slots;
      assert ws[u].uid == uid && ws[u].cap == slots;
    }
    if Enrolled(ws, uid) {
      var u :| 0 <= u < |ws| && ws[u].uid == uid;
      assert vs[u].uid == uid;
    }
  }

  lemma LineSets(l: Line, vs: seq<User>, ws: seq<User>)
    requires l.UserLine? && LineRead(l, vs, ws)
    ensures Limited(ws, l.uid, l.slots) || (|ws| >= 100 && !Enrolled(ws, l.uid))
  {
    if Enrolled(vs, l.uid) {
      var u :| 0 <= u < |vs| && vs[u].uid == l.uid;
      assert ws[u].uid == l.uid && ws[u].cap == l.slots;
    } else if |vs| < 100 {
      assert ws[|vs|].uid == l.uid && ws[|vs|].cap == l.slots;
    }
  }

  lemma ReadUser(lines: seq<Line>, k: nat, us: seq<User>, vs: seq<User>, ws: seq<User>, m: int)
    requires k < |lines| && lines[k].UserLine? && FileRead(lines[..k], us, vs) && LineRead(lines[k], vs, ws)
    requires |us| <= |vs| && forall u :: 0 <= u < |us| ==> vs[u].uid == us[u].uid
    ensures FileRead(lines[..k + 1], us, ws) && LimitRead(lines[..k + 1], m) == LimitRead(lines[..k], m)
  {
    LimitStep(lines, k, m);
    var l := lines[k];
    hide LineRead;
    var more := lines[..k + 1];
    forall q: nat | Stands(more, q)
      ensures Limited(ws, more[q].uid, more[q].slots) || (|ws| >= 100 && !Enrolled(ws, more[q].uid))
    {
      if q < k {
        StandsBefore(lines, k, q);
        assert more[q] == lines[..k][q];
        LineKeeps(l, vs, ws, lines[q].uid, lines[q].slots);
      } else {
        LineSets(l, vs, ws);
      }
    }
    hide Limited, Stands;
    ReadOthers(lines, k, us, vs, ws);
  }

  lemma ReadOthers(lines: seq<Line>, k: nat, us: seq<User>, vs: seq<User>, ws: seq<User>)
    requires k < |lines| && lines[k].UserLine? && FileRead(lines[..k], us, vs) && LineRead(lines[k], vs, ws)
    requires |us| <= |vs| && forall u :: 0 <= u < |us| ==> vs[u].uid == us[u].uid
    ensures forall u :: |us| <= u < |ws| ==> Mentioned(lines[..k + 1], ws[u].uid)
    ensures forall u :: 0 <= u < |us| && u < |ws| && !Mentioned(lines[..k + 1], us[u].uid) ==> ws[u].cap == us[u].cap
  {
    var l := lines[k];
    hide Mentioned, Limited, Stands;
    forall u | |us| <= u < |ws|
      ensures Mentioned(lines[..k + 1], ws[u].uid)
    {
      MentionedMore(lines, k, ws[u].uid);
      assert u < |vs| ==> ws[u].uid == vs[u].uid;
    }
    forall u | 0 <= u < |us| && u < |ws| && !Mentioned(lines[..k + 1], us[u].uid)
      ensures ws[u].cap == us[u].cap
    {
      MentionedMore(lines, k, us[u].uid);
      assert vs[u].uid != l.uid;
      assert ws[u] == vs[u];
    }
  }

  lemma {:induction false} LastMention(lines: seq<Line>, uid: int) returns (k: nat)
    requires Mentioned(lines, uid)
    ensures Stands(lines, k) && lines[k].uid == uid
  {
    var n := |lines| - 1;
    if Names(lines[n], uid) {
      k := n;
    } else {
      assert lines[..n + 1] == lines;
      MentionedMore(lines, n, uid);
      k := LastMention(lines[..n], uid);
      assert lines[..n][k] == lines[k];
      forall q | k < q < |lines|
        ensures !Names(lines[q], lines[k].uid)
      {
        if q < n {
          assert lines[..n][q] == lines[q];
        }
      }
    }
  }

  /** No standing line gives one of the users another limit. */
  ghost predicate NoNewLimits(lines: seq<Line>, us: seq<User>) {
    forall k: nat, u :: Stands(lines, k) && 0 <= u < |us| && us[u].uid == lines[k].uid ==> us[u].cap == lines[k].slots
  }

  /** The test of s_refresh_users is exact. */
  lemma RefreshTest(lines: seq<Line>, us: seq<User>, vs: seq<User>)
    requires Reread(us, vs) && FileRead(lines, us, vs)
    ensures (forall u :: 0 <= u < |us| ==> vs[u].cap == us[u].cap) <==> NoNewLimits(lines, us)
  {
    if forall u :: 0 <= u < |us| ==> vs[u].cap == us[u].cap {
      forall k: nat, u | Stands(lines, k) && 0 <= u < |us| && us[u].uid == lines[k].uid
        ensures us[u].cap == lines[k].slots
      {
        assert vs[u].uid == lines[k].uid && Enrolled(vs, lines[k].uid);
        var v :| 0 <= v < |vs| && vs[v].uid == lines[k].uid && vs[v].cap == lines[k].slots;
        assert v == u;
      }
    }
    if NoNewLimits(lines, us) {
      forall u | 0 <= u < |us|
        ensures vs[u].cap == us[u].cap
      {
        if Mentioned(lines, us[u].uid) {
          var k := LastMention(lines, us[u].uid);
          assert vs[u].uid == us[u].uid && Enrolled(vs, lines[k].uid);
          var v :| 0 <= v < |vs| && vs[v].uid == lines[k].uid && vs[v].cap == lines[k].slots;
          assert v == u;
        }
      }
    }
  }

  lemma {:induction false} NobodyYet(s: seq<Job>, n: nat, m: Meter)
    requires JobsOk(s, n) && (m.Slots? || m.Runs? || m.Waits?) && m.who >= n
    ensures Sum(s, m) == 0
  {
    if s != [] {
      assert JobOk(s[|s| - 1], n);
      NobodyYet(s[..|s| - 1], n, m);
    }
  }

  /** New users with nothing to their name. */
  lemma GrownSteady(lim: Limits, a: Books, b: Books)
    requires Sound(a) && b.active == a.active && b.busySlots == a.busySlots
    requires Reread(a.users, b.users) && forall u :: 0 <= u < |a.users| ==> b.users[u].cap == a.users[u].cap
    ensures Steady(lim, a, b, {})
  {
    hide Sum, RunningOf;
    forall m: Meter | Counted(m, |b.users|)
      ensures Sum(b.active, m) <= Reading(b.users, b.busySlots, m)
      ensures Exact(a) && !m.Waits? ==> Sum(b.active, m) == Reading(b.users, b.busySlots, m)
    {
      if Counted(m, |a.users|) {
        assert Sum(a.active, m) <= Reading(a.users, a.busySlots, m);
        assert Reading(b.users, b.busySlots, m) == Reading(a.users, a.busySlots, m);
      } else {
        NobodyYet(a.active, |a.users|, m);
      }
    }
    forall i | 0 <= i < |b.active|
      ensures JobOk(b.active[i], |b.users|)
    {
      assert JobOk(a.active[i], |a.users|);
    }
    hide JobOk;
  }

  // ---------- facts that callers use without the definitions ----------

  lemma AbsTwice(x: int)
    ensures Abs(Abs(x)) == Abs(x)
  {
  }

  lemma HeldBackUsers(b: Books, i: nat, u: nat, now: int)
    requires i < |b.active| && b.active[i].user < |b.users|
    ensures |HeldBack(b, i, u, now).users| == |b.users|
  {
  }

  lemma ContinuedUsers(b: Books, i: nat, u: nat, maxSlots: int, now: int, cpus: nat, binding: bool)
    requires i < |b.active| && b.active[i].user < |b.users|
    ensures |Continued(b, i, u, maxSlots, now, cpus, binding).users| == |b.users|
  {
    hide Sum;
  }

  /** A later part of the request starts no job of a user without slots. */
  lemma SuspendedStays(lim: Limits, a: Books, b: Books, c: Books, u: nat)
    requires Steady(lim, a, b, {}) && Steady(lim, b, c, {}) && u < |b.users| && b.users[u].cap <= 0
    ensures RootIdle(a.users) ==> u < |c.users| && c.users[u].cap <= 0 && RunningOf(c.active, u) <= RunningOf(b.active, u)
  {
    hide Sound, Exact, RunningOf;
  }

  lemma OneMoreResumed(s: seq<Job>, t: seq<Job>, r: seq<Job>, u: nat, k: nat, now: int)
    requires k < |s| == |t| && ResumedUpTo(s, t, u, k, now) && |r| == |t| && r == t[k := r[k]]
    requires if ToResume(s[k], u) then r[k] == Started(s[k], now).(bound := r[k].bound) else r[k] == s[k]
    ensures ResumedUpTo(s, r, u, k + 1, now)
  {
    hide Started;
  }

  lemma PrefixCaps(us: seq<User>, vs: seq<User>, ws: seq<User>)
    requires Reread(us, vs) && SameCaps(vs, ws) && forall u :: 0 <= u < |us| ==> vs[u].cap == us[u].cap
    ensures |us| <= |ws| && SameCaps(us, ws[..|us|])
  {
  }

  lemma RereadLonger(us: seq<User>, vs: seq<User>)
    requires Reread(us, vs)
    ensures |us| <= |vs|
  {
  }

  lemma NoneFrozen(u: nat)
    ensures Sum([], Frozen(u)) == 0
  {
  }

  /** The slots of the jobs to be resumed, one more job looked at. */
  lemma FrozenStep(a: Books, u: nat, k: nat)
    requires k < |a.active| && Sound(a)
    ensures Sum(a.active[..k + 1], Frozen(u)) == Sum(a.active[..k], Frozen(u)) + if ToResume(a.active[k], u) then a.active[k].slots else 0
    ensures Sum(a.active[..k + 1], Frozen(u)) <= Sum(a.active, Frozen(u))
  {
    assert a.active[..k + 1] == a.active[..k] + [a.active[k]];
    SumAppend(a.active[..k], a.active[k], Frozen(u));
    assert a.active == a.active[..k + 1] + a.active[k + 1..];
    SumConcat(a.active[..k + 1], a.active[k + 1..], Frozen(u));
    SumNonNegative(a.active[k + 1..], |a.users|, Frozen(u));
    hide Sum;
  }
}
