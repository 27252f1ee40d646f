/** What the requests of the scheduler do to the books, job by job. */
module Requests {
  import opened JobRecord
  import opened SlotBooks
  import opened SlotMoves
  import opened DependencyLedger
  import opened Roster

  /** Roster and ledger follow when a request only edits, moves or drops jobs. */
  lemma Closed(lim: Limits, a: Books, b: Books, finished: seq<Job>, book: Book, next: int, exempt: set<nat>)
    requires Steady(lim, a, b, exempt) && LinksFrom(a.active, b.active) && OnRoster(a.active, finished, next)
    ensures OnRoster(b.active, finished, next)
    ensures InBalance(a.active, finished, book, next) ==> InBalance(b.active, finished, book, next)
  {
    hide OnRoster, LinksFrom, Covers, JobsOk, InBalance, Quiet, Exact;
    RosterFrom(a.active, b.active, finished, next);
    if InBalance(a.active, finished, book, next) {
      InBalanceFrom(a.active, b.active, finished, book, next);
    }
  }

  // ---------- time-outs ----------

  /** What s_check_timeout makes of a job. */
  function Checked(j: Job, now: int): Job {
    if TimedOut(j, now) then Relegated(j, now) else j
  }

  ghost predicate ImageOf(s: seq<Job>, y: Job, now: int) {
    exists i :: 0 <= i < |s| && y == Checked(s[i], now)
  }

  /** Job i relegated and moved behind all others. */
  function Demoted(b: Books, i: nat, now: int): Books
    requires i < |b.active| && b.active[i].user < |b.users|
  {
    var c := Stop(b, i, Relegated(b.active[i], now));
    c.(active := (c.active[..i] + c.active[i + 1..]) + [c.active[i]])
  }

  lemma RelegatedSteady(lim: Limits, b: Books, i: nat, now: int)
    requires Sound(b) && i < |b.active| && JobOk(b.active[i], |b.users|)
    requires b.active[i].state.Running? || b.active[i].state.Paused?
    ensures Steady(lim, b, Stop(b, i, Relegated(b.active[i], now)), {})
    ensures LinksFrom(b.active, b.active[i := Relegated(b.active[i], now)])
  {
    var y := Relegated(b.active[i], now);
    assert JobOk(y, |b.users|) && SameLinks(b.active[i], y);
    hide JobOk, Sound, Steady, LinksFrom;
    StopSteady(lim, b, i, y);
    LinksReplaced(b.active, i, y);
  }

  lemma ReorderedSteady(lim: Limits, b: Books, t: seq<Job>)
    requires Sound(b) && Reordered(b.active, t)
    ensures Steady(lim, b, b.(active := t), {}) && LinksFrom(b.active, t)
  {
    OnlyReordered(lim, b, b.(active := t));
    hide Steady, LinksFrom, Sound;
    LinksReordered(b.active, t);
  }

  lemma SteadyThen(lim: Limits, a: Books, b: Books, c: Books)
    requires Steady(lim, a, b, {}) && Steady(lim, b, c, {})
    ensures Steady(lim, a, c, {})
  {
    hide Steady;
    var none: set<nat> := {};
    SteadyTwice(lim, a, b, c, none, none);
    assert none + none == none;
  }

  lemma SteadySound(lim: Limits, a: Books, b: Books, exempt: set<nat>)
    requires Steady(lim, a, b, exempt)
    ensures Sound(b)
  {
    hide Sound;
  }

  lemma SoundAt(b: Books, i: nat)
    requires Sound(b) && i < |b.active|
    ensures JobOk(b.active[i], |b.users|) && DistinctIds(b.active)
  {
  }

  lemma DemotedSteady(lim: Limits, b: Books, i: nat, now: int)
    requires Sound(b) && i < |b.active| && JobOk(b.active[i], |b.users|)
    requires b.active[i].user < |b.users| && (b.active[i].state.Running? || b.active[i].state.Paused?)
    ensures Steady(lim, b, Demoted(b, i, now), {}) && LinksFrom(b.active, Demoted(b, i, now).active)
  {
    hide Sound, Steady, LinksFrom, JobOk, Reordered, Relegated;
    var c := Stop(b, i, Relegated(b.active[i], now));
    RelegatedSteady(lim, b, i, now);
    SteadySound(lim, b, c, {});
    SoundAt(c, i);
    MovedToBack(c.active, i);
    ReorderedSteady(lim, c, Demoted(b, i, now).active);
    SteadyThen(lim, b, c, Demoted(b, i, now));
    LinksTwice(b.active, c.active, Demoted(b, i, now).active);
  }

  lemma LateState(j: Job, now: int, n: nat)
    requires TimedOut(j, now) && JobOk(j, n)
    ensures j.state.Running? && j.user < n
  {
  }

  /** The backward scan: jobs before i are untouched, the rest are checked. */
  ghost predicate Scanned(s: seq<Job>, w: seq<Job>, i: nat, now: int) {
    && i <= |s| && |w| == |s| && w[..i] == s[..i]
    && (forall k :: i <= k < |w| ==> ImageOf(s, w[k], now))
    && forall k :: i <= k < |s| ==> Checked(s[k], now) in w
  }

  lemma ScannedAt(s: seq<Job>, w: seq<Job>, i: nat, now: int)
    requires Scanned(s, w, i + 1, now)
    ensures i < |s| == |w| && w[i] == s[i]
  {
    assert w[i] == w[..i + 1][i] == s[..i + 1][i];
  }

  lemma ScannedKeep(s: seq<Job>, w: seq<Job>, i: nat, now: int)
    requires i < |s| && i < |w| && Scanned(s, w, i + 1, now) && !TimedOut(w[i], now)
    ensures Scanned(s, w, i, now)
  {
    assert w[i] == w[..i + 1][i] == s[i];
    assert w[i] == Checked(s[i], now);
    assert w[..i] == w[..i + 1][..i];
  }

  lemma ScannedDemote(s: seq<Job>, w: seq<Job>, i: nat, now: int)
    requires i < |s| && i < |w| && Scanned(s, w, i + 1, now) && TimedOut(w[i], now) && DistinctIds(s)
    ensures Scanned(s, (w[..i] + w[i + 1..]) + [Relegated(w[i], now)], i, now)
  {
    RelegatedId(w[i], now);
    hide TimedOut, Relegated, ImageOf;
    assert w[i] == w[..i + 1][i] == s[i];
    var t := (w[..i] + w[i + 1..]) + [Relegated(w[i], now)];
    assert Checked(s[i], now) == t[|s| - 1];
    forall k | i < k < |s|
      ensures Checked(s[k], now) in t
    {
      RelegatedId(s[k], now);
      StaysIn(w, i, Checked(s[k], now), Relegated(w[i], now));
    }
    assert ImageOf(s, t[|s| - 1], now) by { CheckedAt(s, i, now); }
    forall k | i <= k < |t| - 1
      ensures ImageOf(s, t[k], now)
    {
      assert t[k] == w[k + 1];
    }
    assert t[..i] == w[..i] == w[..i + 1][..i];
  }

  lemma RelegatedId(j: Job, now: int)
    ensures Relegated(j, now).id == j.id && Checked(j, now).id == j.id
  {
  }

  /** Taking out one element leaves the others. */
  lemma StaysIn(w: seq<Job>, i: nat, x: Job, y: Job)
    requires i < |w| && x in w && x.id != w[i].id
    ensures x in (w[..i] + w[i + 1..]) + [y]
  {
    var k :| 0 <= k < |w| && w[k] == x;
    var t := (w[..i] + w[i + 1..]) + [y];
    assert t[if k < i then k else k - 1] == x;
  }

  lemma CheckedAt(s: seq<Job>, i: nat, now: int)
    requires i < |s| && TimedOut(s[i], now)
    ensures ImageOf(s, Relegated(s[i], now), now)
  {
    assert Relegated(s[i], now) == Checked(s[i], now);
  }

  lemma ScanBegins(s: seq<Job>, now: int)
    ensures Scanned(s, s + [], |s|, now)
  {
    assert s + [] == s;
  }

  lemma ScanEnds(s: seq<Job>, w: seq<Job>, now: int)
    requires Scanned(s, w, 0, now)
    ensures AllChecked(s, w, now)
  {
  }

  /** One step of the scan, for a late job and for any other. */
  lemma ScanStep(lim: Limits, a: Books, b: Books, i: nat, now: int)
    requires Steady(lim, a, b, {}) && Sound(b) && LinksFrom(a.active, b.active) && i < |a.active| && i < |b.active|
    requires Scanned(a.active, b.active, i + 1, now) && JobOk(b.active[i], |b.users|) && DistinctIds(a.active)
    ensures TimedOut(b.active[i], now) ==>
      && b.active[i].user < |b.users| && b.active[i].state.Running?
      && Steady(lim, a, Demoted(b, i, now), {}) && LinksFrom(a.active, Demoted(b, i, now).active)
      && Scanned(a.active, Demoted(b, i, now).active, i, now)
    ensures !TimedOut(b.active[i], now) ==> Scanned(a.active, b.active, i, now)
  {
    hide Sound, Steady, LinksFrom, Relegated, TimedOut, JobOk, Scanned;
    if TimedOut(b.active[i], now) {
      LateState(b.active[i], now, |b.users|);
      DemotedSteady(lim, b, i, now);
      ScannedDemote(a.active, b.active, i, now);
      SteadyThen(lim, a, b, Demoted(b, i, now));
      LinksTwice(a.active, b.active, Demoted(b, i, now).active);
      DemotedList(b, i, now);
    } else {
      ScannedKeep(a.active, b.active, i, now);
    }
  }

  lemma DemotedList(b: Books, i: nat, now: int)
    requires i < |b.active| && b.active[i].user < |b.users|
    ensures Demoted(b, i, now).active == (b.active[..i] + b.active[i + 1..]) + [Relegated(b.active[i], now)]
  {
    hide Relegated;
  }

  /** Each job was checked once, and they may have changed places. */
  ghost predicate AllChecked(s: seq<Job>, t: seq<Job>, now: int) {
    && |s| == |t|
    && (forall k :: 0 <= k < |t| ==> ImageOf(s, t[k], now))
    && forall k :: 0 <= k < |s| ==> Checked(s[k], now) in t
  }

  // ---------- a job ends ----------

  /** Equal in all that the counters look at. */
  ghost predicate SameBody(s: seq<Job>, t: seq<Job>) {
    && |s| == |t|
    && forall i :: 0 <= i < |s| ==> t[i] == s[i].(deps := t[i].deps, notify := t[i].notify, depErr := t[i].depErr)
  }

  lemma {:induction false} BodySum(s: seq<Job>, t: seq<Job>, m: Meter)
    requires SameBody(s, t)
    ensures Sum(t, m) == Sum(s, m)
  {
    if s != [] {
      BodySum(s[..|s| - 1], t[..|s| - 1], m);
      assert Weight(t[|s| - 1], m) == Weight(s[|s| - 1], m);
    }
  }

  lemma BodyRunning(s: seq<Job>, t: seq<Job>, u: nat)
    requires SameBody(s, t)
    ensures RunningOf(t, u) == RunningOf(s, u)
  {
    forall id
      ensures id in RunningOf(t, u) <==> id in RunningOf(s, u)
    {
      if id in RunningOf(t, u) {
        var k :| 0 <= k < |t| && t[k].state.Running? && t[k].user == u && t[k].id == id;
        assert s[k].state.Running? && s[k].user == u && s[k].id == id;
      }
      if id in RunningOf(s, u) {
        var k :| 0 <= k < |s| && s[k].state.Running? && s[k].user == u && s[k].id == id;
        assert t[k].state.Running? && t[k].user == u && t[k].id == id;
      }
    }
  }

  /** Dependencies and error levels do not concern the counters. */
  lemma BodySteady(lim: Limits, b: Books, c: Books)
    requires Sound(b) && SameBody(b.active, c.active) && c.users == b.users && c.busySlots == b.busySlots
    ensures Steady(lim, b, c, {})
  {
    hide Sum, Reading, RunningOf;
    forall m: Meter
      ensures Sum(c.active, m) == Sum(b.active, m)
    {
      BodySum(b.active, c.active, m);
    }
    forall u: nat
      ensures RunningOf(c.active, u) == RunningOf(b.active, u)
    {
      BodyRunning(b.active, c.active, u);
    }
    forall i | 0 <= i < |c.active|
      ensures JobOk(c.active[i], |c.users|)
    {
      assert JobOk(b.active[i], |b.users|);
    }
    hide JobOk;
    assert Sound(c);
    assert Exact(b) ==> Exact(c);
  }

  lemma NotifiedSteady(lim: Limits, b: Books, notify: seq<int>, e: int)
    requires Sound(b)
    ensures Steady(lim, b, b.(active := Notified(b.active, notify, e)), {})
  {
    hide Notified, Steady, Sound;
    NotifiedShape(b.active, notify, e);
    BodySteady(lim, b, b.(active := Notified(b.active, notify, e)));
  }

  /** Equal up to inherited error levels. */
  ghost predicate SameShape(s: seq<Job>, t: seq<Job>) {
    |s| == |t| && forall i :: 0 <= i < |s| ==> t[i] == s[i].(depErr := t[i].depErr)
  }

  lemma NotifiedShape(s: seq<Job>, notify: seq<int>, e: int)
    ensures SameShape(s, Notified(s, notify, e))
  {
    hide Times;
  }

  /** job_finished on the books: job i passes its error level on and quits. */
  function Ended(b: Books, i: nat, e: int): Books
    requires i < |b.active| && b.active[i].user < |b.users|
  {
    Quit(b.(active := Notified(b.active, b.active[i].notify, e)), i)
  }

  lemma EndedSteady(lim: Limits, b: Books, i: nat, e: int)
    requires Sound(b) && i < |b.active| && b.active[i].user < |b.users|
    ensures Steady(lim, b, Ended(b, i, e), {})
  {
    hide Sound, Steady, Quit, Times;
    var c := b.(active := Notified(b.active, b.active[i].notify, e));
    NotifiedSteady(lim, b, b.active[i].notify, e);
    SteadySound(lim, b, c, {});
    SoundAt(c, i);
    QuitSteady(lim, c, i);
    SteadyThen(lim, b, c, Quit(c, i));
  }

  /** One name of the list served. */
  lemma NotifyStep(s: seq<Job>, ns: seq<int>, e: int, x: int, f: nat)
    requires f < |s| && DistinctIds(s) && s[f].id == x
    ensures var t := Notified(s, ns, e); |t| == |s| && t[f := t[f].(depErr := t[f].depErr + e)] == Notified(s, ns + [x], e)
  {
    var t, r := Notified(s, ns, e), Notified(s, ns + [x], e);
    hide Times;
    forall i | 0 <= i < |s|
      ensures r[i] == t[f := t[f].(depErr := t[f].depErr + e)][i]
    {
      TimesMore(ns, x, s[i].id);
      assert (Times(ns, s[i].id) + 1) * e == Times(ns, s[i].id) * e + e;
    }
  }

  lemma NotifySkip(s: seq<Job>, ns: seq<int>, e: int, x: int)
    requires forall i :: 0 <= i < |s| ==> s[i].id != x
    ensures Notified(s, ns + [x], e) == Notified(s, ns, e)
  {
    hide Times;
    forall i | 0 <= i < |s|
      ensures Times(ns + [x], s[i].id) == Times(ns, s[i].id)
    {
      TimesMore(ns, x, s[i].id);
    }
  }

  lemma NotifyNone(s: seq<Job>, e: int)
    ensures Notified(s, [], e) == s
  {
    hide Times;
    forall i | 0 <= i < |s|
      ensures Times([], s[i].id) * e == 0
    {
      TimesNone(s[i].id);
    }
  }

  /** The finished list after job `y` joined and the oldest may have left. */
  ghost predicate Archived(f: seq<Job>, g: seq<Job>, y: Job) {
    && |f| <= |g| <= |f| + 1 && |g| > 0 && g[|g| - 1] == y
    && forall k :: 0 <= k < |g| - 1 ==> g[k] == f[k + (|f| + 1 - |g|)].(depErr := g[k].depErr)
  }

  lemma EndedRoster(b: Books, i: nat, e: int, f: seq<Job>, g: seq<Job>, y: Job, next: int)
    requires Sound(b) && i < |b.active| && b.active[i].user < |b.users| && OnRoster(b.active, f, next)
    requires Archived(f, g, y) && y.id == b.active[i].id && (y.state.Finished? || y.state.Skipped?)
    ensures OnRoster(Ended(b, i, e).active, g, next)
  {
    EndedIds(b, i, e);
    var t := Ended(b, i, e).active;
    hide Ended, Below, Sound;
    forall k | 0 <= k < |g| - 1
      ensures g[k].id < next && (g[k].state.Finished? || g[k].state.Skipped?) && g[k].id != y.id
      ensures forall k' :: k < k' < |g| - 1 ==> g[k].id != g[k'].id
      ensures forall q :: 0 <= q < |t| ==> t[q].id != g[k].id
    {
      assert g[k].id == f[k + (|f| + 1 - |g|)].id;
    }
  }

  lemma EndedIds(b: Books, i: nat, e: int)
    requires Sound(b) && i < |b.active| && b.active[i].user < |b.users|
    ensures var t := Ended(b, i, e).active;
      && |t| == |b.active| - 1 && DistinctIds(t)
      && forall k :: 0 <= k < |t| ==>
           t[k].id == b.active[if k < i then k else k + 1].id && t[k].deps == b.active[if k < i then k else k + 1].deps && t[k].id != b.active[i].id
           && t[k].notify == b.active[if k < i then k else k + 1].notify
  {
    hide Times, JobOk, Covers;
  }

  lemma EndedBalance(b: Books, i: nat, err: int, f: seq<Job>, g: seq<Job>, y: Job, book: Book, next: int)
    requires Sound(b) && i < |b.active| && b.active[i].user < |b.users| && OnRoster(b.active, f, next)
    requires InBalance(b.active, f, book, next)
    requires Archived(f, g, y) && y.id == b.active[i].id && y.notify == b.active[i].notify && y.err == err
    ensures InBalance(Ended(b, i, Abs(err)).active, g, Announce(book, b.active[i].id, Abs(err)), next)
  {
    var t := Ended(b, i, Abs(err)).active;
    EndedIds(b, i, Abs(err));
    SoundAt(b, i);
    hide Times, Below, Balanced, Sound, Abs;
    forall k | 0 <= k < |g|
      ensures (g[k] == y || KeptIn(f, g[k])) && Below(g[k].notify, next)
    {
      if k < |g| - 1 {
        assert f[k + (|f| + 1 - |g|)].id == g[k].id && f[k + (|f| + 1 - |g|)].notify == g[k].notify;
      }
    }
    hide Archived, KeptIn;
    EndKeeps(b.active, i, f, err, book, t, g, y);
  }

  lemma EndedShape(b: Books, i: nat, e: int)
    requires i < |b.active| && b.active[i].user < |b.users|
    ensures SameShape(b.active[..i] + b.active[i + 1..], Ended(b, i, e).active)
  {
    hide Times;
  }

  /** A job whose process has gone. */
  predicate Dead(env: Env, j: Job) {
    (j.state.Running? || j.state.Paused? || j.state.Abnormal?) && j.pid > 0 && !Alive(env, j.pid)
  }

  /** Some job has run too long. */
  predicate SomeLate(s: seq<Job>, now: int) {
    exists k :: 0 <= k < |s| && TimedOut(s[k], now)
  }

  lemma NoneLate(s: seq<Job>, now: int)
    requires forall k :: 0 <= k < |s| ==> !TimedOut(s[k], now)
    ensures !SomeLate(s, now)
  {
    hide TimedOut;
  }

  lemma LateOne(s: seq<Job>, i: nat, now: int)
    requires i < |s| && TimedOut(s[i], now)
    ensures SomeLate(s, now)
  {
  }

  lemma DeadOne(env: Env, s: seq<Job>, i: nat)
    requires i < |s| && Dead(env, s[i])
    ensures !NoneDead(env, s, 0)
  {
  }

  ghost predicate NoneDead(env: Env, s: seq<Job>, from: nat) {
    forall k :: from <= k < |s| ==> !Dead(env, s[k])
  }

  lemma StillNoneDead(env: Env, b: Books, i: nat, e: int)
    requires i < |b.active| && b.active[i].user < |b.users| && NoneDead(env, b.active, i + 1)
    ensures i <= |Ended(b, i, e).active| && NoneDead(env, Ended(b, i, e).active, i)
  {
    EndedShape(b, i, e);
    var s, t := b.active[..i] + b.active[i + 1..], Ended(b, i, e).active;
    hide Ended;
    forall k | i <= k < |t|
      ensures !Dead(env, t[k])
    {
      assert s[k] == b.active[k + 1];
    }
  }

  /** Only jobs whose process has gone may be missing. */
  ghost predicate Survive(env: Env, s: seq<Job>, t: seq<Job>) {
    forall k :: 0 <= k < |s| && !Dead(env, s[k]) ==> Known(t, s[k].id)
  }

  /** The jobs before i have not been looked at, and no live job is missing. */
  ghost predicate Burying(env: Env, s: seq<Job>, t: seq<Job>, i: nat) {
    i <= |s| && i <= |t| && SameShape(s[..i], t[..i]) && Survive(env, s, t)
  }

  lemma BuryingBegins(env: Env, s: seq<Job>)
    ensures Burying(env, s, s, |s|)
  {
    forall k | 0 <= k < |s|
      ensures Known(s, s[k].id)
    {
    }
  }

  lemma BuryingOn(env: Env, s: seq<Job>, t: seq<Job>, i: nat)
    requires i < |t| && Burying(env, s, t, i + 1)
    ensures Burying(env, s, t, i)
  {
    assert forall k :: 0 <= k < i ==> s[..i][k] == s[..i + 1][k] && t[..i][k] == t[..i + 1][k];
  }

  lemma BuryingOne(env: Env, s: seq<Job>, b: Books, i: nat, e: int)
    requires i < |b.active| && b.active[i].user < |b.users| && Burying(env, s, b.active, i + 1) && DistinctIds(s)
    requires Dead(env, b.active[i])
    ensures Burying(env, s, Ended(b, i, e).active, i)
  {
    var t, r := b.active, Ended(b, i, e).active;
    EndedShape(b, i, e);
    hide Ended;
    assert t[..i + 1][i] == t[i] && s[..i + 1][i] == s[i];
    assert Dead(env, s[i]) && s[i].id == t[i].id;
    forall k | 0 <= k < i
      ensures r[..i][k] == s[..i][k].(depErr := r[..i][k].depErr)
    {
      assert s[..i + 1][k] == s[..i][k] && t[..i + 1][k] == t[k] && (t[..i] + t[i + 1..])[k] == t[k];
    }
    forall k | 0 <= k < |s| && !Dead(env, s[k])
      ensures Known(r, s[k].id)
    {
      assert Known(t, s[k].id);
      var q :| 0 <= q < |t| && t[q].id == s[k].id;
      assert q != i;
      var m := if q < i then q else q - 1;
      assert (t[..i] + t[i + 1..])[m] == t[q];
      assert r[m].id == s[k].id;
    }
  }

  /** The endings are those of the dead jobs from index i on, each once, each with
      error level -1. */
  ghost predicate BuriedFrom(env: Env, s: seq<Job>, i: nat, ends: seq<Ending>) {
    && (forall k :: 0 <= k < |ends| ==> ends[k].amount == 1 && DeadFrom(env, s, i, ends[k].id))
    && (forall k :: i <= k < |s| && Dead(env, s[k]) ==> Ends(ends, s[k].id))
    && (forall j, k :: 0 <= j < k < |ends| ==> ends[j].id != ends[k].id)
  }

  ghost predicate DeadFrom(env: Env, s: seq<Job>, i: nat, id: int) {
    exists k :: i <= k < |s| && s[k].id == id && Dead(env, s[k])
  }

  ghost predicate Ends(ends: seq<Ending>, id: int) {
    exists k :: 0 <= k < |ends| && ends[k].id == id
  }

  /** Exactly the jobs whose process has gone have ended, each with error level -1. */
  ghost predicate Buried(env: Env, s: seq<Job>, ends: seq<Ending>) {
    BuriedFrom(env, s, 0, ends)
  }

  lemma BuriedNone(env: Env, s: seq<Job>)
    ensures BuriedFrom(env, s, |s|, [])
  {
  }

  lemma BuriedMore(env: Env, s: seq<Job>, i: nat, ends: seq<Ending>)
    requires i < |s| && BuriedFrom(env, s, i + 1, ends) && Dead(env, s[i]) && DistinctIds(s)
    ensures BuriedFrom(env, s, i, ends + [Ending(s[i].id, 1)])
  {
    hide Dead;
    var more := ends + [Ending(s[i].id, 1)];
    forall k | 0 <= k < |more|
      ensures more[k].amount == 1 && DeadFrom(env, s, i, more[k].id) && (k < |ends| ==> more[k].id != s[i].id)
    {
      if k < |ends| {
        assert DeadFrom(env, s, i + 1, ends[k].id);
        var q :| i + 1 <= q < |s| && s[q].id == ends[k].id && Dead(env, s[q]);
      }
    }
    forall k | i <= k < |s| && Dead(env, s[k])
      ensures Ends(more, s[k].id)
    {
      if k == i {
        assert more[|ends|].id == s[i].id;
      } else {
        assert Ends(ends, s[k].id);
        var q :| 0 <= q < |ends| && ends[q].id == s[k].id;
        assert more[q].id == s[k].id;
      }
    }
  }

  lemma BuriedSame(env: Env, s: seq<Job>, i: nat, ends: seq<Ending>)
    requires i < |s| && BuriedFrom(env, s, i + 1, ends) && !Dead(env, s[i])
    ensures BuriedFrom(env, s, i, ends)
  {
    hide Dead;
    forall k | 0 <= k < |ends|
      ensures DeadFrom(env, s, i, ends[k].id)
    {
      assert DeadFrom(env, s, i + 1, ends[k].id);
    }
  }

  /** Two lists with the same dead jobs. */
  lemma BuriedBoth(env: Env, s: seq<Job>, t: seq<Job>, ends: seq<Ending>)
    requires Buried(env, t, ends)
    requires forall id :: DeadFrom(env, s, 0, id) <==> DeadFrom(env, t, 0, id)
    ensures Buried(env, s, ends)
  {
    hide Dead;
    forall k | 0 <= k < |s| && Dead(env, s[k])
      ensures Ends(ends, s[k].id)
    {
      assert DeadFrom(env, s, 0, s[k].id) && DeadFrom(env, t, 0, s[k].id);
      var q :| 0 <= q < |t| && t[q].id == s[k].id && Dead(env, t[q]);
    }
  }

  lemma CheckedBuried(env: Env, s: seq<Job>, t: seq<Job>, ends: seq<Ending>)
    requires AllChecked(s, t, env.now) && Buried(env, t, ends)
    ensures Buried(env, s, ends)
  {
    hide Checked;
    forall id
      ensures DeadFrom(env, s, 0, id) <==> DeadFrom(env, t, 0, id)
    {
      if DeadFrom(env, s, 0, id) {
        var k :| 0 <= k < |s| && s[k].id == id && Dead(env, s[k]);
        var y := Checked(s[k], env.now);
        assert y in t;
        CheckedDead(env, s[k]);
        var q :| 0 <= q < |t| && t[q] == y;
      }
      if DeadFrom(env, t, 0, id) {
        var q :| 0 <= q < |t| && t[q].id == id && Dead(env, t[q]);
        assert ImageOf(s, t[q], env.now);
        var k :| 0 <= k < |s| && t[q] == Checked(s[k], env.now);
        CheckedDead(env, s[k]);
      }
    }
    hide Dead;
    BuriedBoth(env, s, t, ends);
  }

  lemma BuryingAt(env: Env, s: seq<Job>, t: seq<Job>, i: nat)
    requires Burying(env, s, t, i + 1)
    ensures i < |s| && i < |t| && s[i].id == t[i].id && (Dead(env, s[i]) <==> Dead(env, t[i]))
  {
    assert s[..i + 1][i] == s[i] && t[..i + 1][i] == t[i];
  }

  lemma CheckedSurvive(env: Env, s: seq<Job>, t: seq<Job>, r: seq<Job>)
    requires AllChecked(s, t, env.now) && Survive(env, t, r)
    ensures Survive(env, s, r)
  {
    forall k | 0 <= k < |s| && !Dead(env, s[k])
      ensures Known(r, s[k].id)
    {
      var y := Checked(s[k], env.now);
      assert y in t;
      var q :| 0 <= q < |t| && t[q] == y;
      CheckedDead(env, s[k]);
    }
  }

  lemma CheckedDead(env: Env, j: Job)
    ensures Checked(j, env.now).id == j.id && (Dead(env, Checked(j, env.now)) <==> Dead(env, j))
  {
  }

  // ---------- counting anew ----------

  /** What s_update_slots_usage puts into a counter: user.queue gets all jobs
      that do not run, also the paused, locked and abnormal ones. */
  function Asked(m: Meter): Meter {
    if m.Waits? then Others(m.who) else m
  }

  ghost predicate Tallied(users: seq<User>, usage: int, s: seq<Job>) {
    forall m: Meter :: Counted(m, |users|) ==> Reading(users, usage, m) == Sum(s, Asked(m))
  }

  /** One job added to the counters. */
  function Tally(users: seq<User>, j: Job): seq<User>
    requires j.user < |users|
  {
    var u := users[j.user];
    users[j.user := if j.state.Running? then u.(busy := u.busy + j.slots, jobs := u.jobs + 1) else u.(queue := u.queue + 1)]
  }

  lemma TallyStep(users: seq<User>, usage: int, s: seq<Job>, k: nat)
    requires k < |s| && s[k].user < |users| && Tallied(users, usage, s[..k])
    ensures Tallied(Tally(users, s[k]), if s[k].state.Running? then usage + s[k].slots else usage, s[..k + 1])
  {
    hide Sum;
    var vs, used := Tally(users, s[k]), if s[k].state.Running? then usage + s[k].slots else usage;
    forall m: Meter | Counted(m, |vs|)
      ensures Reading(vs, used, m) == Sum(s[..k + 1], Asked(m))
    {
      assert s[..k + 1] == s[..k] + [s[k]];
      SumAppend(s[..k], s[k], Asked(m));
      assert Reading(users, usage, m) == Sum(s[..k], Asked(m));
    }
  }

  lemma {:induction false} WaitsAmongOthers(s: seq<Job>, u: nat)
    ensures Sum(s, Waits(u)) <= Sum(s, Others(u))
  {
    if s != [] {
      WaitsAmongOthers(s[..|s| - 1], u);
    }
  }

  lemma TalliedSteady(lim: Limits, a: Books, b: Books)
    requires Sound(a) && b.active == a.active && SameCaps(a.users, b.users) && Tallied(b.users, b.busySlots, b.active)
    ensures Steady(lim, a, b, {}) && Even(b)
  {
    hide Sum, JobsOk, DistinctIds, RunningOf, AllTidy, AllServed;
    assert Reading(b.users, b.busySlots, AllSlots) == Sum(b.active, Asked(AllSlots));
    assert Sum(a.active, AllSlots) <= Reading(a.users, a.busySlots, AllSlots);
    forall m: Meter | Counted(m, |b.users|)
      ensures Sum(b.active, m) <= Reading(b.users, b.busySlots, m)
      ensures !m.Waits? ==> Sum(b.active, m) == Reading(b.users, b.busySlots, m)
    {
      assert Reading(b.users, b.busySlots, m) == Sum(b.active, Asked(m));
      if m.Waits? {
        WaitsAmongOthers(b.active, m.who);
      }
    }
  }

  // ---------- leaving without a result ----------

  lemma DeletedSteady(lim: Limits, b: Books, i: nat)
    requires Sound(b) && i < |b.active| && !b.active[i].state.Running?
    ensures var t := b.active[..i] + b.active[i + 1..]; Steady(lim, b, b.(active := t), {}) && LinksFrom(b.active, t)
  {
    hide Steady, LinksFrom, Sound;
    DropSteady(lim, b, i);
    LinksRemoved(b.active, i);
  }

  /** s_remove_job of a job that has not run: it announces a failure. */
  lemma RemovedKept(b: Books, i: nat, f: seq<Job>, g: seq<Job>, book: Book, next: int)
    requires Sound(b) && i < |b.active| && b.active[i].user < |b.users| && OnRoster(b.active, f, next) && SameShape(f, g)
    ensures OnRoster(Ended(b, i, 1).active, g, next)
    ensures InBalance(b.active, f, book, next) ==>
      InBalance(Ended(b, i, 1).active, g, Announce(book, b.active[i].id, 1), next)
  {
    EndedIds(b, i, 1);
    SoundAt(b, i);
    var t, y := Ended(b, i, 1).active, b.active[i].(err := -1);
    RemovedRoster(b.active, i, t, f, g, next);
    if InBalance(b.active, f, book, next) {
      hide Times, Below, Balanced, Sound;
      forall k | 0 <= k < |g|
        ensures KeptIn(f, g[k]) && Below(g[k].notify, next)
      {
        assert f[k].id == g[k].id && f[k].notify == g[k].notify && f[k].err == g[k].err;
      }
      hide KeptIn, OnRoster, SameShape;
      EndKeeps(b.active, i, f, -1, book, t, g, y);
    }
  }

  lemma RemovedRoster(s: seq<Job>, i: nat, t: seq<Job>, f: seq<Job>, g: seq<Job>, next: int)
    requires i < |s| && OnRoster(s, f, next) && SameShape(f, g) && |t| == |s| - 1 && DistinctIds(t)
    requires forall k :: 0 <= k < |t| ==>
      t[k].id == s[if k < i then k else k + 1].id && t[k].deps == s[if k < i then k else k + 1].deps
    ensures OnRoster(t, g, next)
  {
    hide Below;
  }

  /** s_remove_job of a finished job: it announces a failure once more. */
  lemma ForgottenKept(b: Books, k: nat, f: seq<Job>, g: seq<Job>, h: seq<Job>, book: Book, next: int)
    requires OnRoster(b.active, f, next) && DistinctIds(b.active) && k < |f| && SameShape(f, g) && h == g[..k] + g[k + 1..]
    ensures OnRoster(Notified(b.active, f[k].notify, 1), h, next)
    ensures InBalance(b.active, f, book, next) ==>
      InBalance(Notified(b.active, f[k].notify, 1), h, Announce(book, f[k].id, 1), next)
  {
    var t := Notified(b.active, f[k].notify, 1);
    NotifiedShape(b.active, f[k].notify, 1);
    ForgottenRoster(b.active, t, k, f, g, h, next);
    if InBalance(b.active, f, book, next) {
      hide Times, Below;
      ForgetKeeps(b.active, f, k, book);
      var m := f[..k] + f[k + 1..];
      assert SameShape(m, h);
      FinishedShape(t, m, h, Announce(book, f[k].id, 1));
      hide Balanced, Notified, OnRoster;
    }
  }

  lemma ForgottenRoster(s: seq<Job>, t: seq<Job>, k: nat, f: seq<Job>, g: seq<Job>, h: seq<Job>, next: int)
    requires OnRoster(s, f, next) && SameShape(s, t) && k < |f| && SameShape(f, g) && h == g[..k] + g[k + 1..]
    ensures OnRoster(t, h, next)
  {
    hide Below;
    forall q | 0 <= q < |h|
      ensures h[q] == g[if q < k then q else q + 1]
    {
    }
  }

  lemma FinishedShape(s: seq<Job>, f: seq<Job>, g: seq<Job>, book: Book)
    requires Balanced(s, f, book) && SameShape(f, g)
    ensures Balanced(s, g, book)
  {
    hide Linked, Settled;
    forall a, k | 0 <= a < |g| && 0 <= k < |s|
      ensures Linked(g[a], s[k], book)
    {
      LinkedEdited(f[a], s[k], g[a], s[k], book, book);
    }
  }

  // ---------- health ----------

  /** s_check_running_health on one job: after five minutes without output and
      without children it is abnormal and loses its slots. */
  predicate Examinable(j: Job, now: int) {
    j.state.Running? && !j.healthy && j.pid > 0 && now - j.start >= 300
  }

  function Examined(j: Job, env: Env): Job {
    if !Examinable(j, env.now) then j
    else if j.pid in env.idle then j.(state := Abnormal, held := 0, bound := 0)
    else j.(healthy := true)
  }

  function ExaminedBooks(b: Books, i: nat, env: Env): Books
    requires i < |b.active| && b.active[i].user < |b.users|
  {
    var y := Examined(b.active[i], env);
    if Examinable(b.active[i], env.now) && y.state.Abnormal? then Stop(b, i, y) else b.(active := b.active[i := y])
  }

  lemma ExaminedSteady(lim: Limits, b: Books, i: nat, env: Env)
    requires Sound(b) && i < |b.active| && JobOk(b.active[i], |b.users|)
    ensures Steady(lim, b, ExaminedBooks(b, i, env), {}) && LinksFrom(b.active, ExaminedBooks(b, i, env).active)
    ensures |ExaminedBooks(b, i, env).users| == |b.users|
    ensures ExaminedBooks(b, i, env).active == b.active[i := Examined(b.active[i], env)]
  {
    var y := Examined(b.active[i], env);
    assert JobOk(y, |b.users|) && SameLinks(b.active[i], y);
    LinksReplaced(b.active, i, y);
    if y.state.Abnormal? {
      StopSteady(lim, b, i, y);
    } else {
      EditSteady(lim, b, i, y);
    }
    hide Sound, Steady, LinksFrom;
  }

  ghost predicate ExaminedUpTo(s: seq<Job>, t: seq<Job>, k: nat, env: Env) {
    && |s| == |t|
    && forall i :: 0 <= i < |s| ==> t[i] == if i < k then Examined(s[i], env) else s[i]
  }

  lemma ExaminedMore(s: seq<Job>, t: seq<Job>, k: nat, env: Env)
    requires k < |s| && ExaminedUpTo(s, t, k, env)
    ensures ExaminedUpTo(s, t[k := Examined(t[k], env)], k + 1, env)
  {
    hide Examined;
  }

  // ---------- a job reports its process ----------

  /** s_process_runjob_ok: the process is known, CPUs are bound, the clock starts. */
  function Confirmed(b: Books, i: nat, pid: int, now: int, cpus: nat, binding: bool): Job
    requires i < |b.active|
  {
    var p := b.active[i].(pid := pid);
    p.(bound := BoundTo(b.active, cpus, binding, p), start := if p.start == 0 then now else p.start)
  }

  lemma ConfirmedSteady(lim: Limits, b: Books, i: nat, pid: int, now: int, cpus: nat, binding: bool)
    requires Sound(b) && i < |b.active| && b.active[i].state.Running? && JobOk(b.active[i], |b.users|)
    requires lim.cpus == cpus && lim.binding == binding && b.active[i].bound == 0
    ensures var t := b.active[i := Confirmed(b, i, pid, now, cpus, binding)];
      Steady(lim, b, b.(active := t), {}) && LinksFrom(b.active, t)
  {
    var y := Confirmed(b, i, pid, now, cpus, binding);
    var c := b.(active := b.active[i := y]);
    if FullyBound(lim, b) && binding {
      RoomForRunning(b, i, cpus);
    }
    hide Sum;
    assert JobOk(y, |b.users|) && SameLinks(b.active[i], y) && SameCaps(b.users, c.users) && Pays(b, c, b.active[i], y);
    assert Exact(b) ==> PaysExactly(b, c, b.active[i], y);
    hide JobOk, Sound, Pays, PaysExactly, SameCaps, Exact, LinksFrom, Steady;
    Replaced(lim, b, c, i, y, {});
    LinksReplaced(b.active, i, y);
  }

  // ---------- a job joins ----------

  lemma KnownAt(s: seq<Job>, id: int, i: int)
    requires i == -1 || (0 <= i < |s| && s[i].id == id)
    requires i == -1 ==> forall k :: 0 <= k < |s| ==> s[k].id != id
    ensures Known(s, id) <==> i != -1
  {
  }

  predicate Known(s: seq<Job>, id: int) {
    exists k :: 0 <= k < |s| && s[k].id == id
  }

  /** What s_newjob looks at: the jobs there were and the last that ended. */
  datatype Past = Past(active: seq<Job>, finished: seq<Job>, lastErr: int, lastFinished: int)

  /** The largest id, -1 if there is none. */
  function LargestId(s: seq<Job>): int {
    if s == [] then -1
    else
      var m, last := LargestId(s[..|s| - 1]), s[|s| - 1].id;
      if last > m then last else m
  }

  /** The error level of the stored job `d`. */
  function ErrOf(f: seq<Job>, d: int): int {
    if f == [] then 0 else if f[|f| - 1].id == d then f[|f| - 1].err else ErrOf(f[..|f| - 1], d)
  }

  /** The queued job that a dependency on the last job awaits: the newest one, if
      none has ended after it was handed out. */
  predicate AwaitsLast(p: Past) {
    LargestId(p.active) != -1 && p.lastFinished <= LargestId(p.active)
  }

  /** The job that one requested dependency stands for; -1 is the last job. */
  function TargetOf(p: Past, d: int): int {
    if d != -1 then d else if AwaitsLast(p) then LargestId(p.active) else LargestId(p.finished)
  }

  /** The active jobs whose end has to be awaited for it. */
  function AwaitedFor(p: Past, d: int): seq<int> {
    if d == -1 then (if AwaitsLast(p) then [LargestId(p.active)] else [])
    else if Known(p.active, d) then [d]
    else []
  }

  /** The error level that counts at once: that of a stored job, the last one for a
      dependency on the last job, 1 for a job that is not known. */
  function InheritedFrom(p: Past, d: int): int {
    if AwaitedFor(p, d) != [] then 0
    else if d == -1 then
      (if p.lastFinished < LargestId(p.finished) && LargestId(p.finished) != -1 then Abs(ErrOf(p.finished, LargestId(p.finished))) else Abs(p.lastErr))
    else if Known(p.finished, d) then Abs(ErrOf(p.finished, d))
    else 1
  }

  /** The same for all that a client asks for; ids not yet handed out are skipped. */
  function AllTargets(p: Past, id: int, wanted: seq<int>): seq<int> {
    if wanted == [] then []
    else
      var d := wanted[|wanted| - 1];
      AllTargets(p, id, wanted[..|wanted| - 1]) + if d < id then [TargetOf(p, d)] else []
  }

  function AllAwaited(p: Past, id: int, wanted: seq<int>): seq<int> {
    if wanted == [] then []
    else
      var d := wanted[|wanted| - 1];
      AllAwaited(p, id, wanted[..|wanted| - 1]) + if d < id then AwaitedFor(p, d) else []
  }

  function AllInherited(p: Past, id: int, wanted: seq<int>): int {
    if wanted == [] then 0
    else
      var d := wanted[|wanted| - 1];
      AllInherited(p, id, wanted[..|wanted| - 1]) + if d < id then InheritedFrom(p, d) else 0
  }

  /** The book after the new job took up dependencies. */
  function Depended(book: Book, id: int, awaited: seq<int>, e: int): Book {
    if id in book.base && id in book.awaited
    then book.(base := book.base[id := book.base[id] + e], awaited := book.awaited[id := book.awaited[id] + awaited])
    else book
  }

  lemma DependedNothing(book: Book, id: int)
    ensures Depended(book, id, [], 0) == book
  {
    if id in book.base && id in book.awaited {
      assert book.awaited[id] + [] == book.awaited[id];
      assert book.base[id := book.base[id] + 0] == book.base && book.awaited[id := book.awaited[id] + []] == book.awaited;
    }
  }

  lemma DependedTwice(book: Book, id: int, a: seq<int>, b: seq<int>, e: int, f: int)
    ensures Depended(Depended(book, id, a, e), id, b, f) == Depended(book, id, a + b, e + f)
  {
    if id in book.base && id in book.awaited {
      assert book.awaited[id] + a + b == book.awaited[id] + (a + b);
    }
  }

  lemma DependedAwaiting(book: Book, id: int, d: int)
    requires id in book.base && id in book.awaited
    ensures Awaiting(book, id, d) == Depended(book, id, [d], 0)
  {
    assert book.base[id := book.base[id] + 0] == book.base;
  }

  lemma DependedRaised(book: Book, id: int, e: int)
    requires id in book.base && id in book.awaited
    ensures Raised(book, id, e) == Depended(book, id, [], e)
  {
    assert book.awaited[id] + [] == book.awaited[id];
    assert book.awaited[id := book.awaited[id]] == book.awaited;
  }

  lemma {:induction false} LargestIs(s: seq<Job>, m: int)
    requires forall k :: 0 <= k < |s| ==> s[k].id <= m
    requires m == -1 || (m > -1 && Known(s, m))
    ensures LargestId(s) == m
  {
    if s != [] {
      var r, last := s[..|s| - 1], s[|s| - 1].id;
      LargestBound(r, m);
      if m != -1 && last != m {
        var k :| 0 <= k < |s| && s[k].id == m;
        assert r[k].id == m;
        LargestIs(r, m);
      }
    }
  }

  lemma {:induction false} LargestBound(s: seq<Job>, m: int)
    requires m >= -1 && forall k :: 0 <= k < |s| ==> s[k].id <= m
    ensures -1 <= LargestId(s) <= m
  {
    if s != [] {
      LargestBound(s[..|s| - 1], m);
    }
  }

  lemma {:induction false} ErrIs(f: seq<Job>, k: nat)
    requires k < |f| && DistinctIds(f)
    ensures ErrOf(f, f[k].id) == f[k].err
  {
    if k < |f| - 1 {
      ErrIs(f[..|f| - 1], k);
    }
  }

  /** Job n is the one being enqueued: its id is the largest. */
  ghost predicate Joining(active: seq<Job>, finished: seq<Job>, n: nat) {
    && n < |active| && 0 < active[n].id && DistinctIds(active) && DistinctIds(finished)
    && (forall k :: 0 <= k < |active| && k != n ==> active[k].id < active[n].id)
    && (forall k :: 0 <= k < |finished| ==> finished[k].id < active[n].id)
    && (forall i, k :: 0 <= i < |active| && 0 <= k < |finished| ==> active[i].id != finished[k].id)
  }

  lemma JoiningBounds(active: seq<Job>, finished: seq<Job>, n: nat)
    requires Joining(active, finished, n)
    ensures forall k :: 0 <= k < |active| && active[k].id != active[n].id ==> active[k].id < active[n].id
    ensures forall k :: 0 <= k < |finished| ==> finished[k].id < active[n].id
  {
  }

  /** The jobs that were there before job n joined at the end. */
  ghost predicate JoinedTo(p: Past, active: seq<Job>, finished: seq<Job>, n: nat) {
    && n + 1 == |active| && |p.active| == n && p.finished == finished
    && forall k :: 0 <= k < n ==> active[k].id == p.active[k].id
  }

  lemma KnownBefore(p: Past, active: seq<Job>, finished: seq<Job>, n: nat, d: int)
    requires JoinedTo(p, active, finished, n) && d != active[n].id
    ensures Known(active, d) <==> Known(p.active, d)
  {
    if Known(active, d) {
      var k :| 0 <= k < |active| && active[k].id == d;
      assert p.active[k].id == d;
    }
    if Known(p.active, d) {
      var k :| 0 <= k < |p.active| && p.active[k].id == d;
      assert active[k].id == d;
    }
  }

  lemma JoiningBody(s: seq<Job>, t: seq<Job>, finished: seq<Job>, n: nat)
    requires Joining(s, finished, n) && SameBody(s, t)
    ensures Joining(t, finished, n)
  {
  }

  /** Only what the counters do not look at has changed, and no list of dependencies. */
  ghost predicate SameDeps(s: seq<Job>, t: seq<Job>) {
    SameBody(s, t) && forall k :: 0 <= k < |s| ==> t[k].deps == s[k].deps
  }

  lemma AwaitJoined(s: seq<Job>, f: seq<Job>, i: nat, n: nat, book: Book)
    requires Joining(s, f, n) && i < |s| && i != n
    ensures var t := s[i := s[i].(notify := s[i].notify + [s[n].id])];
      Joining(t, f, n) &&
      (InBalance(s, f, book, s[n].id + 1) ==> InBalance(t, f, Awaiting(book, s[n].id, s[i].id), s[n].id + 1))
  {
    var t := s[i := s[i].(notify := s[i].notify + [s[n].id])];
    JoiningBody(s, t, f, n);
    if InBalance(s, f, book, s[n].id + 1) {
      AwaitKeeps(s, f, book, i, n);
      AwaitNames(s, f, i, n, book);
    }
    hide Balanced, NamesBelow, Joining;
  }

  lemma AwaitNames(s: seq<Job>, f: seq<Job>, i: nat, n: nat, book: Book)
    requires Joining(s, f, n) && i < |s| && i != n && NamesBelow(s, f, book, s[n].id + 1)
    ensures NamesBelow(s[i := s[i].(notify := s[i].notify + [s[n].id])], f, Awaiting(book, s[n].id, s[i].id), s[n].id + 1)
  {
  }

  lemma InheritJoined(s: seq<Job>, f: seq<Job>, n: nat, e: int, book: Book)
    requires Joining(s, f, n)
    ensures var t := s[n := s[n].(depErr := s[n].depErr + e)];
      Joining(t, f, n) && (InBalance(s, f, book, s[n].id + 1) ==> InBalance(t, f, Raised(book, s[n].id, e), s[n].id + 1))
  {
    var t := s[n := s[n].(depErr := s[n].depErr + e)];
    JoiningBody(s, t, f, n);
    if InBalance(s, f, book, s[n].id + 1) {
      BaseKeeps(s, f, book, n, e);
      hide Balanced, Joining, Below;
    }
    hide Balanced, Joining, Below;
  }

  /** The list of dependencies itself is not part of the ledger. */
  lemma DepAdded(s: seq<Job>, f: seq<Job>, n: nat, d: int, book: Book)
    requires Joining(s, f, n) && n < |s| && d < s[n].id && Below(s[n].deps, s[n].id)
    ensures var t := s[n := s[n].(deps := s[n].deps + [d])];
      Joining(t, f, n) && Below(t[n].deps, t[n].id) &&
      (InBalance(s, f, book, s[n].id + 1) ==> InBalance(t, f, book, s[n].id + 1))
  {
    var t := s[n := s[n].(deps := s[n].deps + [d])];
    JoiningBody(s, t, f, n);
    if InBalance(s, f, book, s[n].id + 1) {
      DepBalance(s, f, n, d, book);
    }
    hide InBalance, Joining;
  }

  lemma DepBalance(s: seq<Job>, f: seq<Job>, n: nat, d: int, book: Book)
    requires n < |s| && InBalance(s, f, book, s[n].id + 1)
    ensures InBalance(s[n := s[n].(deps := s[n].deps + [d])], f, book, s[n].id + 1)
  {
    var t := s[n := s[n].(deps := s[n].deps + [d])];
    hide Below;
    forall k | 0 <= k < |t|
      ensures Settled(t[k], book) && t[k].id !in book.announced
    {
      assert Settled(s[k], book);
    }
    hide Settled, Linked;
    forall a, k | 0 <= a < |t| && 0 <= k < |t|
      ensures Linked(t[a], t[k], book)
    {
      LinkedEdited(s[a], s[k], t[a], t[k], book, book);
    }
    forall a, k | 0 <= a < |f| && 0 <= k < |t|
      ensures Linked(f[a], t[k], book)
    {
      LinkedEdited(f[a], s[k], f[a], t[k], book, book);
    }
  }

  /** What a client asks for. */
  datatype NewJob = NewJob(slots: int, wall: int, sched: int, wanted: seq<int>, client: int, noBinding: bool)

  /** The new record, before its dependencies are looked at. */
  function Blank(id: int, u: nat, m: NewJob, maxWall: int, room: bool): Job {
    Job(id, if room then Queued else Holding, u, m.slots, 0, 0, m.noBinding,
        if maxWall > m.wall then m.wall else maxWall, m.sched, 0, m.client, [], [], 0, 0, false, 0, 0, 0)
  }

  /** A job as it has just been enqueued. */
  ghost predicate Fresh(j: Job, id: int, u: nat, m: NewJob, maxWall: int, room: bool) {
    j == Blank(id, u, m, maxWall, room).(deps := j.deps, notify := j.notify, depErr := j.depErr) && Below(j.deps, id)
  }

  lemma BlankFresh(s: seq<Job>, n: nat, p: Job, id: int, u: nat, m: NewJob, maxWall: int, room: bool)
    requires n < |s| && s[n] == p.(deps := s[n].deps, notify := s[n].notify, depErr := s[n].depErr)
    requires p == Blank(id, u, m, maxWall, room) && Below(s[n].deps, s[n].id)
    ensures Fresh(s[n], id, u, m, maxWall, room)
  {
  }

  lemma NextId(s: seq<Job>, f: seq<Job>, book: Book, next: int)
    requires OnRoster(s, f, next)
    ensures OnRoster(s, f, next + 1) && (InBalance(s, f, book, next) ==> InBalance(s, f, book, next + 1))
  {
    hide Balanced;
  }

  lemma JoinBegins(s: seq<Job>, f: seq<Job>, next: int, p: Job, book: Book)
    requires OnRoster(s, f, next) && p.id == next && p.notify == [] && p.depErr == 0 && p.deps == []
    ensures Joining(s + [p], f, |s|) && Below((s + [p])[|s|].deps, next)
    ensures InBalance(s, f, book, next) ==> InBalance(s + [p], f, Opened(book, next), next + 1)
  {
    var t := s + [p];
    assert forall k :: 0 <= k < |s| ==> t[k] == s[k];
    if InBalance(s, f, book, next) {
      NothingMentioned(s, f, book, next);
      hide Balanced;
      EnqueueKeeps(s, f, book, p);
    }
    hide Balanced;
  }

  /** The new job counts as waiting, and dependencies are no concern of the counters. */
  lemma JoinEnds(lim: Limits, b: Books, c: Books, p: Job, f: seq<Job>, u: nat)
    requires Sound(b) && SameBody(b.active + [p], c.active) && c.busySlots == b.busySlots && u == p.user < |b.users|
    requires c.users == b.users[u := b.users[u].(queue := b.users[u].queue + 1)]
    requires JobOk(p, |b.users|) && (p.state.Queued? || p.state.Holding?)
    requires OnRoster(b.active, f, p.id) && Joining(c.active, f, |b.active|) && Below(c.active[|b.active|].deps, p.id)
    requires forall k :: 0 <= k < |b.active| ==> c.active[k].deps == b.active[k].deps
    ensures Steady(lim, b, c, {}) && OnRoster(c.active, f, p.id + 1)
  {
    var d := c.(active := b.active + [p]);
    JoinRoster(b.active, c.active, p, f);
    hide Below;
    assert SameCaps(b.users, d.users);
    Joined(lim, b, d, p);
    hide Sound, SameBody, Joining, OnRoster, Steady, JobOk;
    SteadySound(lim, b, d, {});
    BodySteady(lim, d, c);
    SteadyThen(lim, b, d, c);
  }

  lemma JoinRoster(s: seq<Job>, t: seq<Job>, p: Job, f: seq<Job>)
    requires SameBody(s + [p], t) && OnRoster(s, f, p.id) && Joining(t, f, |s|) && Below(t[|s|].deps, p.id)
    requires forall k :: 0 <= k < |s| ==> t[k].deps == s[k].deps
    ensures OnRoster(t, f, p.id + 1)
  {
    hide Below;
    forall k | 0 <= k < |t|
      ensures t[k].id < p.id + 1 && Below(t[k].deps, t[k].id)
    {
      assert t[k].id == (s + [p])[k].id;
    }
  }

  // ---------- restart ----------

  /** Rows as an earlier server wrote them; nothing is recorded as allocated. */
  predicate RowOk(j: Job, n: nat) {
    && j.id > 0 && j.user < n && 1 <= j.slots && j.held == 0
    && (j.state.Queued? || j.state.Locked? ==> j.pid == 0)
  }

  ghost predicate RowsOk(rows: seq<Job>, n: nat) {
    && DistinctIds(rows)
    && forall k :: 0 <= k < |rows| ==> RowOk(rows[k], n) && Below(rows[k].deps, rows[k].id)
  }

  ghost predicate Apart(rows: seq<Job>, stored: seq<Job>) {
    forall i, k :: 0 <= i < |rows| && 0 <= k < |stored| ==> rows[i].id != stored[k].id
  }

  /** s_add_job: running jobs need a live process, and are paused if they were
      paused before; held and abnormal jobs are not taken up again. */
  function Restored(j: Job, env: Env): Edited {
    var p := j.(client := 0, bound := 0);
    match j.state
    case Running =>
      if !Alive(env, j.pid) then None
      else if j.pauseTime > 0 then Some(p.(state := Paused))
      else Some(p)
    case Queued => Some(p)
    case Locked => Some(p)
    case Paused => Some(p.(pauseTime := if j.pauseTime == 0 then env.now else j.pauseTime))
    case _ => None
  }

  function Loaded(rows: seq<Job>, env: Env): seq<Job> {
    if rows == [] then []
    else
      var r := Restored(rows[|rows| - 1], env);
      Loaded(rows[..|rows| - 1], env) + if r.Some? then [r.job] else []
  }

  lemma LoadedStep(rows: seq<Job>, k: nat, env: Env)
    requires k < |rows|
    ensures Loaded(rows[..k + 1], env) == Loaded(rows[..k], env) + if Restored(rows[k], env).Some? then [Restored(rows[k], env).job] else []
  {
    assert rows[..k + 1][..k] == rows[..k];
  }

  lemma RestoredUser(j: Job, env: Env)
    ensures Restored(j, env).Some? ==> Restored(j, env).job.user == j.user && Restored(j, env).job.id == j.id
    ensures Restored(j, env).Some? ==> Restored(j, env).job.deps == j.deps
  {
  }

  lemma RestoredOk(j: Job, env: Env, n: nat)
    requires RowOk(j, n)
    ensures Restored(j, env).Some? ==> JobOk(Restored(j, env).job, n) && Restored(j, env).job.bound == 0 && Restored(j, env).job.id > 0
  {
  }

  /** Every loaded job comes from a row, and they keep their order. */
  lemma {:induction false} LoadedFrom(rows: seq<Job>, env: Env, n: nat, q: nat) returns (k: nat)
    requires RowsOk(rows, n) && q < |Loaded(rows, env)|
    ensures k < |rows| && q <= k && Restored(rows[k], env).Some? && Loaded(rows, env)[q] == Restored(rows[k], env).job
    ensures Loaded(rows, env)[q].bound == 0 && Loaded(rows, env)[q].id > 0
    ensures JobOk(Loaded(rows, env)[q], n) && Loaded(rows, env)[q].id == rows[k].id && Loaded(rows, env)[q].deps == rows[k].deps
  {
    hide Restored, RowOk, JobOk, Below;
    var m := |rows| - 1;
    var r := Loaded(rows[..m], env);
    LoadedShorter(rows[..m], env);
    if q < |r| {
      k := LoadedFrom(rows[..m], env, n, q);
    } else {
      k := m;
      RestoredUser(rows[m], env);
      RestoredOk(rows[m], env, n);
    }
  }

  lemma {:induction false} LoadedShorter(rows: seq<Job>, env: Env)
    ensures |Loaded(rows, env)| <= |rows|
  {
    hide Restored;
    if rows != [] {
      LoadedShorter(rows[..|rows| - 1], env);
    }
  }

  lemma {:induction false} LoadedDistinct(rows: seq<Job>, env: Env, n: nat)
    requires RowsOk(rows, n)
    ensures DistinctIds(Loaded(rows, env))
  {
    hide Restored, RowOk, JobOk, Below;
    if rows != [] {
      var m := |rows| - 1;
      var r := Loaded(rows[..m], env);
      LoadedDistinct(rows[..m], env, n);
      RestoredUser(rows[m], env);
      forall q | 0 <= q < |r|
        ensures r[q].id != rows[m].id
      {
        var k := LoadedFrom(rows[..m], env, n, q);
      }
    }
  }

  lemma LoadedOk(rows: seq<Job>, stored: seq<Job>, env: Env, n: nat, first: int, next: int)
    requires RowsOk(rows, n) && OnRoster([], stored, first) && Apart(rows, stored) && first <= next
    requires forall k :: 0 <= k < |Loaded(rows, env)| ==> Loaded(rows, env)[k].id < next
    ensures JobsOk(Loaded(rows, env), n) && DistinctIds(Loaded(rows, env)) && OnRoster(Loaded(rows, env), stored, next)
    ensures forall q :: 0 <= q < |Loaded(rows, env)| ==> Loaded(rows, env)[q].bound == 0 && Loaded(rows, env)[q].id > 0
  {
    var t := Loaded(rows, env);
    LoadedDistinct(rows, env, n);
    hide Restored, RowOk, JobOk, Below, Loaded;
    forall q | 0 <= q < |t|
      ensures t[q].bound == 0 && t[q].id > 0
      ensures JobOk(t[q], n) && Below(t[q].deps, t[q].id) && forall k :: 0 <= k < |stored| ==> t[q].id != stored[k].id
    {
      var k := LoadedFrom(rows, env, n, q);
    }
  }

  lemma LoadedSound(us: seq<User>, vs: seq<User>, b: Books)
    requires RootFirst(us) && SameCaps(us, vs) && SameCaps(vs, b.users)
    requires Tallied(b.users, b.busySlots, b.active) && JobsOk(b.active, |b.users|) && DistinctIds(b.active)
    ensures Sound(b)
  {
    hide Sum, JobsOk, DistinctIds;
    forall m: Meter | Counted(m, |b.users|)
      ensures Sum(b.active, m) <= Reading(b.users, b.busySlots, m)
    {
      assert Reading(b.users, b.busySlots, m) == Sum(b.active, Asked(m));
      if m.Waits? {
        WaitsAmongOthers(b.active, m.who);
      }
    }
  }

  // ---------- facts that callers use without the definitions ----------

  lemma ArchivedLast(f: seq<Job>, g: seq<Job>, y: Job)
    requires Archived(f, g, y)
    ensures |g| > 0 && g[|g| - 1] == y
  {
  }

  lemma EndedUsers(a: Books, i: nat, e: int)
    requires i < |a.active| && a.active[i].user < |a.users|
    ensures |Ended(a, i, e).users| == |a.users| && SameCaps(a.users, Ended(a, i, e).users)
  {
  }

  lemma ArchivedThrough(f: seq<Job>, g: seq<Job>, h: seq<Job>, y: Job)
    requires SameShape(f, g) && Archived(g, h, y)
    ensures Archived(f, h, y)
  {
  }

  lemma EndedKept(a: Books, i: nat, err: int, f: seq<Job>, g: seq<Job>, h: seq<Job>, p: Job, book: Book, next: int)
    requires Sound(a) && i < |a.active| && a.active[i].user < |a.users| && OnRoster(a.active, f, next)
    requires SameShape(f, g) && Archived(g, h, p)
    requires p.id == a.active[i].id && p.notify == a.active[i].notify && p.err == err && (p.state.Finished? || p.state.Skipped?)
    ensures OnRoster(Ended(a, i, Abs(err)).active, h, next)
    ensures InBalance(a.active, f, book, next) ==>
      InBalance(Ended(a, i, Abs(err)).active, h, Announce(book, a.active[i].id, Abs(err)), next)
  {
    hide Sound, OnRoster, InBalance, Abs, Ended, Announce, SameShape, Archived;
    ArchivedThrough(f, g, h, p);
    EndedRoster(a, i, Abs(err), f, h, p, next);
    if InBalance(a.active, f, book, next) {
      EndedBalance(a, i, err, f, h, p, book, next);
    }
  }

  lemma FreedIds(s: seq<Job>, i: nat)
    requires i < |s| && DistinctIds(s)
    ensures DistinctIds(s[i := s[i].(held := 0)])
  {
  }

  /** free_cores and notify_errorlevel do not touch the same fields. */
  lemma FreedNotified(a: Books, i: nat, b: Books, e: int)
    requires i < |a.active| && a.active[i].user < |a.users|
    requires b.users == Refund(a.users, a.active[i]) && b.busySlots == RefundSlots(a.busySlots, a.active[i])
    requires b.active == Notified(a.active[i := a.active[i].(held := 0)], a.active[i].notify, e)
    ensures |b.active| == |a.active| && b.(active := b.active[..i] + b.active[i + 1..]) == Ended(a, i, e)
  {
    hide Times;
  }

  lemma NoneBeyond(env: Env, s: seq<Job>)
    ensures NoneDead(env, s, |s|)
  {
  }

  lemma BuryingEnds(env: Env, s: seq<Job>, t: seq<Job>)
    requires Burying(env, s, t, 0)
    ensures Survive(env, s, t)
  {
  }

  lemma OneMoreAlive(env: Env, s: seq<Job>, i: nat)
    requires i < |s| && NoneDead(env, s, i + 1) && !Dead(env, s[i])
    ensures NoneDead(env, s, i)
  {
  }

  lemma NothingTallied(users: seq<User>)
    requires forall u :: 0 <= u < |users| ==> users[u].busy == 0 && users[u].jobs == 0 && users[u].queue == 0
    ensures Tallied(users, 0, [])
  {
  }

  lemma TallyCaps(us: seq<User>, vs: seq<User>, j: Job)
    requires SameCaps(us, vs) && j.user < |vs|
    ensures SameCaps(us, Tally(vs, j))
  {
  }

  lemma SameLength(s: seq<Job>, t: seq<Job>)
    requires SameShape(s, t)
    ensures |s| == |t|
  {
  }

  lemma OthersStay(s: seq<Job>, i: nat, x: Job)
    requires i < |s| && x in s && x != s[i]
    ensures x in s[..i] + s[i + 1..]
  {
    var k :| 0 <= k < |s| && s[k] == x;
    assert (s[..i] + s[i + 1..])[if k < i then k else k - 1] == x;
  }

  lemma SurviveJoin(env: Env, s: seq<Job>, t: seq<Job>, r: seq<Job>)
    requires Survive(env, s, t) && |t| <= |r| && SameBody(t, r[..|t|])
    ensures Survive(env, s, r)
  {
    hide Dead;
    forall k | 0 <= k < |s| && !Dead(env, s[k])
      ensures Known(r, s[k].id)
    {
      assert Known(t, s[k].id);
      var q :| 0 <= q < |t| && t[q].id == s[k].id;
      assert r[..|t|][q] == r[q];
    }
  }

  lemma NoneToBury(env: Env, s: seq<Job>, ends: seq<Ending>)
    requires NoneDead(env, s, 0) && Buried(env, s, ends)
    ensures ends == []
  {
    assert |ends| > 0 ==> DeadFrom(env, s, 0, ends[0].id);
  }

  lemma NewId(active: seq<Job>, finished: seq<Job>, next: int)
    requires OnRoster(active, finished, next)
    ensures 0 < next && !Known(active, next)
  {
  }

  lemma DistinctStored(active: seq<Job>, finished: seq<Job>, n: nat)
    requires Joining(active, finished, n)
    ensures DistinctIds(finished)
  {
  }

  lemma LargestBefore(p: Past, active: seq<Job>, finished: seq<Job>, n: nat, last: int)
    requires JoinedTo(p, active, finished, n) && DistinctIds(active)
    requires forall k :: 0 <= k < |active| && active[k].id != active[n].id ==> active[k].id <= last
    requires last == -1 || (last > -1 && last != active[n].id && Known(active, last))
    ensures LargestId(p.active) == last
  {
    forall k | 0 <= k < |p.active|
      ensures p.active[k].id <= last
    {
      assert p.active[k].id == active[k].id;
    }
    if last != -1 {
      KnownBefore(p, active, finished, n, last);
    }
    LargestIs(p.active, last);
  }

  lemma StoredBelow(active: seq<Job>, finished: seq<Job>, n: nat, d: int)
    requires Joining(active, finished, n) && d == LargestId(finished)
    ensures d < active[n].id
  {
    LargestBound(finished, active[n].id - 1);
  }

  lemma NothingWanted(p: Past, id: int)
    ensures AllTargets(p, id, []) == [] && AllAwaited(p, id, []) == [] && AllInherited(p, id, []) == 0
  {
  }

  lemma OneMoreWanted(p: Past, id: int, wanted: seq<int>, i: nat)
    requires i < |wanted|
    ensures wanted[i] < id ==>
      && AllTargets(p, id, wanted[..i + 1]) == AllTargets(p, id, wanted[..i]) + [TargetOf(p, wanted[i])]
      && AllAwaited(p, id, wanted[..i + 1]) == AllAwaited(p, id, wanted[..i]) + AwaitedFor(p, wanted[i])
      && AllInherited(p, id, wanted[..i + 1]) == AllInherited(p, id, wanted[..i]) + InheritedFrom(p, wanted[i])
    ensures wanted[i] >= id ==>
      && AllTargets(p, id, wanted[..i + 1]) == AllTargets(p, id, wanted[..i])
      && AllAwaited(p, id, wanted[..i + 1]) == AllAwaited(p, id, wanted[..i])
      && AllInherited(p, id, wanted[..i + 1]) == AllInherited(p, id, wanted[..i])
  {
    hide TargetOf, AwaitedFor, InheritedFrom;
    assert wanted[..i + 1][..i] == wanted[..i];
  }

  lemma StillJoinedTo(p: Past, s: seq<Job>, t: seq<Job>, finished: seq<Job>, n: nat)
    requires JoinedTo(p, s, finished, n) && SameBody(s, t)
    ensures JoinedTo(p, t, finished, n)
  {
  }

  lemma DependedKnown(book: Book, id: int, awaited: seq<int>, e: int)
    ensures id in book.base && id in book.awaited ==>
      id in Depended(book, id, awaited, e).base && id in Depended(book, id, awaited, e).awaited
  {
  }

  lemma OpenedDepended(book: Book, id: int, awaited: seq<int>, e: int)
    ensures Depended(Opened(book, id), id, awaited, e) == book.(base := book.base[id := e], awaited := book.awaited[id := awaited])
  {
    assert [] + awaited == awaited;
  }

  /** The new job `j` depends on what its client asked for, inherits at once what
      has already ended, and will be told of the rest. */
  ghost predicate Admitted(p: Past, book: Book, after: Book, j: Job, wanted: seq<int>) {
    && j.deps == AllTargets(p, j.id, wanted) && j.depErr == AllInherited(p, j.id, wanted)
    && after == book.(base := book.base[j.id := AllInherited(p, j.id, wanted)],
                      awaited := book.awaited[j.id := AllAwaited(p, j.id, wanted)])
  }

  lemma BlankIs(id: int, u: nat, m: NewJob, maxWall: int, room: bool, n: nat)
    requires u < n && 1 <= m.slots
    ensures var p := Blank(id, u, m, maxWall, room);
      && p.id == id && p.user == u && p.bound == 0 && p.deps == [] && p.notify == [] && p.depErr == 0
      && JobOk(p, n) && (p.state.Queued? || p.state.Holding?)
  {
  }

  lemma JoinsTo(p: Past, active: seq<Job>, finished: seq<Job>, y: Job)
    requires active == p.active + [y] && p.finished == finished
    ensures JoinedTo(p, active, finished, |p.active|)
  {
  }

  lemma FreshId(j: Job, id: int, u: nat, m: NewJob, maxWall: int, room: bool)
    requires Fresh(j, id, u, m, maxWall, room)
    ensures j.id == id
  {
  }

  lemma GrowsAdmitted(p: Past, book: Book, after: Book, j: Job, wanted: seq<int>)
    requires Admitted(p, book, after, j, wanted)
    ensures Grows(book, after, [], j.id)
  {
    hide AllTargets, AllAwaited, AllInherited;
  }

  lemma ConfirmedBound(b: Books, i: nat, pid: int, now: int, cpus: nat, binding: bool)
    requires i < |b.active| && JobOk(b.active[i], |b.users|) && Sum(b.active, Cpus) + b.active[i].slots <= cpus
    ensures var y := Confirmed(b, i, pid, now, cpus, binding);
      binding && !y.noBinding && y.held > 0 ==> y.bound == y.slots
  {
    hide Sum;
  }
}
