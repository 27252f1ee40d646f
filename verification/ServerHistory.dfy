/** What the server is asked to do, and what is left of a whole run. */
module ServerHistory {
  import opened JobRecord
  import opened SlotBooks
  import opened DependencyLedger
  import opened Roster
  import opened Requests
  import opened UserRequests
  import opened ServerClock

  /** What the server is asked to do. Users are given by their index. */
  datatype Request =
    | Submission(u: nat, job: NewJob, maxWall: int)
    | RunReport(id: int, pid: int)
    | EndReport(id: int, err: int, skipped: bool)
    | ClientGone(id: int)
    | ClientBack(id: int, u: nat, pid: int, socket: int)
    | Removal(id: int, u: nat)
    | HoldRequest(id: int, u: nat)
    | ContRequest(id: int, u: nat)
    | RequeueRequest(id: int, u: nat)
    | UrgentRequest(id: int)
    | SwapRequest(id1: int, id2: int)
    | WallRequest(id: int, add: int)
    | SuspendUser(u: nat)
    | SuspendUsers
    | ResumeUser(u: nat)
    | ResumeUsers
    | RefreshUsers(lines: seq<Line>)
    | SlotLimit(n: int)
    | HealthTick
    | OrphanTick
    | Update
    | Pass

  /** A request and what can be observed while it is served. */
  datatype Event = Event(req: Request, env: Env)

  /** The users that a request resumes. */
  predicate Resumes(req: Request, u: nat) {
    match req
    case ResumeUser(v) => u == v
    case ResumeUsers => u > 0
    case _ => false
  }

  ghost predicate SomeResumes(events: seq<Event>, u: nat) {
    exists k :: 0 <= k < |events| && Resumes(events[k].req, u)
  }

  /** A dispatched job that has not reported its process. */
  predicate AwaitsReport(j: Job) {
    j.state.Running? && j.pid == 0 && j.bound == 0
  }

  predicate Reconnects(j: Job, u: nat, pid: int) {
    && (j.state.Queued? || j.state.Running? || j.state.Locked?) && j.user == u
    && (j.pid == 0 || j.pid == pid || pid == 0)
  }

  /** The job that s_remove_job means: index i of the active list, else k of the
      finished one. */
  ghost predicate Meant(active: seq<Job>, finished: seq<Job>, id: int, i: int, k: int) {
    if id == -1 then i == |active| - 1 && k == if i == -1 then |finished| - 1 else -1
    else
      && (i == -1 <==> !Known(active, id)) && (i != -1 ==> 0 <= i < |active| && active[i].id == id && k == -1)
      && (i == -1 ==> (k == -1 <==> !Known(finished, id)) && (k != -1 ==> 0 <= k < |finished| && finished[k].id == id))
  }

  predicate Removable(active: seq<Job>, finished: seq<Job>, u: nat, i: int, k: int) {
    if 0 <= i < |active| then
      (u == 0 || active[i].user == u) && !active[i].state.Running? && !active[i].state.Paused? && !active[i].state.Abnormal?
    else 0 <= k < |finished| && (u == 0 || finished[k].user == u)
  }

  /** The state between two requests. */
  datatype Moment = Moment(books: Books, finished: seq<Job>, book: Book, jobids: int, maxSlots: int)

  predicate AboutJobs(req: Request) {
    || req.Submission? || req.RunReport? || req.EndReport? || req.ClientGone? || req.ClientBack? || req.Removal?
    || req.UrgentRequest? || req.SwapRequest? || req.WallRequest? || req.OrphanTick?
  }

  predicate HasStarted(s: seq<Job>, id: int) {
    exists i :: 0 <= i < |s| && s[i].id == id && (s[i].state.Running? || s[i].state.Paused?)
  }

  lemma StartedAt(s: seq<Job>, i: int, id: int)
    requires DistinctIds(s) && (i == -1 <==> !Known(s, id)) && (i != -1 ==> 0 <= i < |s| && s[i].id == id)
    ensures HasStarted(s, id) <==> i != -1 && (s[i].state.Running? || s[i].state.Paused?)
  {
  }

  /** Which jobs announce an error level while a request is served, and which one:
      a job that ends its own, a job whose client or process has gone 1, and so a
      job that is removed. */
  ghost predicate Announces(e: Event, m: Moment, ends: seq<Ending>) {
    var s, n := m.books.active, |m.books.users|;
    match e.req
    case Submission(u, job, maxWall) => if u < n && 1 <= job.slots then Buried(e.env, s, ends) else ends == []
    case EndReport(id, err, skipped) => ends == if Known(s, id) then [Ending(id, Abs(err))] else []
    case ClientGone(id) => ends == if HasStarted(s, id) then [Ending(id, 1)] else []
    case Removal(id, u) => if u < n then RemovalEnds(s, m.finished, id, u, ends) else ends == []
    case ContRequest(id, u) => if u < n then Buried(e.env, s, ends) else ends == []
    case SuspendUser(u) => if u < n then Buried(e.env, s, ends) else ends == []
    case SuspendUsers => if n > 1 then Buried(e.env, s, ends) else ends == []
    case RefreshUsers(lines) => ends == [] || Buried(e.env, s, ends)
    case Update => Buried(e.env, s, ends)
    case _ => ends == []
  }

  ghost predicate RemovalEnds(s: seq<Job>, f: seq<Job>, id: int, u: nat, ends: seq<Ending>) {
    exists i, k :: Meant(s, f, id, i, k)
      && ends == if Removable(s, f, u, i, k) then [Ending(if 0 <= i < |s| then s[i].id else if 0 <= k < |f| then f[k].id else 0, 1)] else []
  }

  // ---------- limits ----------

  /** Requests that bring the counters up to date and then check for time-outs. */
  predicate Updates(req: Request) {
    || req.Submission? || req.ContRequest? || req.SuspendUser? || req.SuspendUsers? || req.RefreshUsers? || req.Update?
  }

  /** A job with what a request gives it outright: an accepted addition to its limit, a
      day when it is requeued, or its process when that is reported. */
  function Prolong(users: seq<User>, j: Job, req: Request): Job {
    match req
    case WallRequest(id, add) => if id != 0 && j.id == id && WallAdded(j, add).Some? then WallAdded(j, add).job else j
    case RequeueRequest(id, u) =>
      if j.id == id && u < |users| && MayTouch(users, u, j) && (j.state.Running? || j.state.Paused?) then DayMore(j) else j
    case RunReport(id, pid) => if pid > 0 && j.id == id && AwaitsReport(j) then j.(pid := pid) else j
    case _ => j
  }

  function Prolonged(b: Books, req: Request): seq<Job> {
    seq(|b.active|, k requires 0 <= k < |b.active| => Prolong(b.users, b.active[k], req))
  }

  lemma NotProlonged(b: Books, req: Request)
    requires !req.WallRequest? && !req.RequeueRequest? && !req.RunReport?
    ensures Prolonged(b, req) == b.active
  {
  }

  /** Of distinct jobs only one is prolonged. */
  lemma ProlongedAt(b: Books, req: Request, i: nat)
    requires DistinctIds(b.active) && i < |b.active|
    requires (req.WallRequest? || req.RequeueRequest? || req.RunReport?) && req.id == b.active[i].id
    ensures Prolonged(b, req) == b.active[i := Prolong(b.users, b.active[i], req)]
  {
    hide WallAdded, MayTouch;
  }

  lemma ProlongedWall(b: Books, id: int, add: int, i: int)
    requires DistinctIds(b.active) && (i == -1 <==> id == 0 || !Known(b.active, id)) && (i != -1 ==> 0 <= i < |b.active| && b.active[i].id == id)
    ensures Prolonged(b, WallRequest(id, add)) ==
      if i != -1 && WallAdded(b.active[i], add).Some? then b.active[i := WallAdded(b.active[i], add).job] else b.active
  {
    hide WallAdded;
    if i != -1 {
      ProlongedAt(b, WallRequest(id, add), i);
    }
  }

  lemma NotReported(b: Books, id: int, pid: int)
    requires forall k :: 0 <= k < |b.active| && b.active[k].id == id ==>
      !(b.active[k].state.Running? && b.active[k].pid == 0 && b.active[k].bound == 0)
    ensures Prolonged(b, RunReport(id, pid)) == b.active
  {
  }

  lemma NoProcess(b: Books, id: int, pid: int)
    requires pid <= 0
    ensures Prolonged(b, RunReport(id, pid)) == b.active
  {
  }

  lemma NotRequeuedBy(b: Books, id: int, u: nat)
    requires u >= |b.users|
    ensures Prolonged(b, RequeueRequest(id, u)) == b.active
  {
  }

  lemma NotRequeued(b: Books, id: int, u: nat)
    requires forall k :: 0 <= k < |b.active| && b.active[k].id == id ==>
      !MayTouch(b.users, u, b.active[k]) || (!b.active[k].state.Running? && !b.active[k].state.Paused?)
    ensures Prolonged(b, RequeueRequest(id, u)) == b.active
  {
    hide MayTouch;
  }

  /** The time that a request gives a job outright. */
  ghost function GrantAt(b: Books, id: int, req: Request): int {
    if k :| 0 <= k < |b.active| && b.active[k].id == id then Abs(Prolong(b.users, b.active[k], req).wall) - Abs(b.active[k].wall) else 0
  }

  // ---------- what a request does ----------

  ghost predicate InBook(m: Moment) {
    InBalance(m.books.active, m.finished, m.book, m.jobids)
  }

  ghost predicate AllBelow(s: seq<Job>, next: int) {
    forall i :: 0 <= i < |s| ==> s[i].id < next
  }

  /** A submission that its user's limit allows puts a job with the next id behind
      the others. Its dependencies, what it inherits at once and whom it awaits are
      those of `Requests.Admitted`, once dead jobs have been buried. */
  ghost predicate Joins(e: Event, a: Moment, b: Moment, ends: seq<Ending>) {
    match e.req
    case Submission(u, job, maxWall) =>
      u < |a.books.users| && 1 <= job.slots && !(a.books.users[u].cap > 0 && job.slots > a.books.users[u].cap) ==>
        && b.books.active != [] && b.books.active[|b.books.active| - 1].id == a.jobids
        && exists p: Past, mid: Book ::
             && Survive(e.env, a.books.active, p.active) && Grows(a.book, mid, ends, a.jobids)
             && Admitted(p, mid, b.book, b.books.active[|b.books.active| - 1], job.wanted)
    case _ => true
  }

  lemma NoneJoins(e: Event, a: Moment, b: Moment, ends: seq<Ending>)
    requires !e.req.Submission?
    ensures Joins(e, a, b, ends)
  {
  }

  /** No job of a user without slots starts, unless the request resumes the user. */
  ghost predicate QuietFor(req: Request, a: Books, b: Books) {
    RootIdle(a.users) ==>
      && RootIdle(b.users) && |a.users| <= |b.users|
      && forall u: nat :: u < |a.users| && a.users[u].cap <= 0 && !Resumes(req, u) ==>
           b.users[u].cap <= 0 && RunningOf(b.active, u) <= RunningOf(a.active, u)
  }

  lemma SteadyQuiet(lim: Limits, a: Books, b: Books, exempt: set<nat>, req: Request)
    requires Steady(lim, a, b, exempt) && forall u :: u in exempt ==> Resumes(req, u)
    ensures QuietFor(req, a, b)
  {
    hide Sound, Exact, RunningOf, KeepsBound;
  }

  /** What one request does to the ledger, to the clocks and to the CPUs. */
  ghost predicate Answers(lim: Limits, e: Event, a: Moment, b: Moment, ends: seq<Ending>) {
    && Announces(e, a, ends)
    && Grows(a.book, b.book, ends, a.jobids) && a.jobids <= b.jobids
    && Ticked(Prolonged(a.books, e.req), b.books.active, e.env.now, a.jobids, Updates(e.req))
    && DistinctIds(b.books.active) && AllBelow(b.books.active, b.jobids)
    && (InBook(a) ==> InBook(b)) && Joins(e, a, b, ends) && QuietFor(e.req, a.books, b.books)
    && (FullyBound(lim, a.books) && b.maxSlots <= lim.cpus && b.books.busySlots <= lim.cpus ==> FullyBound(lim, b.books))
  }

  ghost predicate Told(lim: Limits, events: seq<Event>, history: seq<Moment>, ends: seq<seq<Ending>>) {
    && |history| == |events| + 1 && |ends| == |events|
    && forall k :: 0 <= k < |events| ==> Answers(lim, events[k], history[k], history[k + 1], ends[k])
  }

  /** Neither the limit nor the slots in use exceed the CPUs at any moment. */
  ghost predicate WithinCpus(cpus: nat, history: seq<Moment>) {
    forall k :: 0 <= k < |history| ==> history[k].maxSlots <= cpus && history[k].books.busySlots <= cpus
  }

  function Flat(ends: seq<seq<Ending>>): seq<Ending> {
    if ends == [] then [] else Flat(ends[..|ends| - 1]) + ends[|ends| - 1]
  }

  lemma AnswersTop(lim: Limits, top: int, e: Event, a: Moment, b: Moment, ends: seq<Ending>)
    ensures Answers(lim, e, a, b, ends) <==> Answers(lim.(top := top), e, a, b, ends)
  {
    hide Announces, Grows, AllTidy, AllServed, Ticked, Joins, QuietFor, InBook, Prolonged;
  }

  lemma ToldAnyTop(lim: Limits, top: int, events: seq<Event>, history: seq<Moment>, ends: seq<seq<Ending>>)
    requires Told(lim.(top := top), events, history, ends)
    ensures Told(lim, events, history, ends)
  {
    hide Answers;
    forall k | 0 <= k < |events|
      ensures Answers(lim, events[k], history[k], history[k + 1], ends[k])
    {
      AnswersTop(lim, top, events[k], history[k], history[k + 1], ends[k]);
    }
  }

  /** As long as the slots in use stay within the topology, every running job that
      has reported a process has all its CPUs. */
  lemma {:induction false} HistoryBound(lim: Limits, events: seq<Event>, history: seq<Moment>, ends: seq<seq<Ending>>)
    requires Told(lim, events, history, ends)
    ensures FullyBound(lim, history[0].books) && WithinCpus(lim.cpus, history) ==> FullyBound(lim, history[|events|].books)
    decreases |events|
  {
    hide Announces, Grows, FullyBound, Ticked, Joins, QuietFor, InBook, Prolonged, AllBelow, DistinctIds;
    if events != [] {
      var n := |events| - 1;
      var hs := history[..n + 1];
      assert forall k :: 0 <= k <= n ==> hs[k] == history[k];
      assert Told(lim, events[..n], hs, ends[..n]);
      HistoryBound(lim, events[..n], hs, ends[..n]);
      assert Answers(lim, events[n], history[n], history[n + 1], ends[n]);
    }
  }

  lemma {:induction false} HistoryGrows(lim: Limits, events: seq<Event>, history: seq<Moment>, ends: seq<seq<Ending>>)
    requires Told(lim, events, history, ends)
    ensures Grows(history[0].book, history[|events|].book, Flat(ends), history[0].jobids)
    ensures history[0].jobids <= history[|events|].jobids
    decreases |events|
  {
    hide Announces, Grows, FullyBound, Ticked, Joins, QuietFor, InBook, Prolonged, AllBelow, DistinctIds;
    if events == [] {
      GrowsStill(history[0].book, history[0].jobids);
    } else {
      var n := |events| - 1;
      var hs := history[..n + 1];
      assert forall k :: 0 <= k <= n ==> hs[k] == history[k];
      assert Told(lim, events[..n], hs, ends[..n]);
      HistoryGrows(lim, events[..n], hs, ends[..n]);
      assert Answers(lim, events[n], history[n], history[n + 1], ends[n]);
      GrowsTwice(history[0].book, history[n].book, history[n + 1].book, Flat(ends[..n]), ends[n], history[0].jobids, history[n].jobids);
    }
  }

  /** The error level that a job inherits grows over a run by exactly what the
      dependencies it awaits announced in that run. */
  lemma HistoryInherits(lim: Limits, events: seq<Event>, history: seq<Moment>, ends: seq<seq<Ending>>)
    requires Told(lim, events, history, ends)
    requires var a := history[0]; InBalance(a.books.active, a.finished, a.book, a.jobids)
    requires var b := history[|events|]; InBalance(b.books.active, b.finished, b.book, b.jobids)
    requires var a := history[0]; forall i :: 0 <= i < |a.books.active| ==> a.books.active[i].id < a.jobids
    ensures var s, t, book := history[0].books.active, history[|events|].books.active, history[0].book;
      forall i, k :: 0 <= i < |s| && 0 <= k < |t| && t[k].id == s[i].id ==>
        t[k].id in book.awaited && t[k].depErr - s[i].depErr == OwedAll(book.awaited[t[k].id], Flat(ends))
  {
    HistoryGrows(lim, events, history, ends);
    hide Balanced, Grows, Told, NamesBelow, OwedAll;
    var a, b := history[0], history[|events|];
    forall i, k | 0 <= i < |a.books.active| && 0 <= k < |b.books.active| && b.books.active[k].id == a.books.active[i].id
      ensures b.books.active[k].id in a.book.awaited
      ensures b.books.active[k].depErr - a.books.active[i].depErr == OwedAll(a.book.awaited[b.books.active[k].id], Flat(ends))
    {
      Inherits(a.books.active, a.finished, a.book, b.books.active, b.finished, b.book, Flat(ends), a.jobids, i, k);
    }
  }

  // ---------- the clocks ----------

  predicate IsPaused(s: seq<Job>, id: int) {
    exists k :: 0 <= k < |s| && s[k].id == id && s[k].state.Paused?
  }

  /** The clock never shows 0. */
  predicate ClockShown(events: seq<Event>) {
    forall k :: 0 <= k < |events| ==> events[k].env.now != 0
  }

  /** The time between `from` and `until` that a job was not paused (or was), added
      up between the requests. */
  function Elapsed(events: seq<Event>, history: seq<Moment>, id: int, working: bool, from: int, until: int): int
    requires |history| == |events| + 1
    decreases |events|
  {
    var n := |events|;
    var t := if n == 0 then from else events[n - 1].env.now;
    (if n == 0 then 0 else Elapsed(events[..n - 1], history[..n], id, working, from, t))
    + if IsPaused(history[n].books.active, id) == working then 0 else until - t
  }

  lemma {:induction false} ElapsedFills(events: seq<Event>, history: seq<Moment>, id: int, from: int, until: int)
    requires |history| == |events| + 1
    ensures Elapsed(events, history, id, true, from, until) + Elapsed(events, history, id, false, from, until) == until - from
    decreases |events|
  {
    if events != [] {
      var n := |events|;
      ElapsedFills(events[..n - 1], history[..n], id, from, events[n - 1].env.now);
    }
  }

  lemma PausedIs(s: seq<Job>, k: nat)
    requires DistinctIds(s) && k < |s|
    ensures IsPaused(s, s[k].id) <==> s[k].state.Paused?
  {
  }

  lemma ToldShorter(lim: Limits, events: seq<Event>, history: seq<Moment>, ends: seq<seq<Ending>>)
    requires Told(lim, events, history, ends) && events != []
    ensures var n := |events| - 1;
      Told(lim, events[..n], history[..n + 1], ends[..n]) && Answers(lim, events[n], history[n], history[n + 1], ends[n])
  {
    hide Answers;
    var n := |events| - 1;
    var hs := history[..n + 1];
    assert forall k :: 0 <= k <= n ==> hs[k] == history[k];
  }

  lemma ProlongKeeps(users: seq<User>, j: Job, req: Request)
    ensures var k := Prolong(users, j, req); k == j.(wall := k.wall, pid := k.pid)
  {
  }

  lemma ProlongedInStep(b: Books, req: Request)
    requires AllInStep(b.active)
    ensures AllInStep(Prolonged(b, req))
  {
    hide Prolong;
    forall k | 0 <= k < |b.active|
      ensures InStep(Prolonged(b, req)[k])
    {
      ProlongKeeps(b.users, b.active[k], req);
    }
  }

  lemma {:induction false} HistoryInStep(lim: Limits, events: seq<Event>, history: seq<Moment>, ends: seq<seq<Ending>>)
    requires Told(lim, events, history, ends) && ClockShown(events) && AllInStep(history[0].books.active)
    ensures AllInStep(history[|events|].books.active)
    decreases |events|
  {
    if events != [] {
      var n := |events| - 1;
      ToldShorter(lim, events, history, ends);
      hide Announces, Grows, FullyBound, Ticked, AllInStep, Told, Joins, QuietFor, InBook, Prolonged, AllBelow, DistinctIds;
      HistoryInStep(lim, events[..n], history[..n + 1], ends[..n]);
      ProlongedInStep(history[n].books, events[n].req);
      TickedInStep(Prolonged(history[n].books, events[n].req), history[n + 1].books.active, events[n].env.now, history[n].jobids, Updates(events[n].req));
    }
  }

  lemma StemsFrom(s: seq<Job>, y: Job, now: int, next: int, late: bool) returns (j: nat)
    requires Stems(s, y, now, next, late) && y.id < next
    ensures j < |s| && Ticks(s[j], y, now, late)
  {
    j :| 0 <= j < |s| && Ticks(s[j], y, now, late);
  }

  /** The job at the moment before. */
  lemma JobBefore(e: Event, a: Books, b: seq<Job>, next: int, k: nat) returns (j: nat)
    requires Ticked(Prolonged(a, e.req), b, e.env.now, next, Updates(e.req)) && k < |b| && b[k].id < next
    ensures j < |a.active| && a.active[j].id == b[k].id
    ensures Ticks(Prolong(a.users, a.active[j], e.req), b[k], e.env.now, Updates(e.req))
  {
    hide Prolong, Ticks;
    assert Stems(Prolonged(a, e.req), b[k], e.env.now, next, Updates(e.req));
    j := StemsFrom(Prolonged(a, e.req), b[k], e.env.now, next, Updates(e.req));
    ProlongKeeps(a.users, a.active[j], e.req);
    TicksId(Prolong(a.users, a.active[j], e.req), b[k], e.env.now, Updates(e.req));
  }

  lemma TicksId(x: Job, y: Job, now: int, late: bool)
    requires Ticks(x, y, now, late)
    ensures x.id == y.id
  {
  }

  /** One more request: the readings at its time are those before it. */
  lemma ClockStep(e: Event, a: Books, b: seq<Job>, until: int, j: nat, k: nat)
    requires DistinctIds(b) && e.env.now != 0 && AllInStep(a.active) && k < |b| && j < |a.active|
    requires Ticks(Prolong(a.users, a.active[j], e.req), b[k], e.env.now, Updates(e.req))
    ensures a.active[j].start != 0 ==>
      && b[k].start == a.active[j].start
      && WorkTime(b[k], until) == WorkTime(a.active[j], e.env.now) + (if IsPaused(b, b[k].id) then 0 else until - e.env.now)
      && PauseTime(b[k], until) == PauseTime(a.active[j], e.env.now) + (if IsPaused(b, b[k].id) then until - e.env.now else 0)
  {
    PausedIs(b, k);
    ProlongKeeps(a.users, a.active[j], e.req);
    assert InStep(a.active[j]);
    hide Prolong, IsPaused, AllInStep;
    TimeGoesBy(b[k], e.env.now, until);
  }

  /** Over a whole run the work time of a job is what it was, plus the time between
      requests in which the job was not paused; its pause time grows by the rest. */
  lemma {:induction false} HistoryClock(lim: Limits, events: seq<Event>, history: seq<Moment>, ends: seq<seq<Ending>>, i: nat, k: nat, from: int, until: int)
    requires Told(lim, events, history, ends) && ClockShown(events) && AllInStep(history[0].books.active) && DistinctIds(history[0].books.active)
    requires i < |history[0].books.active| && k < |history[|events|].books.active|
    requires history[0].books.active[i].id == history[|events|].books.active[k].id < history[0].jobids
    requires history[0].books.active[i].start != 0
    ensures var x, y := history[0].books.active[i], history[|events|].books.active[k];
      && y.start == x.start
      && WorkTime(y, until) == WorkTime(x, from) + Elapsed(events, history, x.id, true, from, until)
      && PauseTime(y, until) == PauseTime(x, from) + Elapsed(events, history, x.id, false, from, until)
    decreases |events|
  {
    hide Answers, Ticked, DistinctIds, Prolonged, Prolong, Ticks, AllInStep, WorkTime, PauseTime, IsPaused;
    var x := history[0].books.active[i];
    if events == [] {
      OnlyOneSuch(history[0].books.active, i, k);
      PausedIs(history[0].books.active, i);
      OneInStep(history[0].books.active, i);
      TimeGoesBy(x, from, until);
    } else {
      var n := |events| - 1;
      ToldShorter(lim, events, history, ends);
      HistoryGrows(lim, events[..n], history[..n + 1], ends[..n]);
      HistoryInStep(lim, events[..n], history[..n + 1], ends[..n]);
      AnswersTick(lim, events[n], history[n], history[n + 1], ends[n]);
      var a, b := history[n].books, history[n + 1].books.active;
      var j := JobBefore(events[n], a, b, history[n].jobids, k);
      ClockStep(events[n], a, b, until, j, k);
      HistoryClock(lim, events[..n], history[..n + 1], ends[..n], i, j, from, events[n].env.now);
    }
  }

  lemma OneInStep(s: seq<Job>, i: nat)
    requires AllInStep(s) && i < |s|
    ensures InStep(s[i])
  {
  }

  /** Work and pause time of the jobs that were there all the time. */
  ghost predicate ClocksAddUp(events: seq<Event>, history: seq<Moment>)
    requires |history| == |events| + 1
  {
    var s, t := history[0].books.active, history[|events|].books.active;
    && AllInStep(t)
    && forall i, k, from, until :: 0 <= i < |s| && 0 <= k < |t| && s[i].id == t[k].id && s[i].start != 0 ==>
         && WorkTime(t[k], until) == WorkTime(s[i], from) + Elapsed(events, history, s[i].id, true, from, until)
         && PauseTime(t[k], until) == PauseTime(s[i], from) + Elapsed(events, history, s[i].id, false, from, until)
  }

  lemma HistoryClocks(lim: Limits, events: seq<Event>, history: seq<Moment>, ends: seq<seq<Ending>>)
    requires Told(lim, events, history, ends) && DistinctIds(history[0].books.active)
    requires forall i :: 0 <= i < |history[0].books.active| ==> history[0].books.active[i].id < history[0].jobids
    ensures ClockShown(events) && AllInStep(history[0].books.active) ==> ClocksAddUp(events, history)
  {
    hide Answers, AllInStep, Elapsed, WorkTime, PauseTime, DistinctIds;
    if ClockShown(events) && AllInStep(history[0].books.active) {
      HistoryInStep(lim, events, history, ends);
      var s, t := history[0].books.active, history[|events|].books.active;
      forall i, k, from, until | 0 <= i < |s| && 0 <= k < |t| && s[i].id == t[k].id && s[i].start != 0
        ensures WorkTime(t[k], until) == WorkTime(s[i], from) + Elapsed(events, history, s[i].id, true, from, until)
        ensures PauseTime(t[k], until) == PauseTime(s[i], from) + Elapsed(events, history, s[i].id, false, from, until)
      {
        HistoryClock(lim, events, history, ends, i, k, from, until);
      }
    }
  }

  // ---------- limits over a run ----------

  ghost function Granted(events: seq<Event>, history: seq<Moment>, id: int): int
    requires |history| == |events| + 1
    decreases |events|
  {
    var n := |events| - 1;
    if events == [] then 0
    else Granted(events[..n], history[..n + 1], id) + GrantAt(history[n].books, id, events[n].req)
  }

  predicate NoUpdates(events: seq<Event>) {
    forall k :: 0 <= k < |events| ==> !Updates(events[k].req)
  }

  /** Whole days, and none if there was no update. */
  predicate WholeDays(d: int, late: bool) {
    d >= 0 && d % 86400 == 0 && (!late ==> d == 0)
  }

  lemma UpdatesSplit(events: seq<Event>)
    requires events != []
    ensures NoUpdates(events) <==> NoUpdates(events[..|events| - 1]) && !Updates(events[|events| - 1].req)
  {
    hide Updates;
    var n := |events| - 1;
    assert forall k :: 0 <= k < n ==> events[..n][k] == events[k];
  }

  lemma GrantIs(b: Books, req: Request, j: nat)
    requires DistinctIds(b.active) && j < |b.active|
    ensures Abs(Prolong(b.users, b.active[j], req).wall) == Abs(b.active[j].wall) + GrantAt(b, b.active[j].id, req)
  {
    hide Prolong;
  }

  lemma LimitStep(e: Event, a: Books, y: Job, j: nat, was: int, late: bool)
    requires DistinctIds(a.active) && j < |a.active| && Ticks(Prolong(a.users, a.active[j], e.req), y, e.env.now, Updates(e.req))
    requires WholeDays(Abs(a.active[j].wall) - was, late)
    ensures WholeDays(Abs(y.wall) - (was + GrantAt(a, a.active[j].id, e.req)), late || Updates(e.req))
  {
    GrantIs(a, e.req, j);
    hide Prolong, InStep, WorkTime, PauseTime, GrantAt;
  }

  /** Over a whole run the limit of a job, without its sign, grows by what the requests
      gave it outright (accepted additions, and a day for each time it was requeued)
      and by a day for each time-out that an update found. */
  lemma {:induction false} HistoryLimit(lim: Limits, events: seq<Event>, history: seq<Moment>, ends: seq<seq<Ending>>, i: nat, k: nat)
    requires Told(lim, events, history, ends) && DistinctIds(history[0].books.active)
    requires i < |history[0].books.active| && k < |history[|events|].books.active|
    requires history[0].books.active[i].id == history[|events|].books.active[k].id < history[0].jobids
    ensures var x, y := history[0].books.active[i], history[|events|].books.active[k];
      WholeDays(Abs(y.wall) - (Abs(x.wall) + Granted(events, history, x.id)), !NoUpdates(events))
    decreases |events|
  {
    hide Answers, Ticked, DistinctIds, Prolonged, Prolong, Ticks, GrantAt, Abs, WholeDays, NoUpdates, Updates;
    var x := history[0].books.active[i];
    if events == [] {
      OnlyOneSuch(history[0].books.active, i, k);
      NoDays();
    } else {
      var n := |events| - 1;
      ToldShorter(lim, events, history, ends);
      HistoryGrows(lim, events[..n], history[..n + 1], ends[..n]);
      HistoryDistinct(lim, events[..n], history[..n + 1], ends[..n]);
      UpdatesSplit(events);
      AnswersTick(lim, events[n], history[n], history[n + 1], ends[n]);
      var a, y := history[n].books, history[n + 1].books.active[k];
      var j := JobBefore(events[n], a, history[n + 1].books.active, history[n].jobids, k);
      HistoryLimit(lim, events[..n], history[..n + 1], ends[..n], i, j);
      LimitStep(events[n], a, y, j, Abs(x.wall) + Granted(events[..n], history[..n + 1], x.id), !NoUpdates(events[..n]));
    }
  }

  lemma OnlyOneSuch(s: seq<Job>, i: nat, k: nat)
    requires DistinctIds(s) && i < |s| && k < |s| && s[i].id == s[k].id
    ensures i == k
  {
  }

  lemma NoDays()
    ensures WholeDays(0, false) && NoUpdates([])
  {
  }

  lemma AnswersTick(lim: Limits, e: Event, a: Moment, b: Moment, ends: seq<Ending>)
    requires Answers(lim, e, a, b, ends)
    ensures Ticked(Prolonged(a.books, e.req), b.books.active, e.env.now, a.jobids, Updates(e.req)) && DistinctIds(b.books.active)
  {
  }

  lemma HistoryDistinct(lim: Limits, events: seq<Event>, history: seq<Moment>, ends: seq<seq<Ending>>)
    requires Told(lim, events, history, ends) && DistinctIds(history[0].books.active)
    ensures DistinctIds(history[|events|].books.active)
  {
    if events != [] {
      ToldShorter(lim, events, history, ends);
      hide DistinctIds, Announces, Grows, FullyBound, Ticked, Joins, QuietFor, InBook, Prolonged, AllBelow;
    }
  }

  ghost predicate LimitsAddUp(events: seq<Event>, history: seq<Moment>)
    requires |history| == |events| + 1
  {
    var s, t := history[0].books.active, history[|events|].books.active;
    forall i, k :: 0 <= i < |s| && 0 <= k < |t| && s[i].id == t[k].id ==>
      WholeDays(Abs(t[k].wall) - (Abs(s[i].wall) + Granted(events, history, s[i].id)), !NoUpdates(events))
  }

  lemma HistoryLimits(lim: Limits, events: seq<Event>, history: seq<Moment>, ends: seq<seq<Ending>>)
    requires Told(lim, events, history, ends) && DistinctIds(history[0].books.active) && AllBelow(history[0].books.active, history[0].jobids)
    ensures LimitsAddUp(events, history)
  {
    hide Answers, Granted, Abs, WholeDays, DistinctIds;
    var s, t := history[0].books.active, history[|events|].books.active;
    forall i, k | 0 <= i < |s| && 0 <= k < |t| && s[i].id == t[k].id
      ensures WholeDays(Abs(t[k].wall) - (Abs(s[i].wall) + Granted(events, history, s[i].id)), !NoUpdates(events))
    {
      HistoryLimit(lim, events, history, ends, i, k);
    }
  }

  /** A day is added to a limit beyond what a request gives outright only while the
      work time of the job exceeds the limit. */
  ghost predicate DaysEarned(events: seq<Event>, history: seq<Moment>)
    requires |history| == |events| + 1
  {
    forall k :: 0 <= k < |events| ==> AllEarned(events[k], history[k], history[k + 1])
  }

  ghost predicate AllEarned(e: Event, a: Moment, b: Moment) {
    forall i: nat, j: nat :: SameJob(a, b, i, j) ==> Earned(a.books, e, i, b.books.active[j])
  }

  predicate Earned(a: Books, e: Event, i: nat, y: Job)
    requires i < |a.active|
  {
    var x := Prolong(a.users, a.active[i], e.req);
    x.start != 0 && Abs(y.wall) > Abs(x.wall) ==> WorkTime(x, e.env.now) > Abs(y.wall) - 86400 && WorkTime(x, e.env.now) > 2
  }

  lemma EarnedBy(a: Books, e: Event, i: nat, y: Job)
    requires i < |a.active| && InStep(a.active[i]) && e.env.now != 0
    requires Ticks(Prolong(a.users, a.active[i], e.req), y, e.env.now, Updates(e.req))
    ensures Earned(a, e, i, y)
  {
    ProlongKeeps(a.users, a.active[i], e.req);
    hide Prolong, Longer, WorkTime, PauseTime;
  }

  lemma {:induction false} HistoryInStepAt(lim: Limits, events: seq<Event>, history: seq<Moment>, ends: seq<seq<Ending>>, k: nat)
    requires Told(lim, events, history, ends) && ClockShown(events) && k <= |events|
    requires AllInStep(history[0].books.active) && DistinctIds(history[0].books.active) && AllBelow(history[0].books.active, history[0].jobids)
    ensures AllInStep(history[k].books.active) && DistinctIds(history[k].books.active) && AllBelow(history[k].books.active, history[k].jobids)
  {
    if k > 0 {
      HistoryInStepAt(lim, events, history, ends, k - 1);
      assert Answers(lim, events[k - 1], history[k - 1], history[k - 1 + 1], ends[k - 1]);
      hide Announces, Grows, FullyBound, Ticked, AllInStep, Told, Joins, QuietFor, InBook, Prolonged, AllBelow, DistinctIds;
      ProlongedInStep(history[k - 1].books, events[k - 1].req);
      TickedInStep(Prolonged(history[k - 1].books, events[k - 1].req), history[k].books.active, events[k - 1].env.now, history[k - 1].jobids, Updates(events[k - 1].req));
    }
  }

  lemma StepEarned(e: Event, a: Moment, b: Moment)
    requires Ticked(Prolonged(a.books, e.req), b.books.active, e.env.now, a.jobids, Updates(e.req)) && e.env.now != 0
    requires AllInStep(a.books.active) && DistinctIds(a.books.active) && AllBelow(a.books.active, a.jobids)
    ensures AllEarned(e, a, b)
  {
    hide AllInStep, DistinctIds, Ticks, Ticked, Earned, Prolong, Prolonged;
    forall i: nat, j: nat | SameJob(a, b, i, j)
      ensures Earned(a.books, e, i, b.books.active[j])
    {
      var p := JobBefore(e, a.books, b.books.active, a.jobids, j);
      OnlyOneSuch(a.books.active, i, p);
      OneInStep(a.books.active, i);
      EarnedBy(a.books, e, i, b.books.active[j]);
    }
  }

  lemma HistoryDays(lim: Limits, events: seq<Event>, history: seq<Moment>, ends: seq<seq<Ending>>)
    requires Told(lim, events, history, ends)
    requires DistinctIds(history[0].books.active) && AllBelow(history[0].books.active, history[0].jobids)
    ensures ClockShown(events) && AllInStep(history[0].books.active) ==> DaysEarned(events, history)
  {
    hide Answers, AllInStep, DistinctIds, Ticks, Ticked, Earned, Prolong, Prolonged;
    if ClockShown(events) && AllInStep(history[0].books.active) {
      forall k | 0 <= k < |events|
        ensures AllEarned(events[k], history[k], history[k + 1])
      {
        HistoryInStepAt(lim, events, history, ends, k);
        AnswersTick(lim, events[k], history[k], history[k + 1], ends[k]);
        StepEarned(events[k], history[k], history[k + 1]);
      }
    }
  }

  // ---------- suspended users ----------

  predicate Suspended(users: seq<User>, u: nat) {
    u < |users| && users[u].cap <= 0
  }

  /** From moment j to moment k the user is not resumed. */
  predicate NotResumed(events: seq<Event>, j: nat, k: nat, u: nat) {
    forall q :: j <= q < k && q < |events| ==> !Resumes(events[q].req, u)
  }

  /** At every moment: as long as a user without slots is not resumed, none of its
      jobs starts. */
  ghost predicate QuietThroughout(events: seq<Event>, history: seq<Moment>) {
    forall j: nat, k: nat, u: nat :: j <= k < |history| && Suspended(history[j].books.users, u) && NotResumed(events, j, k, u) ==>
      RunningOf(history[k].books.active, u) <= RunningOf(history[j].books.active, u)
  }

  lemma {:induction false} HistoryRoot(lim: Limits, events: seq<Event>, history: seq<Moment>, ends: seq<seq<Ending>>, k: nat)
    requires Told(lim, events, history, ends) && RootIdle(history[0].books.users) && k <= |events|
    ensures RootIdle(history[k].books.users)
  {
    if k > 0 {
      HistoryRoot(lim, events, history, ends, k - 1);
      assert Answers(lim, events[k - 1], history[k - 1], history[k - 1 + 1], ends[k - 1]);
      hide Announces, Grows, FullyBound, Ticked, Joins, InBook, Prolonged, AllBelow, DistinctIds, RunningOf;
    }
  }

  lemma {:induction false} HistoryQuiet(lim: Limits, events: seq<Event>, history: seq<Moment>, ends: seq<seq<Ending>>, j: nat, k: nat, u: nat)
    requires Told(lim, events, history, ends) && RootIdle(history[0].books.users) && j <= k <= |events|
    requires Suspended(history[j].books.users, u) && NotResumed(events, j, k, u)
    ensures Suspended(history[k].books.users, u)
    ensures RunningOf(history[k].books.active, u) <= RunningOf(history[j].books.active, u)
    decreases k
  {
    if j < k {
      HistoryQuiet(lim, events, history, ends, j, k - 1, u);
      HistoryRoot(lim, events, history, ends, k - 1);
      assert Answers(lim, events[k - 1], history[k - 1], history[k - 1 + 1], ends[k - 1]);
      hide Announces, Grows, FullyBound, Ticked, Joins, InBook, Prolonged, AllBelow, DistinctIds, RunningOf, RootIdle;
      assert !Resumes(events[k - 1].req, u);
    }
  }

  lemma HistoryQuietAll(lim: Limits, events: seq<Event>, history: seq<Moment>, ends: seq<seq<Ending>>)
    requires Told(lim, events, history, ends) && RootIdle(history[0].books.users)
    ensures QuietThroughout(events, history)
  {
    hide Answers, RunningOf, RootIdle, NotResumed;
    forall j: nat, k: nat, u: nat | j <= k < |history| && Suspended(history[j].books.users, u) && NotResumed(events, j, k, u)
      ensures RunningOf(history[k].books.active, u) <= RunningOf(history[j].books.active, u)
    {
      HistoryQuiet(lim, events, history, ends, j, k, u);
    }
  }

  // ---------- error levels from any moment on ----------

  lemma ToldFrom(lim: Limits, events: seq<Event>, history: seq<Moment>, ends: seq<seq<Ending>>, q: nat)
    requires Told(lim, events, history, ends) && q <= |events|
    ensures Told(lim, events[q..], history[q..], ends[q..])
  {
    hide Answers;
    forall k | 0 <= k < |events[q..]|
      ensures Answers(lim, events[q..][k], history[q..][k], history[q..][k + 1], ends[q..][k])
    {
      assert Answers(lim, events[q + k], history[q + k], history[q + k + 1], ends[q + k]);
    }
  }

  lemma {:induction false} HistoryInBook(lim: Limits, events: seq<Event>, history: seq<Moment>, ends: seq<seq<Ending>>, q: nat)
    requires Told(lim, events, history, ends) && q <= |events| && InBook(history[0]) && AllBelow(history[0].books.active, history[0].jobids)
    ensures InBook(history[q]) && AllBelow(history[q].books.active, history[q].jobids)
  {
    if q > 0 {
      HistoryInBook(lim, events, history, ends, q - 1);
      assert Answers(lim, events[q - 1], history[q - 1], history[q - 1 + 1], ends[q - 1]);
      hide Announces, Grows, FullyBound, Ticked, Joins, QuietFor, InBook, Prolonged, AllBelow, DistinctIds;
    }
  }

  predicate SameJob(a: Moment, b: Moment, i: nat, k: nat) {
    i < |a.books.active| && k < |b.books.active| && a.books.active[i].id == b.books.active[k].id
  }

  /** From every moment on, also the one at which a job joined, the error level that
      the job inherits grows by what the dependencies it awaits have announced. */
  ghost predicate LevelsAddUp(events: seq<Event>, history: seq<Moment>, ends: seq<seq<Ending>>)
    requires |history| == |events| + 1 && |ends| == |events|
  {
    forall q, i: nat, k: nat :: 0 <= q <= |events| && SameJob(history[q], history[|events|], i, k) ==>
      LevelFrom(history[q], history[|events|], i, k, Flat(ends[q..]))
  }

  ghost predicate LevelFrom(a: Moment, b: Moment, i: nat, k: nat, ends: seq<Ending>)
    requires SameJob(a, b, i, k)
  {
    var x, y := a.books.active[i], b.books.active[k];
    y.id in a.book.awaited && y.depErr - x.depErr == OwedAll(a.book.awaited[y.id], ends)
  }

  lemma HistoryLevels(lim: Limits, events: seq<Event>, history: seq<Moment>, ends: seq<seq<Ending>>)
    requires Told(lim, events, history, ends) && InBook(history[0]) && AllBelow(history[0].books.active, history[0].jobids)
    ensures LevelsAddUp(events, history, ends)
  {
    hide Answers, InBalance, OwedAll, Flat;
    forall q, i: nat, k: nat | 0 <= q <= |events| && SameJob(history[q], history[|events|], i, k)
      ensures LevelFrom(history[q], history[|events|], i, k, Flat(ends[q..]))
    {
      ToldFrom(lim, events, history, ends, q);
      HistoryInBook(lim, events, history, ends, q);
      HistoryInBook(lim, events, history, ends, |events|);
      var hs := history[q..];
      assert hs[0] == history[q] && hs[|events[q..]|] == history[|events|];
      HistoryInherits(lim, events[q..], hs, ends[q..]);
    }
  }

  /** Between suspending and resuming a user none of its jobs starts. */
  lemma HeldQuiet(lim: Limits, a: Books, b: Books, exempt: set<nat>, events: seq<Event>)
    requires Steady(lim, a, b, exempt) && forall u :: u in exempt ==> SomeResumes(events, u)
    ensures Exact(a) ==> Exact(b)
    ensures RootIdle(a.users) ==>
      forall u: nat :: u < |a.users| && a.users[u].cap <= 0 && !SomeResumes(events, u) ==>
        RunningOf(b.active, u) <= RunningOf(a.active, u)
  {
    hide Sound, Exact, RunningOf, SomeResumes;
  }
}
