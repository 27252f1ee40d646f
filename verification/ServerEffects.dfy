/** What each request does, said of the moments before and after it. */
module ServerEffects {
  import opened JobRecord
  import opened SlotBooks
  import opened SlotMoves
  import opened DependencyLedger
  import opened Dispatch
  import opened Requests
  import opened UserRequests
  import opened Promises
  import opened PromisesKept
  import opened ServerHistory

  /** The jobs of a moment. */
  function Jobs(m: Moment): seq<Job> {
    m.books.active
  }

  /** The effect of a request. Refused ones are spoken of by the contracts of the
      requests themselves. */
  ghost predicate Does(e: Event, a: Moment, b: Moment) {
    var s, t, now, n := Jobs(a), Jobs(b), e.env.now, |a.books.users|;
    match e.req
    case Submission(u, job, maxWall) => true // see Joins
    case RunReport(id, pid) => pid > 0 ==> |s| == |t| && forall i :: 0 <= i < |s| && s[i].id == id && AwaitsReport(s[i]) ==> t[i].pid == pid
    case EndReport(id, err, skipped) => Known(s, id) ==> Filed1(b, id, err)
    case ClientGone(id) => !Known(t, id)
    case ClientBack(id, u, pid, socket) => |s| == |t| && forall i :: 0 <= i < |s| && s[i].id == id && Reconnects(s[i], u, pid) ==> t[i].client == socket
    case Removal(id, u) => u < n && id != -1 ==> forall i :: 0 <= i < |s| && s[i].id == id && Withdrawn(s[i], u) ==> !Known(t, id)
    case HoldRequest(id, u) => u < n && a.books.users[u].cap >= 0 ==> forall i: nat :: i < |s| && s[i].id == id ==> HoldDone(a.books, b.books, i, u, now)
    case ContRequest(id, u) => u < n && a.books.users[u].cap >= 0 ==>
      exists mid: Books :: Survive(e.env, s, mid.active) && u < |mid.users|
        && forall i: nat :: i < |mid.active| && mid.active[i].id == id ==> ContDone(mid, b.books, i, u, b.maxSlots, now)
    case RequeueRequest(id, u) => u < n ==> forall i :: 0 <= i < |s| && s[i].id == id && Mine(a.books.users, u, s[i]) && (s[i].state.Running? || s[i].state.Paused?) ==>
      t != [] && PutOff(s[i], t[|t| - 1], now)
    case UrgentRequest(id) => forall i :: 0 <= i < |s| && s[i].id == id ==> t != [] && t[0] == s[i]
    case SwapRequest(id1, id2) => |s| == |t| && forall i, j :: 0 <= i < |s| && 0 <= j < |s| && s[i].id == id1 && s[j].id == id2 ==> t[i] == s[j] && t[j] == s[i]
    case WallRequest(id, add) => id != 0 ==> |s| == |t| && forall i :: 0 <= i < |s| && s[i].id == id && Acceptable(s[i].wall, add) ==>
      t[i] == s[i].(wall := Shifted(s[i].wall, add))
    case SuspendUser(u) => u < n ==> Halts(a.books, b.books, u)
    case SuspendUsers => forall u: nat :: 1 <= u < n ==> Halts(a.books, b.books, u)
    case ResumeUser(u) => u < n ==> u < |b.books.users| && b.books.users[u].cap == Size(a.books.users[u].cap) && AllGoing(s, t, u, now)
    case ResumeUsers => n <= |b.books.users| && ResumedBelow(s, t, n, now) && forall u: nat :: 1 <= u < n ==> b.books.users[u].cap == Size(a.books.users[u].cap)
    case RefreshUsers(lines) =>
      && b.maxSlots == LimitRead(lines, a.maxSlots)
      && if NoNewLimits(lines, a.books.users) then exists vs :: FileRead(lines, a.books.users, vs) && SameCaps(vs, b.books.users)
         else b.books == a.books
    case SlotLimit(m) => b.maxSlots == if m > 0 then m else a.maxSlots
    case HealthTick => AllExamined(s, t, e.env)
    case OrphanTick => forall k :: 0 <= k < |t| && t[k].state.Queued? ==> t[k].client > 0
    case Update => LateServed(s, t, now) && forall k :: 0 <= k < |t| ==> !Lifeless(t[k], e.env)
    case Pass => TimelyStarts(s, t, e.env) && Exhausted(Call(e.env, b.maxSlots, 0, false), b.books)
  }

  /** The user has no slots, and with root's limit 0 none of its jobs is at work. */
  ghost predicate Halts(a: Books, b: Books, u: nat) {
    && u < |a.users| && u < |b.users| && b.users[u].cap == -Size(a.users[u].cap)
    && (RootIdle(a.users) ==> NoneAtWork(b.active, u))
  }

  /** The job has left and is the newest of the finished ones. */
  ghost predicate Filed1(b: Moment, id: int, err: int) {
    !Known(Jobs(b), id) && b.finished != [] && b.finished[|b.finished| - 1].id == id && b.finished[|b.finished| - 1].err == err
  }

  /** The caller may take back a job that has not started. */
  predicate Withdrawn(j: Job, u: nat) {
    (u == 0 || j.user == u) && (j.state.Queued? || j.state.Locked? || j.state.Holding?)
  }

  lemma Departed(b: Books, i: nat, e: int)
    requires i < |b.active| && b.active[i].user < |b.users| && DistinctIds(b.active)
    ensures !Known(Ended(b, i, e).active, b.active[i].id)
  {
    EndedShape(b, i, e);
    GoneFrom(b.active, i, Ended(b, i, e).active);
  }

  lemma GoneFrom(s: seq<Job>, i: nat, t: seq<Job>)
    requires i < |s| && DistinctIds(s) && SameShape(s[..i] + s[i + 1..], t)
    ensures !Known(t, s[i].id)
  {
    forall k | 0 <= k < |t|
      ensures t[k].id != s[i].id
    {
      assert (s[..i] + s[i + 1..])[k] == s[if k < i then k else k + 1];
    }
  }

  lemma GoneWithout(s: seq<Job>, i: nat)
    requires i < |s| && DistinctIds(s)
    ensures !Known(s[..i] + s[i + 1..], s[i].id)
  {
    GoneFrom(s, i, s[..i] + s[i + 1..]);
  }

  lemma ExhaustedAnyCpus(c: Call, d: Call, b: Books)
    requires Exhausted(c, b) && d.env == c.env && d.maxSlots == c.maxSlots
    ensures Exhausted(d, b)
  {
  }

  // ---------- from the contract of each request ----------

  predicate AtIndex(s: seq<Job>, id: int, i: int) {
    (i == -1 <==> !Known(s, id)) && (i != -1 ==> 0 <= i < |s| && s[i].id == id)
  }

  lemma OneIndex(s: seq<Job>, id: int, i: int)
    requires DistinctIds(s) && AtIndex(s, id, i)
    ensures forall k :: 0 <= k < |s| && s[k].id == id ==> k == i
  {
  }

  lemma DidReport(e: Event, a: Moment, b: Moment, i: int)
    requires e.req.RunReport? && DistinctIds(Jobs(a))
    requires e.req.pid > 0 && i == -1 ==> Jobs(b) == Jobs(a) && forall k :: 0 <= k < |Jobs(a)| && Jobs(a)[k].id == e.req.id ==> !AwaitsReport(Jobs(a)[k])
    requires e.req.pid > 0 && i != -1 ==> 0 <= i < |Jobs(a)| == |Jobs(b)| && Jobs(a)[i].id == e.req.id && Jobs(b)[i].pid == e.req.pid
    ensures Does(e, a, b)
  {
  }

  lemma DidEnd(e: Event, a: Moment, b: Moment)
    requires e.req.EndReport? && (Known(Jobs(a), e.req.id) ==> Filed1(b, e.req.id, e.req.err))
    ensures Does(e, a, b)
  {
  }

  lemma DidGo(e: Event, a: Moment, b: Moment)
    requires e.req.ClientGone? && !Known(Jobs(b), e.req.id)
    ensures Does(e, a, b)
  {
  }

  lemma DidReconnect(e: Event, a: Moment, b: Moment, ok: bool, i: int)
    requires e.req.ClientBack? && DistinctIds(Jobs(a)) && AtIndex(Jobs(a), e.req.id, i)
    requires ok <==> i != -1 && Reconnects(Jobs(a)[i], e.req.u, e.req.pid)
    requires Jobs(b) == if ok then Jobs(a)[i := Jobs(a)[i].(client := e.req.socket)] else Jobs(a)
    ensures Does(e, a, b)
  {
    OneIndex(Jobs(a), e.req.id, i);
  }

  lemma DidRemove(e: Event, a: Moment, b: Moment, ok: bool, i: int, k: int)
    requires e.req.Removal? && DistinctIds(Jobs(a)) && Meant(Jobs(a), a.finished, e.req.id, i, k)
    requires (ok <==> Removable(Jobs(a), a.finished, e.req.u, i, k)) && (ok && i >= 0 ==> !Known(Jobs(b), Jobs(a)[i].id))
    ensures Does(e, a, b)
  {
  }

  lemma DidHold(e: Event, a: Moment, b: Moment, i: int)
    requires e.req.HoldRequest? && DistinctIds(Jobs(a)) && e.req.u < |a.books.users|
    requires i == -1 <==> a.books.users[e.req.u].cap < 0 || !Known(Jobs(a), e.req.id)
    requires i != -1 ==> 0 <= i < |Jobs(a)| && Jobs(a)[i].id == e.req.id && HoldDone(a.books, b.books, i, e.req.u, e.env.now)
    ensures Does(e, a, b)
  {
    hide HoldDone;
    if i != -1 {
      OneIndex(Jobs(a), e.req.id, i);
    }
  }

  lemma DidCont(e: Event, a: Moment, b: Moment, i: int, mid: Books)
    requires e.req.ContRequest? && DistinctIds(mid.active) && e.req.u < |a.books.users| && e.req.u < |mid.users| && Survive(e.env, Jobs(a), mid.active)
    requires i == -1 <==> a.books.users[e.req.u].cap < 0 || !Known(mid.active, e.req.id)
    requires i != -1 ==> 0 <= i < |mid.active| && mid.active[i].id == e.req.id && ContDone(mid, b.books, i, e.req.u, b.maxSlots, e.env.now)
    ensures Does(e, a, b)
  {
    hide ContDone, Survive;
    if i != -1 {
      OneIndex(mid.active, e.req.id, i);
    }
    assert Survive(e.env, Jobs(a), mid.active);
  }

  lemma DidRequeue(e: Event, a: Moment, b: Moment, i: int)
    requires e.req.RequeueRequest? && DistinctIds(Jobs(a)) && e.req.u < |a.books.users|
    requires i == -1 ==> forall k :: 0 <= k < |Jobs(a)| && Jobs(a)[k].id == e.req.id ==>
      !MayTouch(a.books.users, e.req.u, Jobs(a)[k]) || (!Jobs(a)[k].state.Running? && !Jobs(a)[k].state.Paused?)
    requires i != -1 ==> 0 <= i < |Jobs(a)| == |Jobs(b)| && Jobs(a)[i].id == e.req.id && PutOff(Jobs(a)[i], Jobs(b)[|Jobs(b)| - 1], e.env.now)
    ensures Does(e, a, b)
  {
    hide PutOff;
  }

  lemma DidUrgent(e: Event, a: Moment, b: Moment, i: int)
    requires e.req.UrgentRequest? && DistinctIds(Jobs(a)) && (i == -1 ==> forall k :: 0 <= k < |Jobs(a)| ==> Jobs(a)[k].id != e.req.id)
    requires i != -1 ==> 0 <= i < |Jobs(a)| && Jobs(a)[i].id == e.req.id && Jobs(b) == [Jobs(a)[i]] + (Jobs(a)[..i] + Jobs(a)[i + 1..])
    ensures Does(e, a, b)
  {
  }

  lemma DidSwap(e: Event, a: Moment, b: Moment, i: int, j: int)
    requires e.req.SwapRequest? && DistinctIds(Jobs(a)) && (i == -1 || j == -1 ==> Jobs(b) == Jobs(a))
    requires i == -1 ==> forall k :: 0 <= k < |Jobs(a)| ==> Jobs(a)[k].id != e.req.id1
    requires j == -1 ==> forall k :: 0 <= k < |Jobs(a)| ==> Jobs(a)[k].id != e.req.id2
    requires i != -1 && j != -1 ==>
      && 0 <= i < |Jobs(a)| && 0 <= j < |Jobs(a)| && Jobs(a)[i].id == e.req.id1 && Jobs(a)[j].id == e.req.id2
      && Jobs(b) == Jobs(a)[i := Jobs(a)[j]][j := Jobs(a)[i]]
    ensures Does(e, a, b)
  {
  }

  lemma DidAdd(e: Event, a: Moment, b: Moment, ok: bool, i: int)
    requires e.req.WallRequest? && DistinctIds(Jobs(a)) && (i == -1 <==> e.req.id == 0 || !Known(Jobs(a), e.req.id))
    requires i != -1 ==> 0 <= i < |Jobs(a)| && Jobs(a)[i].id == e.req.id && (ok <==> Acceptable(Jobs(a)[i].wall, e.req.add))
    requires i != -1 && ok ==> Jobs(b) == Jobs(a)[i := Jobs(a)[i].(wall := Shifted(Jobs(a)[i].wall, e.req.add))]
    requires i == -1 || !ok ==> Jobs(b) == Jobs(a)
    ensures Does(e, a, b)
  {
    hide Acceptable, Shifted;
  }

  lemma DidResume(e: Event, a: Moment, b: Moment)
    requires e.req.ResumeUser?
    requires e.req.u < |a.books.users| ==>
      && e.req.u < |b.books.users| && b.books.users[e.req.u].cap == Abs(a.books.users[e.req.u].cap) && AllGoing(Jobs(a), Jobs(b), e.req.u, e.env.now)
    ensures Does(e, a, b)
  {
    hide AllGoing;
  }

  lemma DidResumeAll(e: Event, a: Moment, b: Moment)
    requires e.req.ResumeUsers? && |a.books.users| == |b.books.users| && ResumedBelow(Jobs(a), Jobs(b), |a.books.users|, e.env.now)
    requires forall u :: 1 <= u < |a.books.users| ==> b.books.users[u].cap == Abs(a.books.users[u].cap)
    ensures Does(e, a, b)
  {
    hide ResumedBelow;
  }

  lemma DidSuspend(e: Event, a: Moment, b: Moment)
    requires e.req.SuspendUser?
    requires e.req.u < |a.books.users| ==>
      && e.req.u < |b.books.users| && b.books.users[e.req.u].cap == -Abs(a.books.users[e.req.u].cap) && (RootIdle(a.books.users) ==> NoneAtWork(Jobs(b), e.req.u))
    ensures Does(e, a, b)
  {
    hide NoneAtWork;
  }

  lemma DidSuspendAll(e: Event, a: Moment, b: Moment)
    requires e.req.SuspendUsers? && |a.books.users| == |b.books.users|
    requires forall u :: 0 <= u < |a.books.users| ==> b.books.users[u].cap == if u == 0 then a.books.users[0].cap else -Abs(a.books.users[u].cap)
    requires RootIdle(a.books.users) ==> forall u: nat :: 1 <= u < |b.books.users| ==> NoneAtWork(Jobs(b), u)
    ensures Does(e, a, b)
  {
    hide NoneAtWork;
    forall u: nat | 1 <= u < |a.books.users|
      ensures Halts(a.books, b.books, u)
    {
      assert b.books.users[u].cap == -Abs(a.books.users[u].cap);
      assert RootIdle(a.books.users) ==> NoneAtWork(Jobs(b), u);
    }
  }

  lemma DidPass(e: Event, a: Moment, b: Moment, c: Call)
    requires e.req.Pass? && TimelyStarts(Jobs(a), Jobs(b), e.env) && Exhausted(c, b.books) && c.env == e.env && c.maxSlots == b.maxSlots
    ensures Does(e, a, b)
  {
    ExhaustedAnyCpus(c, Call(e.env, b.maxSlots, 0, false), b.books);
  }

  lemma DidSubmit(e: Event, a: Moment, b: Moment)
    requires e.req.Submission?
    ensures Does(e, a, b)
  {
  }

  /** Requests that name an unknown caller do nothing. */
  lemma DidNothing(e: Event, a: Moment, b: Moment)
    requires (e.req.Removal? || e.req.HoldRequest? || e.req.ContRequest? || e.req.RequeueRequest?) && e.req.u >= |a.books.users|
    ensures Does(e, a, b)
  {
  }

  lemma DidCleanup(e: Event, a: Moment, b: Moment)
    requires e.req.OrphanTick? && forall k :: 0 <= k < |Jobs(b)| && Jobs(b)[k].state.Queued? ==> Jobs(b)[k].client > 0
    ensures Does(e, a, b)
  {
  }

  lemma DidRefresh(e: Event, a: Moment, b: Moment)
    requires e.req.RefreshUsers? && b.maxSlots == LimitRead(e.req.lines, a.maxSlots)
    requires NoNewLimits(e.req.lines, a.books.users) ==> exists vs :: FileRead(e.req.lines, a.books.users, vs) && SameCaps(vs, b.books.users)
    requires !NoNewLimits(e.req.lines, a.books.users) ==> b.books == a.books
    ensures Does(e, a, b)
  {
    hide NoNewLimits, FileRead, SameCaps, LimitRead;
  }

  lemma DidLimit(e: Event, a: Moment, b: Moment)
    requires e.req.SlotLimit? && b.maxSlots == if e.req.n > 0 then e.req.n else a.maxSlots
    ensures Does(e, a, b)
  {
  }

  lemma DidCheck(e: Event, a: Moment, b: Moment)
    requires e.req.HealthTick? && AllExamined(Jobs(a), Jobs(b), e.env)
    ensures Does(e, a, b)
  {
    hide AllExamined;
  }

  lemma DidUpdate(e: Event, a: Moment, b: Moment)
    requires e.req.Update? && LateServed(Jobs(a), Jobs(b), e.env.now) && forall k :: 0 <= k < |Jobs(b)| ==> !Lifeless(Jobs(b)[k], e.env)
    ensures Does(e, a, b)
  {
    hide LateServed, Lifeless;
  }

  lemma MidFacts(lim: Limits, a: Books, mid: Books)
    requires Steady(lim, a, mid, {})
    ensures DistinctIds(mid.active)
  {
  }

  lemma NoneLifeless(env: Env, s: seq<Job>)
    requires NoneDead(env, s, 0)
    ensures forall k :: 0 <= k < |s| ==> !Lifeless(s[k], env)
  {
    forall k | 0 <= k < |s|
      ensures !Lifeless(s[k], env)
    {
      DeadIs(s[k], env);
    }
  }
}
