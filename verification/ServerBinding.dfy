/** The match between jobs and allocations as the server's requests use it. */
module ServerBinding {
  import opened JobRecord
  import opened SlotBooks
  import opened SlotMoves
  import opened DependencyLedger
  import opened Roster
  import opened Requests
  import opened UserRequests
  import opened SlotBinding
  import opened JobTable
  import CpuTopology
  import CO = CpuOwnership
  import CP = CpuPlacement
  import CL = CpuLedger
  import CS = CpuSteps
  import CR = CpuRebuild
  import CpuBind

  lemma EveryCpuFree(a: CpuBind.Allocator)
    requires a.Valid() && a.allocs == []
    ensures CS.FreeIn(a.topo, a.S()) == CpuTopology.AllCpus(a.topo)
  {
    NoneHeld(a.topo, a.owner[..]);
  }

  /** All allocations but that of one job. */
  ghost predicate AllBut(before: seq<CO.CpuAlloc>, after: seq<CO.CpuAlloc>, id: int) {
    forall a :: a in after <==> a in before && a.jobid != id
  }

  /** The allocations of all other jobs, defragmented. */
  ghost predicate Compacted(t: CpuTopology.Topology, before: seq<CO.CpuAlloc>, id: int, after: seq<CO.CpuAlloc>, s: CS.Snap) {
    exists c: CR.Chain, mid: seq<CO.CpuAlloc> :: AllBut(before, mid, id) && CR.Rebuilt(t, c, mid, after, s)
  }

  lemma OthersLeft(allocs: seq<CO.CpuAlloc>, k: nat)
    requires k < |allocs| && forall i, j :: 0 <= i < j < |allocs| ==> allocs[i].jobid != allocs[j].jobid
    ensures AllBut(allocs, CL.Without(allocs, k), allocs[k].jobid)
  {
    OthersKept(allocs, k);
    var rest := CL.Without(allocs, k);
    forall a | a in rest
      ensures a in allocs && a.jobid != allocs[k].jobid
    {
      var q :| 0 <= q < |rest| && rest[q] == a;
      assert rest[q] == allocs[if q < k then q else q + 1];
    }
  }

  lemma NoneOf(allocs: seq<CO.CpuAlloc>, id: int)
    requires forall q :: 0 <= q < |allocs| ==> allocs[q].jobid != id
    ensures AllBut(allocs, allocs, id)
  {
  }

  lemma OthersKept(allocs: seq<CO.CpuAlloc>, k: nat)
    requires k < |allocs|
    ensures forall a :: a in allocs && a.jobid != allocs[k].jobid ==> a in CL.Without(allocs, k)
  {
    forall a | a in allocs && a.jobid != allocs[k].jobid
      ensures a in CL.Without(allocs, k)
    {
      var q :| 0 <= q < |allocs| && allocs[q] == a;
      assert CL.Without(allocs, k)[if q < k then q else q - 1] == a;
    }
  }

  lemma JobsApart(a: CpuBind.Allocator)
    requires a.Valid()
    ensures forall i, j :: 0 <= i < j < |a.allocs| ==> a.allocs[i].jobid != a.allocs[j].jobid
  {
  }

  lemma PositiveId(active: seq<Job>, allocs: seq<CO.CpuAlloc>, i: nat)
    requires Matches(active, allocs) && i < |active|
    ensures active[i].id > 0
  {
  }

  lemma ValidParts(a: CpuBind.Allocator)
    requires a.Valid()
    ensures CpuTopology.WellFormed(a.topo) && |a.S().owner| == a.topo.maxOsCpu && CL.Ledger(a.topo, a.S().owner, a.allocs)
  {
  }

  /** What the jobs are after the newest one has taken up its dependencies. */
  lemma JoinedBody(s: seq<Job>, p: Job, t: seq<Job>)
    requires SameBody(s + [p], t)
    requires forall k :: 0 <= k < |t| && k != |s| ==> t[k].deps == (s + [p])[k].deps
    ensures |t| == |s| + 1 && SameBody(s, t[..|s|])
    ensures forall k :: 0 <= k < |s| ==> t[k].deps == s[k].deps
    ensures t[|s|] == p.(deps := t[|s|].deps, notify := t[|s|].notify, depErr := t[|s|].depErr)
  {
    assert forall k :: 0 <= k < |s| ==> (s + [p])[k] == s[k] && t[..|s|][k] == t[k];
  }

  lemma MatchesBody(s: seq<Job>, t: seq<Job>, allocs: seq<CO.CpuAlloc>)
    requires SameBody(s, t) && Matches(s, allocs)
    ensures Matches(t, allocs)
  {
    MatchesEdited(s, t, allocs);
  }

  lemma EmptyServer(us: seq<User>, lim: Limits, next: int)
    requires RootFirst(us) && forall u :: 0 <= u < |us| ==> us[u].busy == 0 && us[u].jobs == 0 && us[u].queue == 0
    requires 0 < next
    ensures Sound(Books(us, [], 0)) && Exact(Books(us, [], 0)) && FullyBound(lim, Books(us, [], 0))
    ensures OnRoster([], [], next) && InBalance([], [], Book(map[], map[], map[]), next)
    ensures Matches([], []) && Filed([], map[], {}, next)
  {
    EmptyBooks(us, lim);
    EmptyRoster(next);
    NothingHeldYet([]);
    NothingFiled({}, next);
  }

  /** Jobs that hold no CPUs. */
  ghost predicate Idle(s: seq<Job>) {
    forall k :: 0 <= k < |s| ==> s[k].bound == 0 && s[k].id > 0
  }

  lemma NoneIdle()
    ensures Idle([])
  {
  }

  lemma MoreIdle(s: seq<Job>, j: Job)
    requires Idle(s) && j.bound == 0 && j.id > 0
    ensures Idle(s + [j])
  {
  }

  lemma {:induction false} MatchesPutBack(s: seq<Job>, out: seq<Job>, allocs: seq<CO.CpuAlloc>)
    requires Matches(s, allocs) && Idle(out) && DistinctIds(s + out)
    ensures Matches(s + out, allocs)
    decreases |out|
  {
    if out == [] {
      assert s + out == s;
    } else {
      var n := |out| - 1;
      var t := s + out[..n];
      assert s + out == t + [out[n]];
      assert forall k :: 0 <= k < |t| ==> (s + out)[k] == t[k];
      MatchesPutBack(s, out[..n], allocs);
      assert forall k :: 0 <= k < |t| ==> (s + out)[k].id != (s + out)[|t|].id;
      MatchesJoined(t, out[n], allocs);
    }
  }

  lemma MatchesEnded(b: Books, i: nat, e: int, allocs: seq<CO.CpuAlloc>)
    requires i < |b.active| && b.active[i].user < |b.users|
    requires Matches(b.active[i := b.active[i].(bound := 0)], allocs)
    ensures Matches(Ended(b, i, e).active, allocs)
  {
    var s := b.active[i := b.active[i].(bound := 0)];
    EndedShape(b, i, e);
    hide Matches, Ended;
    MatchesLeft(s, i, allocs);
    assert s[..i] + s[i + 1..] == b.active[..i] + b.active[i + 1..];
    MatchesEdited(s[..i] + s[i + 1..], Ended(b, i, e).active, allocs);
  }

  lemma MatchesShape(s: seq<Job>, t: seq<Job>, allocs: seq<CO.CpuAlloc>)
    requires Matches(s, allocs) && SameShape(s, t)
    ensures Matches(t, allocs)
  {
    MatchesEdited(s, t, allocs);
  }

  // ---------- the table ----------

  lemma FiledEnded(b: Books, i: nat, e: int, table: map<int, int>, orphans: set<int>, next: int)
    requires i < |b.active| && b.active[i].user < |b.users| && Filed(b.active, table, orphans, next)
    ensures Filed(Ended(b, i, e).active, table - {b.active[i].id}, orphans, next)
  {
    EndedShape(b, i, e);
    hide Ended, Filed;
    FiledLeft(b.active, i, table, orphans, next);
    FiledShape(b.active[..i] + b.active[i + 1..], Ended(b, i, e).active, table - {b.active[i].id}, orphans, next);
  }

  lemma FiledShape(s: seq<Job>, t: seq<Job>, table: map<int, int>, orphans: set<int>, next: int)
    requires SameShape(s, t) && Filed(s, table, orphans, next)
    ensures Filed(t, table, orphans, next)
  {
    FiledEdited(s, t, table, orphans, next);
  }

  lemma FiledBody(s: seq<Job>, t: seq<Job>, table: map<int, int>, orphans: set<int>, next: int)
    requires SameBody(s, t) && Filed(s, table, orphans, next)
    ensures Filed(t, table, orphans, next)
  {
    FiledEdited(s, t, table, orphans, next);
  }

  /** Every old id is still there after the late jobs have been moved. */
  lemma AllStillKnown(s: seq<Job>, t: seq<Job>, now: int)
    requires AllChecked(s, t, now)
    ensures forall k :: 0 <= k < |s| ==> Known(t, s[k].id)
  {
    forall k | 0 <= k < |s|
      ensures Known(t, s[k].id)
    {
      var y := Checked(s[k], now);
      assert y in t;
      var q :| 0 <= q < |t| && t[q] == y;
      assert t[q].id == s[k].id;
    }
  }

  lemma NotActive(active: seq<Job>, finished: seq<Job>, next: int, k: nat)
    requires OnRoster(active, finished, next) && k < |finished|
    ensures forall t :: SameShape(active, t) ==> !Known(t, finished[k].id)
  {
  }

  lemma CanClaim(a: CpuBind.Allocator, cpus: seq<nat>)
    requires a.Valid() && a.Claimable(cpus)
    ensures CpuTopology.Distinct(cpus) && CpuTopology.Elements(cpus) <= CS.FreeIn(a.topo, a.S())
  {
    CP.ClaimableIsFree(a.topo, a.owner[..], a.cpuToGroup[..], cpus);
  }

  /** A job that may take over n CPUs when the server starts. */
  predicate CanTake(j: Job, n: nat) {
    (j.state.Running? || j.state.Paused?) && j.bound == 0 && 0 < n <= j.slots
  }

  /** What a cpuset file names. */
  datatype Claim = Claim(id: int, cpus: seq<nat>, memNodes: set<nat>, primaryNode: int)

  /** A job that can take over what its file names. */
  ghost predicate Takes(active: seq<Job>, c: Claim) {
    exists i :: 0 <= i < |active| && active[i].id == c.id && CanTake(active[i], |c.cpus|)
  }

  /** The job has as many CPUs as its file names. */
  ghost predicate HasTaken(active: seq<Job>, c: Claim) {
    exists i :: 0 <= i < |active| && active[i].id == c.id && active[i].bound == |c.cpus|
  }

  /** Files of different jobs that name different CPUs. */
  ghost predicate Separate(claims: seq<Claim>) {
    forall p, q :: 0 <= p < q < |claims| ==> claims[p].id != claims[q].id && forall c :: c in claims[p].cpus ==> c !in claims[q].cpus
  }

  lemma TakesStill(s: seq<Job>, i: nat, n: nat, c: Claim)
    requires Takes(s, c) && i < |s| && s[i].id != c.id
    ensures Takes(s[i := s[i].(bound := n)], c)
  {
    var k :| 0 <= k < |s| && s[k].id == c.id && CanTake(s[k], |c.cpus|);
    assert s[i := s[i].(bound := n)][k] == s[k];
  }

  lemma TakenStill(s: seq<Job>, i: nat, n: nat, c: Claim)
    requires HasTaken(s, c) && i < |s| && s[i].id != c.id
    ensures HasTaken(s[i := s[i].(bound := n)], c)
  {
    var k :| 0 <= k < |s| && s[k].id == c.id && s[k].bound == |c.cpus|;
    assert s[i := s[i].(bound := n)][k] == s[k];
  }

  lemma TakesAt(s: seq<Job>, i: int, c: Claim)
    requires Takes(s, c) && DistinctIds(s) && (i == -1 || (0 <= i < |s| && s[i].id == c.id)) && (i == -1 ==> !Known(s, c.id))
    ensures i != -1 && CanTake(s[i], |c.cpus|)
  {
  }

  lemma TakenNow(s: seq<Job>, i: nat, c: Claim)
    requires i < |s| && s[i].id == c.id
    ensures HasTaken(s[i := s[i].(bound := |c.cpus|)], c)
  {
    assert s[i := s[i].(bound := |c.cpus|)][i].bound == |c.cpus|;
  }

  /** The CPUs are on the machine, free and distinct. */
  ghost predicate Vacant(o: seq<int>, index: seq<int>, cpus: seq<nat>) {
    && (forall k :: 0 <= k < |cpus| ==> cpus[k] < |o| && cpus[k] < |index| && index[cpus[k]] >= 0 && o[cpus[k]] == 0)
    && forall i, j :: 0 <= i < j < |cpus| ==> cpus[i] != cpus[j]
  }

  lemma Unaliased(a: CpuBind.Allocator)
    requires a.Valid()
    ensures a.cpuToGroup != a.owner && a.cpuToGroup != a.groupFree && a.cpuToGroup != a.nodeFree
  {
  }

  lemma VacantIs(a: CpuBind.Allocator, cpus: seq<nat>)
    ensures a.Claimable(cpus) <==> Vacant(a.owner[..], a.cpuToGroup[..], cpus)
  {
    assert forall k :: 0 <= k < a.cpuToGroup.Length ==> a.cpuToGroup[k] == a.cpuToGroup[..][k];
    assert forall k :: 0 <= k < a.owner.Length ==> a.owner[k] == a.owner[..][k];
  }

  /** Distinct CPUs of the machine. */
  ghost predicate Mountable(t: CpuTopology.Topology, cpus: seq<nat>) {
    (forall k :: 0 <= k < |cpus| ==> cpus[k] in CpuTopology.AllCpus(t)) && forall i, j :: 0 <= i < j < |cpus| ==> cpus[i] != cpus[j]
  }

  /** Jobs without CPUs have no allocations. */
  lemma NoAllocs(active: seq<Job>, allocs: seq<CO.CpuAlloc>)
    requires Matches(active, allocs) && forall k :: 0 <= k < |active| ==> active[k].bound == 0
    ensures allocs == []
  {
    if allocs != [] {
      CpusOfOne(allocs, 0);
    }
  }

  lemma AllVacant(a: CpuBind.Allocator, cpus: seq<nat>)
    requires a.Valid() && a.allocs == [] && Mountable(a.topo, cpus)
    ensures Vacant(a.owner[..], a.cpuToGroup[..], cpus)
  {
    EveryCpuFree(a);
    forall k | 0 <= k < |cpus|
      ensures cpus[k] < a.owner.Length && cpus[k] < a.cpuToGroup.Length && a.cpuToGroup[cpus[k]] >= 0 && a.owner[cpus[k]] == 0
    {
      assert cpus[k] in CS.FreeIn(a.topo, a.S());
    }
  }

  /** CPUs beside those just claimed are still vacant. */
  lemma StillVacant(o: seq<int>, o': seq<int>, index: seq<int>, mine: seq<nat>, other: seq<nat>)
    requires Vacant(o, index, other) && (forall c :: c in mine ==> c !in other)
    requires |o'| == |o| && forall k :: 0 <= k < |o| && k !in mine ==> o'[k] == o[k]
    ensures Vacant(o', index, other)
  {
    assert forall k :: 0 <= k < |other| ==> other[k] in other;
  }

  lemma OnlyThose(o: seq<int>, cpus: seq<nat>, id: int, o': seq<int>)
    requires o' == CO.Assign(o, CpuTopology.Elements(cpus), id)
    ensures |o'| == |o| && forall k :: 0 <= k < |o| && k !in cpus ==> o'[k] == o[k]
  {
  }

  ghost predicate Named(j: Job, claims: seq<Claim>) {
    exists q :: 0 <= q < |claims| && claims[q].id == j.id && j.bound == |claims[q].cpus|
  }

  /** Nothing but the CPUs of the jobs has changed, and only to those of a claim. */
  ghost predicate Rebound(s: seq<Job>, t: seq<Job>, claims: seq<Claim>) {
    |s| == |t| && forall k :: 0 <= k < |s| ==> t[k] == s[k].(bound := t[k].bound) && (t[k].bound == s[k].bound || Named(t[k], claims))
  }

  lemma ReboundStill(s: seq<Job>, claims: seq<Claim>)
    ensures Rebound(s, s, claims)
  {
  }

  lemma ReboundMore(s: seq<Job>, t: seq<Job>, claims: seq<Claim>, i: nat, q: nat)
    requires Rebound(s, t, claims) && i < |t| && q < |claims| && claims[q].id == t[i].id
    ensures Rebound(s, t[i := t[i].(bound := |claims[q].cpus|)], claims)
  {
    var r := t[i := t[i].(bound := |claims[q].cpus|)];
    forall k | 0 <= k < |s|
      ensures r[k] == s[k].(bound := r[k].bound) && (r[k].bound == s[k].bound || Named(r[k], claims))
    {
      assert t[k] == s[k].(bound := t[k].bound);
    }
  }

  lemma ReboundNone(s: seq<Job>, t: seq<Job>)
    requires Rebound(s, t, [])
    ensures t == s
  {
  }

  lemma SurviveRebound(env: Env, r: seq<Job>, s: seq<Job>, t: seq<Job>, claims: seq<Claim>)
    requires Survive(env, r, s) && Rebound(s, t, claims)
    ensures Survive(env, r, t)
  {
    forall k | 0 <= k < |r| && !Dead(env, r[k])
      ensures Known(t, r[k].id)
    {
      var i :| 0 <= i < |s| && s[i].id == r[k].id;
      assert t[i].id == r[k].id;
    }
  }

  lemma ClaimedSize(b: CO.CpuAlloc, id: int, cpus: seq<nat>, memNodes: set<nat>, primaryNode: int)
    requires CP.Claimed(b, id, cpus, memNodes, primaryNode)
    ensures |b.cpus| == |cpus| && b.jobid == id
  {
    assert |multiset(b.cpus)| == |b.cpus| && |multiset(cpus)| == |cpus|;
  }

  lemma ClaimedBooks(b: Books, i: nat, n: nat, finished: seq<Job>, next: int)
    requires Sound(b) && Even(b) && OnRoster(b.active, finished, next) && i < |b.active| && n <= b.active[i].slots
    requires b.active[i].state.Running? || b.active[i].state.Paused?
    ensures var c := b.(active := b.active[i := b.active[i].(bound := n)]);
      Sound(c) && Even(c) && OnRoster(c.active, finished, next)
  {
    var y := b.active[i].(bound := n);
    var c := b.(active := b.active[i := y]);
    SoundAt(b, i);
    assert JobOk(y, |b.users|) && SameCaps(b.users, c.users) && Pays(b, c, b.active[i], y);
    LinksReplaced(b.active, i, y);
    hide JobOk, OnRoster, LinksFrom, SameCaps;
    ReplacedSound(b, c, i, y);
    forall m: Meter | Counted(m, |c.users|) && !m.Waits?
      ensures Sum(c.active, m) == Reading(c.users, c.busySlots, m)
    {
      SumUpdate(b.active, i, y, m);
      assert Sum(b.active, m) == Reading(b.users, b.busySlots, m);
    }
    AllDistinct(c);
    RosterFrom(b.active, c.active, finished, next);
  }

  /** Users and jobs as they have just been loaded. */
  ghost predicate Booted(us: seq<User>, vs: seq<User>, s: seq<Job>) {
    SameCaps(us, vs) && JobsOk(s, |us|) && DistinctIds(s) && Idle(s)
  }

  lemma BootRoster(us: seq<User>, vs: seq<User>, rows: seq<Job>, stored: seq<Job>, env: Env, first: int, next: int)
    requires RowsOk(rows, |us|) && OnRoster([], stored, first) && Apart(rows, stored) && first <= next && SameCaps(us, vs)
    requires forall k :: 0 <= k < |Loaded(rows, env)| ==> Loaded(rows, env)[k].id < next
    ensures Booted(us, vs, Loaded(rows, env)) && JobsOk(Loaded(rows, env), |vs|) && OnRoster(Loaded(rows, env), stored, next)
    ensures |vs| == |us|
  {
    LoadedOk(rows, stored, env, |us|, first, next);
    hide Loaded;
  }

  lemma BootBooks(us: seq<User>, b: Books)
    requires RootFirst(us) && (exists vs :: Booted(us, vs, b.active) && SameCaps(vs, b.users)) && Tallied(b.users, b.busySlots, b.active)
    ensures Sound(b) && Matches(b.active, []) && |b.users| == |us|
  {
    var vs :| Booted(us, vs, b.active) && SameCaps(vs, b.users);
    hide Sound, Tallied;
    LoadedSound(us, vs, b);
    NothingHeldYet(b.active);
  }
}
