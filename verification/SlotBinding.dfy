/** The scheduler and the CPU allocator together: what jobs hold, counted by the
    one and by the other. */
module SlotBinding {
  import opened JobRecord
  import SB = SlotBooks
  import opened SlotMoves
  import opened Requests
  import opened CpuTopology
  import CO = CpuOwnership
  import CL = CpuLedger
  import CS = CpuSteps
  import CP = CpuPlacement
  import CD = CpuDefrag

  /** The CPUs in all live allocations. */
  function Held(allocs: seq<CO.CpuAlloc>): nat {
    if allocs == [] then 0 else Held(allocs[..|allocs| - 1]) + |allocs[|allocs| - 1].cpus|
  }

  /** The CPUs in the allocation of one job. */
  function CpusOf(allocs: seq<CO.CpuAlloc>, id: int): nat {
    if allocs == [] then 0
    else if allocs[|allocs| - 1].jobid == id then |allocs[|allocs| - 1].cpus|
    else CpusOf(allocs[..|allocs| - 1], id)
  }

  /** The allocations are those of active jobs, and hold what the jobs say. */
  ghost predicate Matches(active: seq<Job>, allocs: seq<CO.CpuAlloc>) {
    && SB.DistinctIds(active) && (forall i :: 0 <= i < |active| ==> active[i].id > 0)
    && (forall j, k :: 0 <= j < k < |allocs| ==> allocs[j].jobid != allocs[k].jobid)
    && (forall k :: 0 <= k < |allocs| ==> allocs[k].cpus != [] && Known(active, allocs[k].jobid))
    && (forall i :: 0 <= i < |active| ==> active[i].bound == CpusOf(allocs, active[i].id))
  }

  lemma {:induction false} CpusOfOne(allocs: seq<CO.CpuAlloc>, k: nat)
    requires k < |allocs| && forall i, j :: 0 <= i < j < |allocs| ==> allocs[i].jobid != allocs[j].jobid
    ensures CpusOf(allocs, allocs[k].jobid) == |allocs[k].cpus|
  {
    if k < |allocs| - 1 {
      CpusOfOne(allocs[..|allocs| - 1], k);
    }
  }

  lemma {:induction false} CpusOfNone(allocs: seq<CO.CpuAlloc>, id: int)
    requires forall k :: 0 <= k < |allocs| ==> allocs[k].jobid != id
    ensures CpusOf(allocs, id) == 0
  {
    if allocs != [] {
      CpusOfNone(allocs[..|allocs| - 1], id);
    }
  }

  // ---------- the same total ----------

  lemma MatchesRest(active: seq<Job>, allocs: seq<CO.CpuAlloc>, i: nat)
    requires Matches(active, allocs) && allocs != [] && i < |active| && active[i].id == allocs[|allocs| - 1].jobid
    ensures Matches(active[i := active[i].(bound := 0)], allocs[..|allocs| - 1])
  {
    var t, rest := active[i := active[i].(bound := 0)], allocs[..|allocs| - 1];
    CpusOfNone(rest, active[i].id);
    forall k | 0 <= k < |rest|
      ensures rest[k].cpus != [] && Known(t, rest[k].jobid)
    {
      assert rest[k] == allocs[k] && Known(active, allocs[k].jobid);
      var q :| 0 <= q < |active| && active[q].id == allocs[k].jobid;
      assert t[q].id == rest[k].jobid;
    }
  }

  /** Both sides count the same CPUs. */
  lemma {:induction false} SameTotal(active: seq<Job>, allocs: seq<CO.CpuAlloc>)
    requires Matches(active, allocs)
    ensures SB.Sum(active, SB.Cpus) == Held(allocs)
    decreases |allocs|
  {
    if allocs == [] {
      NothingBound(active);
    } else {
      var a := allocs[|allocs| - 1];
      assert Known(active, a.jobid);
      var i :| 0 <= i < |active| && active[i].id == a.jobid;
      CpusOfOne(allocs, |allocs| - 1);
      MatchesRest(active, allocs, i);
      SameTotal(active[i := active[i].(bound := 0)], allocs[..|allocs| - 1]);
      SB.SumUpdate(active, i, active[i].(bound := 0), SB.Cpus);
    }
  }

  lemma {:induction false} NothingBound(s: seq<Job>)
    requires forall i :: 0 <= i < |s| ==> s[i].bound == 0
    ensures SB.Sum(s, SB.Cpus) == 0
  {
    if s != [] {
      NothingBound(s[..|s| - 1]);
    }
  }

  /** What is free and what is held make up the machine. */
  lemma {:induction false} FreePlusHeld(t: Topology, o: seq<int>, allocs: seq<CO.CpuAlloc>)
    requires WellFormed(t) && |o| == t.maxOsCpu && CL.Ledger(t, o, allocs)
    ensures |Free(t, o)| + Held(allocs) == |AllCpus(t)|
    decreases |allocs|
  {
    hide WellFormed, AllCpus, Elements, Free, CL.Ledger;
    if allocs == [] {
      NoneHeld(t, o);
    } else {
      var k := |allocs| - 1;
      var T := Elements(allocs[k].cpus);
      CL.LiveAlloc(t, o, allocs, k);
      CL.Unbook(t, o, allocs, k);
      assert CL.Without(allocs, k) == allocs[..k];
      FreePlusHeld(t, CO.Assign(o, T, 0), allocs[..k]);
      OnMachine(t, allocs[k].cpus);
      FreedMore(t, o, T, allocs[k].jobid);
      CO.ElementsSize(allocs[k].cpus);
    }
  }

  lemma OnMachine(t: Topology, cpus: seq<nat>)
    requires forall k :: 0 <= k < |cpus| ==> cpus[k] in AllCpus(t)
    ensures forall c :: c in Elements(cpus) ==> c in AllCpus(t)
  {
  }

  lemma NoneHeld(t: Topology, o: seq<int>)
    requires WellFormed(t) && |o| == t.maxOsCpu && CL.Ledger(t, o, [])
    ensures Free(t, o) == AllCpus(t)
  {
    forall c | c in AllCpus(t)
      ensures c in Free(t, o)
    {
      var g := HomeGroup(t, c);
    }
  }

  lemma FreedMore(t: Topology, o: seq<int>, T: set<nat>, id: int)
    requires T == CL.Owned(o, id) && id != 0 && forall c :: c in T ==> c in AllCpus(t)
    ensures |Free(t, CO.Assign(o, T, 0))| == |Free(t, o)| + |T|
  {
    hide AllCpus;
    assert Free(t, CO.Assign(o, T, 0)) == Free(t, o) + T;
    assert Free(t, o) !! T;
  }

  /** The allocator has as many free CPUs as the scheduler believes. */
  lemma FreeIsRest(active: seq<Job>, t: Topology, o: seq<int>, allocs: seq<CO.CpuAlloc>)
    requires Matches(active, allocs) && WellFormed(t) && |o| == t.maxOsCpu && CL.Ledger(t, o, allocs)
    ensures |Free(t, o)| == |AllCpus(t)| - SB.Sum(active, SB.Cpus)
  {
    hide Matches, WellFormed, CL.Ledger, Free, AllCpus;
    SameTotal(active, allocs);
    FreePlusHeld(t, o, allocs);
  }

  // ---------- binding and releasing keep the match ----------

  /** Nothing that concerns the allocator has changed. */
  lemma MatchesEdited(s: seq<Job>, t: seq<Job>, allocs: seq<CO.CpuAlloc>)
    requires Matches(s, allocs) && |s| == |t| && forall i :: 0 <= i < |s| ==> t[i].id == s[i].id && t[i].bound == s[i].bound
    ensures Matches(t, allocs)
  {
    forall k | 0 <= k < |allocs|
      ensures Known(t, allocs[k].jobid)
    {
      assert Known(s, allocs[k].jobid);
      var q :| 0 <= q < |s| && s[q].id == allocs[k].jobid;
      assert t[q].id == allocs[k].jobid;
    }
  }

  lemma Unallocated(active: seq<Job>, allocs: seq<CO.CpuAlloc>, i: nat)
    requires Matches(active, allocs) && i < |active| && active[i].bound == 0
    ensures forall k :: 0 <= k < |allocs| ==> allocs[k].jobid != active[i].id
  {
    forall k | 0 <= k < |allocs|
      ensures allocs[k].jobid != active[i].id
    {
      CpusOfOne(allocs, k);
    }
  }

  /** Job i gets the new allocation. */
  lemma MatchesBound(s: seq<Job>, t: seq<Job>, i: nat, allocs: seq<CO.CpuAlloc>, more: seq<CO.CpuAlloc>)
    requires Matches(s, allocs) && i < |s| == |t| && s[i].bound == 0
    requires |more| == |allocs| + 1 && more[..|allocs|] == allocs && more[|allocs|].jobid == s[i].id
    requires |more[|allocs|].cpus| == t[i].bound > 0
    requires forall k :: 0 <= k < |s| ==> t[k].id == s[k].id && (k != i ==> t[k].bound == s[k].bound)
    ensures Matches(t, more)
  {
    Unallocated(s, allocs, i);
    forall k | 0 <= k < |more|
      ensures more[k].cpus != [] && Known(t, more[k].jobid)
    {
      if k < |allocs| {
        assert more[k] == allocs[k] && Known(s, allocs[k].jobid);
        var q :| 0 <= q < |s| && s[q].id == allocs[k].jobid;
        assert t[q].id == more[k].jobid;
      } else {
        assert t[i].id == more[k].jobid;
      }
    }
    assert forall j :: 0 <= j < |allocs| ==> more[j] == allocs[j];
    assert forall k :: 0 <= k < |t| && k != i ==> t[k].id != t[i].id;
  }

  lemma {:induction false} CpusWithout(allocs: seq<CO.CpuAlloc>, k: nat, id: int)
    requires k < |allocs| && forall i, j :: 0 <= i < j < |allocs| ==> allocs[i].jobid != allocs[j].jobid
    ensures CpusOf(CL.Without(allocs, k), id) == if allocs[k].jobid == id then 0 else CpusOf(allocs, id)
  {
    var rest := CL.Without(allocs, k);
    var m := |allocs| - 1;
    if k == m {
      assert rest == allocs[..m];
      if allocs[k].jobid == id {
        CpusOfNone(rest, id);
      }
    } else {
      CpusWithout(allocs[..m], k, id);
      assert rest[..|rest| - 1] == CL.Without(allocs[..m], k);
    }
  }

  lemma NothingToFree(s: seq<Job>, allocs: seq<CO.CpuAlloc>, i: nat)
    requires Matches(s, allocs) && i < |s| && forall k :: 0 <= k < |allocs| ==> allocs[k].jobid != s[i].id
    ensures s[i].bound == 0
  {
    CpusOfNone(allocs, s[i].id);
  }

  /** Job i gives its allocation back. */
  lemma MatchesReleased(s: seq<Job>, t: seq<Job>, i: nat, allocs: seq<CO.CpuAlloc>, k: nat)
    requires Matches(s, allocs) && i < |s| == |t| && k < |allocs| && allocs[k].jobid == s[i].id && t[i].bound == 0
    requires forall q :: 0 <= q < |s| ==> t[q].id == s[q].id && (q != i ==> t[q].bound == s[q].bound)
    ensures Matches(t, CL.Without(allocs, k))
  {
    var rest := CL.Without(allocs, k);
    forall q | 0 <= q < |t|
      ensures t[q].bound == CpusOf(rest, t[q].id)
    {
      CpusWithout(allocs, k, t[q].id);
    }
    forall m | 0 <= m < |rest|
      ensures rest[m].cpus != [] && Known(t, rest[m].jobid)
    {
      var n := if m < k then m else m + 1;
      assert rest[m] == allocs[n] && Known(s, allocs[n].jobid);
      var q :| 0 <= q < |s| && s[q].id == allocs[n].jobid;
      assert t[q].id == rest[m].jobid;
    }
  }

  /** A job without CPUs joins. */
  lemma MatchesJoined(s: seq<Job>, y: Job, allocs: seq<CO.CpuAlloc>)
    requires Matches(s, allocs) && y.bound == 0 && y.id > 0 && !Known(s, y.id)
    ensures Matches(s + [y], allocs)
  {
    var t := s + [y];
    forall k | 0 <= k < |allocs|
      ensures Known(t, allocs[k].jobid) && allocs[k].jobid != y.id
    {
      assert Known(s, allocs[k].jobid);
      var q :| 0 <= q < |s| && s[q].id == allocs[k].jobid;
      assert t[q].id == allocs[k].jobid;
    }
    CpusOfNone(allocs, y.id);
    assert forall q :: 0 <= q < |s| ==> t[q] == s[q];
  }

  /** A job without CPUs leaves. */
  lemma MatchesLeft(s: seq<Job>, i: nat, allocs: seq<CO.CpuAlloc>)
    requires Matches(s, allocs) && i < |s| && s[i].bound == 0
    ensures Matches(s[..i] + s[i + 1..], allocs)
  {
    var t := s[..i] + s[i + 1..];
    Unallocated(s, allocs, i);
    forall k | 0 <= k < |allocs|
      ensures Known(t, allocs[k].jobid)
    {
      assert Known(s, allocs[k].jobid);
      var q :| 0 <= q < |s| && s[q].id == allocs[k].jobid;
      assert t[if q < i then q else q - 1].id == allocs[k].jobid;
    }
    assert forall q :: 0 <= q < |t| ==> t[q] == s[if q < i then q else q + 1];
  }

  lemma MatchesReordered(s: seq<Job>, t: seq<Job>, allocs: seq<CO.CpuAlloc>)
    requires Matches(s, allocs) && SB.Reordered(s, t)
    ensures Matches(t, allocs)
  {
    hide SB.Sum;
    forall k | 0 <= k < |allocs|
      ensures Known(t, allocs[k].jobid)
    {
      assert Known(s, allocs[k].jobid);
      var q :| 0 <= q < |s| && s[q].id == allocs[k].jobid;
      var m :| 0 <= m < |t| && t[m] == s[q];
    }
    forall q | 0 <= q < |t|
      ensures t[q].bound == CpusOf(allocs, t[q].id) && t[q].id > 0
    {
      var m :| 0 <= m < |s| && s[m] == t[q];
    }
  }

  lemma NothingHeldYet(s: seq<Job>)
    requires SB.DistinctIds(s) && forall i :: 0 <= i < |s| ==> s[i].id > 0 && s[i].bound == 0
    ensures Matches(s, [])
  {
  }

  // ---------- defragmentation ----------

  ghost function JobIds(allocs: seq<CO.CpuAlloc>): seq<int> {
    seq(|allocs|, k requires 0 <= k < |allocs| => allocs[k].jobid)
  }

  /** Distinct job ids that all occur in a list of the same length are all of it. */
  lemma SameJobs(A: seq<CO.CpuAlloc>, B: seq<CO.CpuAlloc>, k: nat) returns (q: nat)
    requires CD.AllKept(A, B) && k < |B|
    requires forall i, j :: 0 <= i < j < |A| ==> A[i].jobid != A[j].jobid
    requires forall i, j :: 0 <= i < j < |B| ==> B[i].jobid != B[j].jobid
    ensures q < |A| && A[q].jobid == B[k].jobid && |A[q].cpus| == |B[k].cpus|
  {
    var a, b := Elements(JobIds(A)), Elements(JobIds(B));
    CO.ElementsSize(JobIds(A));
    CO.ElementsSize(JobIds(B));
    forall id | id in a
      ensures id in b
    {
      var i :| 0 <= i < |A| && A[i].jobid == id;
      assert A[i] in A;
      var y :| y in B && CD.Kept(A[i], y);
      var j :| 0 <= j < |B| && B[j] == y;
      assert JobIds(B)[j] == id;
    }
    SubsetOfSameSize(a, b);
    assert JobIds(B)[k] in b;
    q :| 0 <= q < |A| && JobIds(A)[q] == B[k].jobid;
    assert A[q] in A;
    var y :| y in B && CD.Kept(A[q], y);
    var j :| 0 <= j < |B| && B[j] == y;
  }

  lemma SubsetOfSameSize(a: set<int>, b: set<int>)
    requires a <= b && |a| == |b|
    ensures a == b
  {
    assert b == a + (b - a);
  }

  /** A defragmentation does not disturb the match. */
  lemma MatchesKept(active: seq<Job>, A: seq<CO.CpuAlloc>, B: seq<CO.CpuAlloc>)
    requires Matches(active, A) && CD.AllKept(A, B)
    requires forall i, j :: 0 <= i < j < |B| ==> B[i].jobid != B[j].jobid
    ensures Matches(active, B)
  {
    forall k | 0 <= k < |B|
      ensures B[k].cpus != [] && Known(active, B[k].jobid)
    {
      var q := SameJobs(A, B, k);
      assert Known(active, A[q].jobid);
    }
    forall i | 0 <= i < |active|
      ensures CpusOf(B, active[i].id) == CpusOf(A, active[i].id)
    {
      KeptShare(A, B, active[i].id);
    }
  }

  lemma KeptShare(A: seq<CO.CpuAlloc>, B: seq<CO.CpuAlloc>, id: int)
    requires CD.AllKept(A, B)
    requires forall i, j :: 0 <= i < j < |A| ==> A[i].jobid != A[j].jobid
    requires forall i, j :: 0 <= i < j < |B| ==> B[i].jobid != B[j].jobid
    ensures CpusOf(B, id) == CpusOf(A, id)
  {
    if k: nat :| k < |B| && B[k].jobid == id {
      var q := SameJobs(A, B, k);
      CpusOfOne(B, k);
      CpusOfOne(A, q);
    } else {
      CpusOfNone(B, id);
      forall i | 0 <= i < |A|
        ensures A[i].jobid != id
      {
        assert A[i] in A;
        var y :| y in B && CD.Kept(A[i], y);
        var j :| 0 <= j < |B| && B[j] == y;
      }
      CpusOfNone(A, id);
    }
  }

  // ---------- the verdict of the allocator ----------

  /** The allocator grants exactly what the scheduler expects it to grant. */
  lemma SameVerdict(s: seq<Job>, y: Job, binding: bool, t: Topology, o: seq<int>, allocs: seq<CO.CpuAlloc>, ok: bool)
    requires Matches(s, allocs) && WellFormed(t) && |o| == t.maxOsCpu && CL.Ledger(t, o, allocs)
    requires binding && !y.noBinding && y.held > 0
    requires ok <==> y.held <= |Free(t, o)|
    ensures BoundTo(s, |AllCpus(t)|, binding, y) == if ok then y.held else 0
  {
    hide Matches, WellFormed, CL.Ledger, Free, AllCpus, SB.Sum;
    FreeIsRest(s, t, o, allocs);
  }

  lemma NotBound(s: seq<Job>, cpus: nat, binding: bool, y: Job)
    requires !binding || y.noBinding || y.held <= 0
    ensures BoundTo(s, cpus, binding, y) == 0
  {
  }

  /** After the verdict both sides agree again. */
  lemma StillMatches(s: seq<Job>, t: seq<Job>, i: nat, ok: bool, allocs: seq<CO.CpuAlloc>, more: seq<CO.CpuAlloc>)
    requires Matches(s, allocs) && i < |s| == |t| && s[i].bound == 0
    requires forall k :: 0 <= k < |s| ==> t[k].id == s[k].id && (k != i ==> t[k].bound == s[k].bound)
    requires ok ==> |more| == |allocs| + 1 && more[..|allocs|] == allocs && more[|allocs|].jobid == s[i].id
    requires ok ==> |more[|allocs|].cpus| == t[i].bound > 0
    requires !ok ==> more == allocs && t[i].bound == 0
    ensures Matches(t, more)
  {
    hide Matches;
    if ok {
      MatchesBound(s, t, i, allocs, more);
    } else {
      MatchesEdited(s, t, allocs);
    }
  }

  lemma PlacedSize(t: Topology, s: CS.Snap, s': CS.Snap, N: nat, a: CO.CpuAlloc, b: CO.CpuAlloc)
    requires CP.WellPlaced(t, s, s', N, a, b)
    ensures |b.cpus| == N && b.jobid == a.jobid
  {
    hide WellFormed, CP.NodePlacement, CP.GroupPlacement, CS.FreeNodes;
  }
}
