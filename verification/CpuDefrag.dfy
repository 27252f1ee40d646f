/** Rebuilding all allocations from scratch: what a defragmentation keeps. */
module CpuDefrag {
  import opened DisjointFamily
  import opened CpuTopology
  import opened CpuOwnership
  import opened CpuSteps
  import opened CpuLedger
  import opened CpuPlacement

  /** What a job may rely on across a defragmentation: as many CPUs as before,
      the same node settings, no more broken groups and no new error; an allocation
      that broke no group is not moved at all. */
  ghost predicate Kept(a: CpuAlloc, b: CpuAlloc) {
    && b.jobid == a.jobid && |b.cpus| == |a.cpus|
    && b.primaryNode == a.primaryNode && b.memNodes == a.memNodes
    && b.quality <= a.quality && (b.error ==> a.error)
    && (a.quality == 0 ==> b == a)
  }

  ghost predicate AllKept(before: seq<CpuAlloc>, after: seq<CpuAlloc>) {
    && |after| == |before|
    && forall a :: a in before ==> exists b :: b in after && Kept(a, b)
  }

  /** The CPUs each allocation held before. */
  ghost function AllocFam(allocs: seq<CpuAlloc>): (fam: seq<set<nat>>)
    ensures |fam| == |allocs|
  {
    seq(|allocs|, i requires 0 <= i < |allocs| => Elements(allocs[i].cpus))
  }

  /** What was allocated before fits on the machine. */
  ghost predicate Fits(t: Topology, A: seq<CpuAlloc>) {
    && Disjoint(AllocFam(A))
    && Union(AllocFam(A), Below(|A|)) <= AllCpus(t)
    && forall i :: 0 <= i < |A| ==> Sound(A[i])
  }

  /** Half-way through: the allocations in `placed` are settled, the others wait,
      and as many CPUs are in use as the settled ones held before. */
  ghost predicate Rebuilding(t: Topology, A: seq<CpuAlloc>, B: seq<CpuAlloc>, s: Snap, placed: set<nat>) {
    && Consistent(t, s)
    && Booked(t, s.owner, B, placed)
    && |B| == |A| && Within(placed, |A|)
    && (forall k :: 0 <= k < |A| ==> Kept(A[k], B[k]) && (k !in placed ==> B[k] == A[k]))
    && |FreeIn(t, s)| + |Union(AllocFam(A), placed)| == |AllCpus(t)|
  }

  lemma OwnersDiffer(t: Topology, o: seq<int>, A: seq<CpuAlloc>, i: nat, j: nat)
    requires Ledger(t, o, A) && i < j < |A|
    ensures Elements(A[i].cpus) !! Elements(A[j].cpus)
  {
    hide Elements, OwnersLive;
    assert Owned(o, A[i].jobid) !! Owned(o, A[j].jobid);
  }

  lemma InUse(t: Topology, o: seq<int>, A: seq<CpuAlloc>, c: nat)
    requires Ledger(t, o, A) && |o| == t.maxOsCpu && WellFormed(t)
    ensures c in Union(AllocFam(A), Below(|A|)) <==> c in AllCpus(t) && c !in Free(t, o)
  {
    hide WellFormed;
    if c in Union(AllocFam(A), Below(|A|)) {
      var i :| i in Below(|A|) && i < |AllocFam(A)| && c in AllocFam(A)[i];
      assert c in Owned(o, A[i].jobid);
    }
    if c in AllCpus(t) && c !in Free(t, o) {
      var g := HomeGroup(t, c);
      var i :| 0 <= i < |A| && A[i].jobid == o[c];
      assert c in Owned(o, A[i].jobid);
      assert c in AllocFam(A)[i];
    }
  }

  /** A valid ledger fits, and what is not free is what is allocated. */
  lemma LedgerFits(t: Topology, o: seq<int>, A: seq<CpuAlloc>)
    requires Ledger(t, o, A) && |o| == t.maxOsCpu && WellFormed(t)
    ensures Fits(t, A)
    ensures |Free(t, o)| + |Union(AllocFam(A), Below(|A|))| == |AllCpus(t)|
  {
    hide WellFormed, Union, Free, Elements, OwnersLive, Owned;
    forall i, j | 0 <= i < j < |A|
      ensures AllocFam(A)[i] !! AllocFam(A)[j]
    {
      OwnersDiffer(t, o, A, i, j);
    }
    var used := Union(AllocFam(A), Below(|A|));
    forall c: nat
      ensures c in used <==> c in AllCpus(t) && c !in Free(t, o)
    {
      InUse(t, o, A, c);
    }
    FreeIsPart(t, o);
    assert used == AllCpus(t) - Free(t, o);
    SubsetSize(Free(t, o), AllCpus(t));
  }

  lemma FreeIsPart(t: Topology, o: seq<int>)
    ensures Free(t, o) <= AllCpus(t)
  {
  }

  /** There is always room for an allocation that waits. */
  lemma RoomFor(t: Topology, A: seq<CpuAlloc>, B: seq<CpuAlloc>, s: Snap, placed: set<nat>, i: nat)
    requires Fits(t, A) && Rebuilding(t, A, B, s, placed) && i < |A| && i !in placed
    ensures |A[i].cpus| <= |FreeIn(t, s)|
    ensures |Union(AllocFam(A), placed + {i})| == |Union(AllocFam(A), placed)| + |A[i].cpus|
  {
    hide Booked, Consistent, Union, Elements;
    UnionAdd(AllocFam(A), placed, i);
    ElementsSize(A[i].cpus);
    UnionMonotone(AllocFam(A), placed + {i}, Below(|A|));
    SubsetSize(Union(AllocFam(A), Below(|A|)), AllCpus(t));
  }

  /** Settling one more allocation on free CPUs. */
  lemma Settle(t: Topology, A: seq<CpuAlloc>, B: seq<CpuAlloc>, s: Snap, s': Snap, placed: set<nat>, i: nat, b: CpuAlloc)
    requires Fits(t, A) && Rebuilding(t, A, B, s, placed) && i < |A| && i !in placed && A[i].jobid > 0
    requires Elements(b.cpus) <= FreeIn(t, s) && s' == Counted(t, Assign(s.owner, Elements(b.cpus), b.jobid))
    requires Kept(A[i], b) && Sound(b)
    ensures Rebuilding(t, A, B[i := b], s', placed + {i})
    ensures Owned(s'.owner, b.jobid) == Elements(b.cpus)
  {
    hide Union, Free, Elements, OwnersLive, Owned, JobsDistinct, Cards;
    Book(t, s.owner, B, placed, i, Elements(b.cpus), b);
    FreeAfterAssign(t, s.owner, Elements(b.cpus), b.jobid);
    SubsetSize(Elements(b.cpus), FreeIn(t, s));
    ElementsSize(b.cpus);
    RoomFor(t, A, B, s, placed, i);
    assert B[i := b][i] == b;
  }

  /** Before anything is moved, the old CPUs of a waiting allocation are free. */
  lemma OldCpusFree(t: Topology, A: seq<CpuAlloc>, s: Snap, placed: set<nat>, i: nat)
    requires Fits(t, A) && Rebuilding(t, A, A, s, placed) && WellFormed(t) && i < |A| && i !in placed
    ensures Elements(A[i].cpus) <= FreeIn(t, s)
    ensures forall k :: 0 <= k < |A[i].cpus| ==>
              A[i].cpus[k] in AllCpus(t) && A[i].cpus[k] < |s.owner| && s.owner[A[i].cpus[k]] == 0
  {
    hide WellFormed, Cards, Counted;
    forall c | c in Elements(A[i].cpus)
      ensures c in AllCpus(t) && c < |s.owner| && s.owner[c] == 0
    {
      OldCpuFree(t, A, s, placed, i, c);
    }
    forall k | 0 <= k < |A[i].cpus|
      ensures A[i].cpus[k] in AllCpus(t) && A[i].cpus[k] < |s.owner| && s.owner[A[i].cpus[k]] == 0
    {
      assert A[i].cpus[k] in Elements(A[i].cpus);
    }
  }

  lemma OwnerIsPlaced(t: Topology, o: seq<int>, A: seq<CpuAlloc>, placed: set<nat>, c: nat) returns (k: nat)
    requires Booked(t, o, A, placed) && c < |o| && o[c] != 0
    ensures k < |A| && k in placed && c in Elements(A[k].cpus)
  {
    k :| 0 <= k < |A| && A[k].jobid == o[c];
    assert c in Owned(o, A[k].jobid);
  }

  lemma OneHolder(fam: seq<set<nat>>, i: nat, k: nat, c: nat)
    requires Disjoint(fam) && i < |fam| && k < |fam| && c in fam[i] && c in fam[k]
    ensures i == k
  {
  }

  lemma HeldByAll(t: Topology, A: seq<CpuAlloc>, i: nat, c: nat)
    requires Fits(t, A) && i < |A| && c in Elements(A[i].cpus)
    ensures c in AllCpus(t)
  {
    assert c in AllocFam(A)[i];
  }

  lemma OldCpuFree(t: Topology, A: seq<CpuAlloc>, s: Snap, placed: set<nat>, i: nat, c: nat)
    requires Fits(t, A) && Rebuilding(t, A, A, s, placed) && WellFormed(t) && i < |A| && i !in placed
    requires c in Elements(A[i].cpus)
    ensures c in AllCpus(t) && c < |s.owner| && s.owner[c] == 0
  {
    hide WellFormed, Cards, Kept, Disjoint, Union, Booked, Elements;
    HeldByAll(t, A, i, c);
    var g := HomeGroup(t, c);
    if s.owner[c] != 0 {
      var k := OwnerIsPlaced(t, s.owner, A, placed, c);
      OneHolder(AllocFam(A), i, k, c);
    }
  }

  /** Settling an allocation on new CPUs; the check afterwards finds nothing. */
  lemma SettleMoved(t: Topology, A: seq<CpuAlloc>, B: seq<CpuAlloc>, s: Snap, s': Snap, placed: set<nat>, i: nat, b: CpuAlloc, c: CpuAlloc)
    requires Fits(t, A) && Rebuilding(t, A, B, s, placed) && i < |A| && i !in placed && A[i].jobid > 0
    requires A[i].quality > 0 && Kept(A[i], b) && !b.error
    requires Elements(b.cpus) <= FreeIn(t, s) && s' == Counted(t, Assign(s.owner, Elements(b.cpus), b.jobid))
    requires |Elements(b.cpus)| == |b.cpus|
    requires c == b.(cpus := c.cpus, error := c.error) && multiset(c.cpus) == multiset(b.cpus)
    requires c.error <==> b.error || !PostCheck(s'.owner, c)
    ensures !c.error && Rebuilding(t, A, B[i := c], s', placed + {i})
  {
    hide Rebuilding, Union, Free, Elements, Owned, Cards, Counted, PostCheck;
    Reordered(b.cpus, c.cpus);
    DistinctIfCounted(c.cpus);
    var d := c.(error := false);
    Settle(t, A, B, s, s', placed, i, d);
    PostCheckHolds(s'.owner, c);
    assert c == d;
  }

  /** The two ways a moved allocation can have been placed. */
  lemma MovedIsKept(t: Topology, s: Snap, s': Snap, N: nat, nodes: set<nat>, a: CpuAlloc, a': CpuAlloc, b: CpuAlloc, b': CpuAlloc)
    requires Allocated(t, s, s', N, nodes, a', b) && |b.cpus| == N == |a.cpus|
    requires a'.jobid == a.jobid && !a'.error && a'.quality == 0 && a.quality > 0
    requires b' == b.(primaryNode := a.primaryNode, memNodes := a.memNodes)
    ensures Kept(a, b') && !b'.error
    ensures Elements(b'.cpus) <= FreeIn(t, s) && s' == Counted(t, Assign(s.owner, Elements(b'.cpus), b'.jobid))
    ensures |Elements(b'.cpus)| == |b'.cpus|
  {
    hide Union, Elements, Counted, Fragments;
  }

  /** Once everything is settled, the ledger is complete again and as many CPUs
      are free as before. */
  lemma AllSettled(t: Topology, o: seq<int>, A: seq<CpuAlloc>, B: seq<CpuAlloc>, s: Snap, placed: set<nat>)
    requires Ledger(t, o, A) && |o| == t.maxOsCpu && WellFormed(t)
    requires Rebuilding(t, A, B, s, placed) && placed == Below(|A|)
    ensures Ledger(t, s.owner, B) && AllKept(A, B) && |FreeIn(t, s)| == |Free(t, o)|
  {
    hide WellFormed, Union, Free, Booked, Consistent;
    LedgerFits(t, o, A);
    forall a | a in A
      ensures exists b :: b in B && Kept(a, b)
    {
      var k :| 0 <= k < |A| && A[k] == a;
      assert B[k] in B && Kept(a, B[k]);
    }
  }

  /** Nothing settled yet: right after the wipe. */
  lemma WipedStart(t: Topology, o: seq<int>, A: seq<CpuAlloc>)
    requires Ledger(t, o, A) && WellFormed(t)
    ensures Rebuilding(t, A, A, InitialSnap(t), {})
  {
    hide WellFormed, Cards;
    ZerosAllFree(t);
    assert Union(AllocFam(A), {}) == {};
  }

  ghost function JobIds(allocs: seq<CpuAlloc>): seq<int> {
    seq(|allocs|, i requires 0 <= i < |allocs| => allocs[i].jobid)
  }

  lemma SameElements<T>(s: seq<T>, r: seq<T>)
    requires multiset(s) == multiset(r)
    ensures |s| == |r| && forall x :: x in s <==> x in r
  {
    forall x
      ensures x in s <==> x in r
    {
      assert x in s <==> x in multiset(s);
      assert x in r <==> x in multiset(r);
    }
    assert |multiset(s)| == |s| && |multiset(r)| == |r|;
  }

  lemma JobsDistinctPermuted(A: seq<CpuAlloc>, B: seq<CpuAlloc>)
    requires JobsDistinct(A) && multiset(A) == multiset(B)
    ensures JobsDistinct(B)
  {
    SameElements(A, B);
    assert Distinct(JobIds(A));
    ElementsSize(JobIds(A));
    forall v: int
      ensures v in JobIds(A) <==> v in JobIds(B)
    {
      if v in JobIds(A) {
        var i :| 0 <= i < |A| && A[i].jobid == v;
        assert A[i] in B;
        var j :| 0 <= j < |B| && B[j] == A[i];
        assert JobIds(B)[j] == v;
      }
      if v in JobIds(B) {
        var j :| 0 <= j < |B| && B[j].jobid == v;
        assert B[j] in A;
        var i :| 0 <= i < |A| && A[i] == B[j];
        assert JobIds(A)[i] == v;
      }
    }
    assert Elements(JobIds(A)) == Elements(JobIds(B));
    DistinctIfCounted(JobIds(B));
    forall j | 0 <= j < |B|
      ensures B[j].jobid > 0
    {
      assert B[j] in A;
    }
    forall i, j | 0 <= i < j < |B|
      ensures B[i].jobid != B[j].jobid
    {
      assert JobIds(B)[i] != JobIds(B)[j];
    }
  }

  /** Sorting the list of live allocations changes nothing else. */
  lemma LedgerPermuted(t: Topology, o: seq<int>, A: seq<CpuAlloc>, B: seq<CpuAlloc>)
    requires Ledger(t, o, A) && multiset(A) == multiset(B)
    ensures Ledger(t, o, B) && AllKept(A, B)
  {
    hide JobsDistinct, Owned, Elements;
    JobsDistinctPermuted(A, B);
    SameElements(A, B);
    forall j | 0 <= j < |B|
      ensures Owned(o, B[j].jobid) == Elements(B[j].cpus) && Sound(B[j])
    {
      assert B[j] in A;
    }
    forall c | 0 <= c < |o| && o[c] != 0
      ensures exists j :: 0 <= j < |B| && B[j].jobid == o[c]
    {
      var i :| 0 <= i < |A| && A[i].jobid == o[c];
      assert A[i] in B;
    }
    forall a | a in A
      ensures exists b :: b in B && Kept(a, b)
    {
      assert a in B && Kept(a, a);
    }
  }

  lemma KeptThrough(A: seq<CpuAlloc>, B: seq<CpuAlloc>, C: seq<CpuAlloc>)
    requires multiset(A) == multiset(B) && AllKept(B, C)
    ensures AllKept(A, C)
  {
    SameElements(A, B);
  }

  lemma InRange(t: Topology, s: Snap, b: CpuAlloc)
    requires Elements(b.cpus) <= FreeIn(t, s)
    ensures forall k :: 0 <= k < |b.cpus| ==> b.cpus[k] < |s.owner|
  {
    forall k | 0 <= k < |b.cpus|
      ensures b.cpus[k] < |s.owner|
    {
      assert b.cpus[k] in Elements(b.cpus);
    }
  }

  /** alloc_defrag_cmp: fewest broken groups first, then the largest. */
  predicate DefragOrder(a: CpuAlloc, b: CpuAlloc) {
    if a.quality != b.quality then a.quality < b.quality else |b.cpus| <= |a.cpus|
  }

  lemma AllKeptSame(A: seq<CpuAlloc>)
    ensures AllKept(A, A)
  {
    forall a | a in A
      ensures exists b :: b in A && Kept(a, b)
    {
      assert Kept(a, a);
    }
  }

  /** After sorting, everything from the first broken allocation on is broken. */
  lemma SomeBroken(before: seq<CpuAlloc>, A: seq<CpuAlloc>, n: nat)
    requires multiset(before) == multiset(A) && n < |A| && A[n].quality != 0
    requires forall i, j :: 0 <= i < j < |A| ==> DefragOrder(A[i], A[j])
    ensures forall k :: n <= k < |A| ==> A[k].quality > 0
    ensures exists a :: a in before && a.quality != 0
  {
    SameElements(before, A);
    assert A[n] in before;
  }

  lemma LiveJobs(t: Topology, o: seq<int>, A: seq<CpuAlloc>)
    requires Ledger(t, o, A)
    ensures forall k :: 0 <= k < |A| ==> A[k].jobid > 0
  {
  }

  lemma StillConsistent(t: Topology, A: seq<CpuAlloc>, B: seq<CpuAlloc>, s: Snap, placed: set<nat>)
    requires Rebuilding(t, A, B, s, placed)
    ensures Consistent(t, s)
  {
  }
}
