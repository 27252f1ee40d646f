/** The list of live allocations against the owner map. */
module CpuLedger {
  import opened DisjointFamily
  import opened CpuTopology
  import opened CpuOwnership

  ghost function Owned(o: seq<int>, v: int): set<nat> {
    set c | 0 <= c < |o| && o[c] == v
  }

  ghost predicate JobsDistinct(allocs: seq<CpuAlloc>) {
    && (forall i :: 0 <= i < |allocs| ==> allocs[i].jobid > 0)
    && forall i, j :: 0 <= i < j < |allocs| ==> allocs[i].jobid != allocs[j].jobid
  }

  ghost predicate Sound(a: CpuAlloc) {
    Distinct(a.cpus) && a.quality <= 1 && (a.quality > 0 ==> a.cpus != [])
  }

  /** Every owner is the job of some allocation, and owns a CPU of the machine. */
  ghost predicate OwnersLive(t: Topology, o: seq<int>, allocs: seq<CpuAlloc>) {
    forall c :: 0 <= c < |o| && o[c] != 0 ==>
      c in AllCpus(t) && exists i :: 0 <= i < |allocs| && allocs[i].jobid == o[c]
  }

  /** The allocations in `placed` own exactly the CPUs they list; the others,
      waiting to be placed, own nothing. */
  ghost predicate Booked(t: Topology, o: seq<int>, allocs: seq<CpuAlloc>, placed: set<nat>) {
    && JobsDistinct(allocs)
    && (forall i :: 0 <= i < |allocs| ==> Sound(allocs[i]))
    && (forall i :: 0 <= i < |allocs| ==>
          Owned(o, allocs[i].jobid) == if i in placed then Elements(allocs[i].cpus) else {})
    && OwnersLive(t, o, allocs)
  }

  /** The owned CPUs are the disjoint union of the live allocations. */
  ghost predicate Ledger(t: Topology, o: seq<int>, allocs: seq<CpuAlloc>) {
    Booked(t, o, allocs, Below(|allocs|))
  }

  lemma OwnedAfterAssign(o: seq<int>, T: set<nat>, v: int, w: int)
    requires Within(T, |o|)
    ensures Owned(Assign(o, T, v), w) == if v == w then Owned(o, w) + T else Owned(o, w) - T
  {
  }

  lemma FreeWithin(t: Topology, o: seq<int>, T: set<nat>)
    requires T <= Free(t, o)
    ensures Within(T, |o|) && T <= Owned(o, 0)
  {
  }

  /** Placing one more allocation on free CPUs. */
  lemma Book(t: Topology, o: seq<int>, allocs: seq<CpuAlloc>, placed: set<nat>, i: nat, T: set<nat>, b: CpuAlloc)
    requires Booked(t, o, allocs, placed) && i < |allocs| && i !in placed
    requires T <= Free(t, o)
    requires b.jobid == allocs[i].jobid && Elements(b.cpus) == T && Sound(b)
    ensures Booked(t, Assign(o, T, b.jobid), allocs[i := b], placed + {i})
  {
    hide Elements, Free;
    var o', allocs' := Assign(o, T, b.jobid), allocs[i := b];
    FreeWithin(t, o, T);
    forall k | 0 <= k < |allocs'|
      ensures Owned(o', allocs'[k].jobid) == if k in placed + {i} then Elements(allocs'[k].cpus) else {}
    {
      OwnedAfterAssign(o, T, b.jobid, allocs'[k].jobid);
      if k != i {
        assert allocs[k].jobid > 0;
        assert Owned(o, allocs[k].jobid) !! Owned(o, 0);
      }
    }
    BookedOwners(t, o, allocs, i, T, b);
  }

  lemma BookedOwners(t: Topology, o: seq<int>, allocs: seq<CpuAlloc>, i: nat, T: set<nat>, b: CpuAlloc)
    requires OwnersLive(t, o, allocs) && i < |allocs| && T <= Free(t, o) && b.jobid == allocs[i].jobid
    ensures OwnersLive(t, Assign(o, T, b.jobid), allocs[i := b])
  {
    var o', allocs' := Assign(o, T, b.jobid), allocs[i := b];
    forall c | 0 <= c < |o'| && o'[c] != 0
      ensures c in AllCpus(t) && exists k :: 0 <= k < |allocs'| && allocs'[k].jobid == o'[c]
    {
      if c in T {
        assert allocs'[i].jobid == o'[c];
      } else {
        var k :| 0 <= k < |allocs| && allocs[k].jobid == o[c];
        assert allocs'[k].jobid == o'[c];
      }
    }
  }

  /** An allocation without CPUs may be regarded as not placed yet. */
  lemma Unplace(t: Topology, o: seq<int>, allocs: seq<CpuAlloc>, placed: set<nat>, i: nat)
    requires Booked(t, o, allocs, placed) && i < |allocs| && allocs[i].cpus == []
    ensures Booked(t, o, allocs, placed - {i})
  {
  }

  ghost function Without<T>(s: seq<T>, i: nat): seq<T>
    requires i < |s|
  {
    s[..i] + s[i + 1..]
  }

  /** Freeing an allocation leaves the others as they are. */
  lemma Unbook(t: Topology, o: seq<int>, allocs: seq<CpuAlloc>, i: nat)
    requires Ledger(t, o, allocs) && i < |allocs|
    ensures Ledger(t, Assign(o, Elements(allocs[i].cpus), 0), Without(allocs, i))
  {
    hide Elements, OwnersLive;
    var T, rest := Elements(allocs[i].cpus), Without(allocs, i);
    var o' := Assign(o, T, 0);
    assert T == Owned(o, allocs[i].jobid);
    forall k | 0 <= k < |rest|
      ensures Owned(o', rest[k].jobid) == Elements(rest[k].cpus) && Sound(rest[k])
    {
      var m := if k < i then k else k + 1;
      assert rest[k] == allocs[m] && allocs[m].jobid != allocs[i].jobid && allocs[m].jobid > 0;
      OwnedAfterAssign(o, T, 0, rest[k].jobid);
    }
    UnbookOwners(t, o, allocs, i);
  }

  lemma UnbookOwners(t: Topology, o: seq<int>, allocs: seq<CpuAlloc>, i: nat)
    requires OwnersLive(t, o, allocs) && i < |allocs|
    requires Owned(o, allocs[i].jobid) == Elements(allocs[i].cpus)
    ensures OwnersLive(t, Assign(o, Elements(allocs[i].cpus), 0), Without(allocs, i))
  {
    hide Elements;
    var o', rest := Assign(o, Elements(allocs[i].cpus), 0), Without(allocs, i);
    forall c | 0 <= c < |o'| && o'[c] != 0
      ensures c in AllCpus(t) && exists k :: 0 <= k < |rest| && rest[k].jobid == o'[c]
    {
      var m :| 0 <= m < |allocs| && allocs[m].jobid == o[c];
      assert c !in Owned(o, allocs[i].jobid);
      var k := if m < i then m else m - 1;
      assert rest[k].jobid == o'[c];
    }
  }

  /** A new record at the end of the list, owning nothing yet. */
  lemma BookNew(t: Topology, o: seq<int>, allocs: seq<CpuAlloc>, a: CpuAlloc)
    requires Ledger(t, o, allocs) && a.cpus == [] && a.quality == 0
    requires a.jobid > 0 && forall i :: 0 <= i < |allocs| ==> allocs[i].jobid != a.jobid
    ensures Ledger(t, o, allocs + [a])
  {
    var allocs' := allocs + [a];
    assert Owned(o, a.jobid) == {} by {
      forall c | 0 <= c < |o|
        ensures o[c] != a.jobid
      {
      }
    }
    forall c | 0 <= c < |o| && o[c] != 0
      ensures exists i :: 0 <= i < |allocs'| && allocs'[i].jobid == o[c]
    {
      var i :| 0 <= i < |allocs| && allocs[i].jobid == o[c];
      assert allocs'[i].jobid == o[c];
    }
  }

  /** With nothing allocated the machine is as it was at the start. */
  lemma EmptyLedger(t: Topology, o: seq<int>)
    requires Ledger(t, o, [])
    ensures o == seq(|o|, i => 0)
  {
  }

  /** What the check after an allocation looks for: the job owns the CPUs it
      lists, and no others. */
  ghost predicate PostCheck(o: seq<int>, a: CpuAlloc) {
    && (forall k :: 0 <= k < |a.cpus| ==> a.cpus[k] < |o| && o[a.cpus[k]] == a.jobid)
    && |Owned(o, a.jobid)| == |a.cpus|
  }

  lemma PostCheckHolds(o: seq<int>, a: CpuAlloc)
    requires Owned(o, a.jobid) == Elements(a.cpus) && |Elements(a.cpus)| == |a.cpus|
    ensures PostCheck(o, a)
  {
    forall k | 0 <= k < |a.cpus|
      ensures a.cpus[k] < |o| && o[a.cpus[k]] == a.jobid
    {
      assert a.cpus[k] in Elements(a.cpus);
    }
  }

  /** Reordering a list of CPUs changes nothing that matters. */
  lemma Reordered(s: seq<nat>, r: seq<nat>)
    requires multiset(s) == multiset(r)
    ensures Elements(s) == Elements(r) && |s| == |r|
  {
    forall x: nat
      ensures x in s <==> x in r
    {
      assert x in s <==> x in multiset(s);
      assert x in r <==> x in multiset(r);
    }
    assert |multiset(s)| == |s| && |multiset(r)| == |r|;
  }

  /** Facts about one live allocation. */
  lemma LiveAlloc(t: Topology, o: seq<int>, allocs: seq<CpuAlloc>, i: nat)
    requires Ledger(t, o, allocs) && i < |allocs|
    ensures allocs[i].jobid > 0 && Sound(allocs[i])
    ensures Elements(allocs[i].cpus) == Owned(o, allocs[i].jobid)
    ensures forall k :: 0 <= k < |allocs[i].cpus| ==>
              && allocs[i].cpus[k] < |o| && o[allocs[i].cpus[k]] == allocs[i].jobid
              && allocs[i].cpus[k] in AllCpus(t)
  {
    forall k | 0 <= k < |allocs[i].cpus|
      ensures allocs[i].cpus[k] < |o| && o[allocs[i].cpus[k]] == allocs[i].jobid && allocs[i].cpus[k] in AllCpus(t)
    {
      assert allocs[i].cpus[k] in Elements(allocs[i].cpus);
    }
  }

  /** A job that joins the list with CPUs that were free. */
  lemma BookClaim(t: Topology, o: seq<int>, allocs: seq<CpuAlloc>, b: CpuAlloc)
    requires Ledger(t, o, allocs) && Sound(b) && Elements(b.cpus) <= Free(t, o)
    requires b.jobid > 0 && forall i :: 0 <= i < |allocs| ==> allocs[i].jobid != b.jobid
    ensures Ledger(t, Assign(o, Elements(b.cpus), b.jobid), allocs + [b])
  {
    hide Elements, OwnersLive, Free, JobsDistinct;
    var a := NewAlloc(b.jobid);
    var n := |allocs|;
    BookNew(t, o, allocs, a);
    Unplace(t, o, allocs + [a], Below(n + 1), n);
    Book(t, o, allocs + [a], Below(n + 1) - {n}, n, Elements(b.cpus), b);
    assert (allocs + [a])[n := b] == allocs + [b];
    assert Below(n + 1) - {n} + {n} == Below(n + 1);
  }
}
