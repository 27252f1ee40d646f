/** Restart: every live allocation was written to its cpuset; a new server reads
    the cpusets back and claims the CPUs. */
module CpuRestart {
  import opened DisjointFamily
  import opened CpuTopology
  import opened CpuOwnership
  import opened CpuSteps
  import opened CpuLedger
  import opened CpuDefrag
  import opened CpuBind
  import opened CpuPlacement
  import opened Cpuset
  import opened Wrappers

  /** The part of the old owner map that the first i allocations account for. */
  ghost predicate Recovered(o: seq<int>, saved: seq<CpuAlloc>, i: nat, owner: seq<int>) {
    && |owner| == |o|
    && forall c :: 0 <= c < |o| ==> owner[c] == if c in Union(AllocFam(saved), Below(i)) then o[c] else 0
  }

  lemma NextClaimable(t: Topology, o: seq<int>, saved: seq<CpuAlloc>, i: nat, owner: seq<int>)
    requires WellFormed(t) && Ledger(t, o, saved) && |o| == t.maxOsCpu && i < |saved|
    requires Recovered(o, saved, i, owner)
    ensures Elements(saved[i].cpus) <= Free(t, owner)
    ensures Recovered(o, saved, i + 1, Assign(owner, Elements(saved[i].cpus), saved[i].jobid))
  {
    hide WellFormed, Ledger, Union, Elements;
    LedgerFits(t, o, saved);
    LiveAlloc(t, o, saved, i);
    UnionAdd(AllocFam(saved), Below(i), i);
    assert Below(i + 1) == Below(i) + {i};
    forall c | c in Elements(saved[i].cpus)
      ensures c in Free(t, owner)
    {
      HeldByAll(t, saved, i, c);
    }
  }

  lemma AllRecovered(t: Topology, o: seq<int>, saved: seq<CpuAlloc>, owner: seq<int>)
    requires WellFormed(t) && Ledger(t, o, saved) && |o| == t.maxOsCpu
    requires Recovered(o, saved, |saved|, owner)
    ensures owner == o
  {
    hide WellFormed, Union;
    forall c | 0 <= c < |o|
      ensures owner[c] == o[c]
    {
      InUse(t, o, saved, c);
    }
  }

  lemma NothingRecovered(o: seq<int>, saved: seq<CpuAlloc>)
    ensures Recovered(o, saved, 0, Zeros(|o|))
  {
  }

  /** Only jobs among the first i have been claimed. */
  ghost predicate FromSaved(saved: seq<CpuAlloc>, i: nat, allocs: seq<CpuAlloc>)
    requires i <= |saved|
  {
    forall k :: 0 <= k < |allocs| ==> Among(saved, i, allocs[k].jobid)
  }

  ghost predicate Among(saved: seq<CpuAlloc>, i: nat, jobid: int)
    requires i <= |saved|
  {
    exists m :: 0 <= m < i && saved[m].jobid == jobid
  }

  lemma JobStillUnknown(t: Topology, o: seq<int>, saved: seq<CpuAlloc>, i: nat, allocs: seq<CpuAlloc>)
    requires Ledger(t, o, saved) && i < |saved|
    requires FromSaved(saved, i, allocs)
    ensures saved[i].jobid > 0 && forall k :: 0 <= k < |allocs| ==> allocs[k].jobid != saved[i].jobid
  {
  }

  /** What the server wrote for one allocation is read back unchanged. */
  method ReadBack(cpus: seq<nat>, limit: nat) returns (r: Option<seq<nat>>)
    requires |cpus| <= limit <= 0x8000_0000 && forall k :: 0 <= k < |cpus| ==> cpus[k] < limit
    ensures r == if cpus == [] then None else Some(cpus)
  {
    hide RenderAll, Parsed, ExpandAll;
    var text := FormatCpus(cpus);
    RenderKnown(Singles(cpus));
    r := ParseCpuset(text, limit, limit);
    WrittenText(cpus);
    if cpus != [] {
      ParsedList(Singles(cpus), [], limit, limit);
      ExpandSingles(cpus);
    }
  }

  lemma WrittenText(cpus: seq<nat>)
    ensures RenderAll(Singles(cpus)) == "" <==> cpus == []
    ensures [] + ExpandAll(Singles(cpus)) == ExpandAll(Singles(cpus))
  {
  }

  /** Claiming back everything, in whatever order the directories are listed,
      rebuilds the owner map and the counts. The node settings come from files
      that are not modelled. */
  method Rebuild(t: Topology, saved: seq<CpuAlloc>, mems: seq<set<nat>>, primaries: seq<int>, ghost o: seq<int>)
    returns (a: Allocator)
    requires WellFormed(t) && CoresStated(t) && t.maxOsCpu <= 0x8000_0000
    requires |o| == t.maxOsCpu && Ledger(t, o, saved) && |mems| == |primaries| == |saved|
    ensures fresh(a) && a.Valid() && a.topo == t
    ensures a.owner[..] == o && a.S() == Counted(t, o)
  {
    hide WellFormed, CoresStated, Ledger, Cards, Recovered, FromSaved;
    a := new Allocator(t);
    NothingRecovered(o, saved);
    NoneClaimed(saved);
    for i := 0 to |saved|
      invariant a.Valid() && a.topo == t && fresh(a.owner) && fresh(a.groupFree) && fresh(a.nodeFree)
      invariant Recovered(o, saved, i, a.owner[..])
      invariant FromSaved(saved, i, a.allocs)
    {
      LiveAlloc(t, o, saved, i);
      CpusFit(t, o, saved, i);
      NextClaimable(t, o, saved, i, a.owner[..]);
      JobStillUnknown(t, o, saved, i, a.allocs);
      var r := ReadBack(saved[i].cpus, t.maxOsCpu);
      ghost var before := a.allocs;
      ghost var owner := a.owner[..];
      if r.Some? && |r.value| > 0 {
        var _ := a.Claim(saved[i].jobid, r.value, mems[i], primaries[i]);
        StillSaved(saved, i, before, a.allocs);
      } else {
        NothingAssigned(owner, saved[i]);
        StillSavedEmpty(saved, i, before);
      }
    }
    AllRecovered(t, o, saved, a.owner[..]);
  }

  lemma NothingAssigned(owner: seq<int>, a: CpuAlloc)
    ensures a.cpus == [] ==> Assign(owner, Elements(a.cpus), a.jobid) == owner
  {
    assert a.cpus == [] ==> Elements(a.cpus) == {};
    assert Assign(owner, {}, a.jobid) == owner;
  }

  lemma CpusFit(t: Topology, o: seq<int>, saved: seq<CpuAlloc>, i: nat)
    requires Ledger(t, o, saved) && i < |saved| && |o| == t.maxOsCpu
    ensures |saved[i].cpus| <= t.maxOsCpu
  {
    hide Ledger;
    LiveAlloc(t, o, saved, i);
    ElementsSize(saved[i].cpus);
    OwnedBound(o, saved[i].jobid);
  }

  lemma {:induction false} OwnedBound(o: seq<int>, v: int)
    ensures |Owned(o, v)| <= |o|
  {
    if o != [] {
      var r := o[..|o| - 1];
      OwnedBound(r, v);
      assert Owned(o, v) <= Owned(r, v) + {|o| - 1};
      SubsetSize(Owned(o, v), Owned(r, v) + {|o| - 1});
    }
  }

  lemma StillSaved(saved: seq<CpuAlloc>, i: nat, before: seq<CpuAlloc>, after: seq<CpuAlloc>)
    requires i < |saved| && |after| == |before| + 1 && after[..|before|] == before
    requires after[|before|].jobid == saved[i].jobid
    requires FromSaved(saved, i, before)
    ensures FromSaved(saved, i + 1, after)
  {
    forall k | 0 <= k < |after|
      ensures Among(saved, i + 1, after[k].jobid)
    {
      if k < |before| {
        assert after[k] == before[k] && Among(saved, i, before[k].jobid);
      }
    }
  }

  lemma NoneClaimed(saved: seq<CpuAlloc>)
    ensures FromSaved(saved, 0, [])
  {
  }

  lemma StillSavedEmpty(saved: seq<CpuAlloc>, i: nat, allocs: seq<CpuAlloc>)
    requires i < |saved| && FromSaved(saved, i, allocs)
    ensures FromSaved(saved, i + 1, allocs)
  {
    forall k | 0 <= k < |allocs|
      ensures Among(saved, i + 1, allocs[k].jobid)
    {
      assert Among(saved, i, allocs[k].jobid);
    }
  }
}
