/** The CPU-binding allocator of cpu_bind.c. */
module CpuBind {
  import opened DisjointFamily
  import opened CpuTopology
  import opened GreedyGroups
  import opened CpuOwnership
  import opened CpuSteps
  import opened NodeChoice
  import opened CpuPlacement
  import opened CpuLedger
  import opened CpuDefrag
  import opened CpuRebuild
  import opened Qsort

  class Allocator {
    const topo: Topology
    const owner: array<int>          // cpu_owner: 0 = free, > 0 = job id
    const groupFree: array<int>      // free_count of each group
    const nodeFree: array<int>       // free_count of each node
    const cpuToGroup: array<int>     // -1 where the topology has no such CPU
    var allocs: seq<CpuAlloc>        // cpu_allocs
    var disabled: bool               // cpu_bind_disabled
    var defragDisabled: bool         // cpu_bind_defrag_disabled

    ghost predicate Shape() {
      && WellFormed(topo) && CoresStated(topo)
      && owner != groupFree && owner != nodeFree && groupFree != nodeFree
      && cpuToGroup != owner && cpuToGroup != groupFree && cpuToGroup != nodeFree
    }

    /** cpu_to_group is the reverse index of the topology. */
    ghost predicate Indexed()
      reads cpuToGroup
    {
      && cpuToGroup.Length == topo.maxOsCpu
      && (forall c :: 0 <= c < cpuToGroup.Length && c in AllCpus(topo) ==>
            0 <= cpuToGroup[c] < |topo.groups| && c in topo.groups[cpuToGroup[c]].cpus)
      && (forall c :: 0 <= c < cpuToGroup.Length && c !in AllCpus(topo) ==> cpuToGroup[c] == -1)
    }

    /** What every operation keeps: the counts agree with the owner map, and the
        owned CPUs are the disjoint union of the live allocations. */
    ghost predicate Valid()
      reads this, owner, groupFree, nodeFree, cpuToGroup
    {
      && Shape() && Indexed()
      && Consistent(topo, S())
      && Ledger(topo, owner[..], allocs)
    }

    ghost function S(): Snap
      reads owner, groupFree, nodeFree
    {
      Snap(owner[..], groupFree[..], nodeFree[..])
    }

    /** The scan of one group: give the first free CPUs, at most N, to the job. */
    method Grab(cpus: seq<nat>, N: nat, a: CpuAlloc) returns (taken: nat, b: CpuAlloc, ghost T: set<nat>)
      requires a.jobid != 0
      requires forall k :: 0 <= k < |cpus| ==> cpus[k] < owner.Length && cpus[k] in AllCpus(topo)
      modifies owner
      ensures T <= Elements(cpus) * Free(topo, old(owner[..])) && taken == |T| <= N
      ensures owner[..] == Assign(old(owner[..]), T, a.jobid)
      ensures Grew(a, b, T) && b.error == a.error && b.quality == a.quality
      ensures taken < N ==> forall k :: 0 <= k < |cpus| ==> owner[cpus[k]] != 0
    {
      hide Free, Elements;
      taken, b, T := 0, a, {};
      var i := 0;
      ghost var o := owner[..];
      while i < |cpus| && taken < N
        invariant 0 <= i <= |cpus| && taken == |T| <= N
        invariant owner[..] == Assign(o, T, a.jobid)
        invariant Grew(a, b, T) && b.error == a.error && b.quality == a.quality
        invariant T <= Elements(cpus) * Free(topo, o)
        invariant forall k :: 0 <= k < i ==> owner[cpus[k]] != 0
      {
        var cpu := cpus[i];
        if owner[cpu] == 0 {
          GrabOne(topo, o, T, a.jobid, cpus, i, a, b);
          b := b.(cpus := b.cpus + [cpu]);
          owner[cpu] := a.jobid;
          T := T + {cpu};
          taken := taken + 1;
        }
        i := i + 1;
      }
    }

    method TakeFromGroup(g: nat, N: nat, a: CpuAlloc) returns (taken: nat, b: CpuAlloc, ghost T: set<nat>)
      requires Shape() && Consistent(topo, S()) && g < |topo.groups| && a.jobid > 0
      modifies owner, groupFree, nodeFree
      ensures TookFrom(topo, old(S()), S(), g, N, a, b, T) && taken == |T|
    {
      hide WellFormed, Elements, Free, GroupSets, NodeSets, Cards, Cut, Assign;
      ghost var s := S();
      GroupCpusKnown(topo, g);
      taken, b, T := Grab(topo.groups[g].cpus, N, a);
      ghost var o' := owner[..];
      CountedAfterTake(topo, s, g, T, a.jobid);
      var n := topo.groups[g].node;
      groupFree[g] := groupFree[g] - taken;
      nodeFree[n] := nodeFree[n] - taken;
      assert S() == Counted(topo, o');
      b := b.(quality := b.quality + if groupFree[g] > 0 then 1 else 0);
      ScanTookFrom(topo, s, S(), g, N, a, b, T);
    }

    /** Best fit: the candidate with enough free cores and the smallest excess, or -1. */
    method BestFit(remaining: int, ids: seq<nat>) returns (best: int)
      requires forall i :: 0 <= i < |ids| ==> ids[i] < groupFree.Length
      ensures -1 <= best < |ids|
      ensures best == -1 ==> forall i :: 0 <= i < |ids| ==> groupFree[ids[i]] < remaining
      ensures best >= 0 ==>
        && groupFree[ids[best]] >= remaining
        && forall i :: 0 <= i < |ids| && groupFree[ids[i]] >= remaining ==> groupFree[ids[best]] <= groupFree[ids[i]]
    {
      best := -1;
      var bestExcess := 0;
      for i := 0 to |ids|
        invariant -1 <= best < i
        invariant best == -1 ==> forall k :: 0 <= k < i ==> groupFree[ids[k]] < remaining
        invariant best >= 0 ==> bestExcess == groupFree[ids[best]] - remaining >= 0
        invariant best >= 0 ==>
          forall k :: 0 <= k < i && groupFree[ids[k]] >= remaining ==> groupFree[ids[best]] <= groupFree[ids[k]]
      {
        var free := groupFree[ids[i]];
        if free >= remaining {
          var excess := free - remaining;
          if best == -1 || excess < bestExcess {
            bestExcess := excess;
            best := i;
          }
        }
      }
    }

    /** The candidate with the most free cores, or -1 when none has any. */
    method Largest(ids: seq<nat>) returns (best: int)
      requires forall i :: 0 <= i < |ids| ==> ids[i] < groupFree.Length
      ensures -1 <= best < |ids|
      ensures best == -1 ==> forall i :: 0 <= i < |ids| ==> groupFree[ids[i]] <= 0
      ensures best >= 0 ==>
        groupFree[ids[best]] > 0 && forall i :: 0 <= i < |ids| ==> groupFree[ids[i]] <= groupFree[ids[best]]
    {
      best := -1;
      var maxFree := -1;
      for i := 0 to |ids|
        invariant -1 <= best < i
        invariant best == -1 ==> maxFree == -1 && forall k :: 0 <= k < i ==> groupFree[ids[k]] <= 0
        invariant best >= 0 ==> maxFree == groupFree[ids[best]] > 0
        invariant best >= 0 ==> forall k :: 0 <= k < i ==> groupFree[ids[k]] <= maxFree
      {
        var free := groupFree[ids[i]];
        if free > 0 && free > maxFree {
          maxFree := free;
          best := i;
        }
      }
    }
  
    /** One round of group selection; -1 when no candidate has a free core. */
    method PickGroup(remaining: nat, ids: seq<nat>) returns (g: int)
      requires forall i :: 0 <= i < |ids| ==> ids[i] < groupFree.Length
      ensures g < 0 ==> forall h :: h in ids ==> groupFree[h] <= 0
      ensures g >= 0 ==> Picked(groupFree[..], remaining, Elements(ids), g)
    {
      var best := BestFit(remaining, ids);
      if best < 0 {
        best := Largest(ids);
      }
      g := if best < 0 then -1 else ids[best];
    }

    method AllocFromGroups(N: nat, ids: seq<nat>, a: CpuAlloc) returns (b: CpuAlloc, ghost T: set<nat>)
      requires Shape() && Consistent(topo, S()) && a.jobid > 0
      requires forall i :: 0 <= i < |ids| ==> ids[i] < |topo.groups|
      modifies owner, groupFree, nodeFree
      ensures GroupsAllocated(topo, old(S()), S(), N, Elements(ids), a, b, T)
    {
      hide WellFormed, Searching, Free, GroupSets, NodeSets, Cards, Cut, Assign, Taken, TookFrom, Selected;
      var remaining := N;
      b, T := a, {};
      ghost var s, I := S(), Elements(ids);
      ElementsWithin(ids, |topo.groups|);
      SearchStarts(topo, s, N, I, a);
      while remaining > 0
        invariant Consistent(topo, S()) && b.jobid > 0
        invariant exists D: set<nat> :: Progress(topo, s, S(), N, remaining, I, a, b, T, D)
      {
        ghost var D: set<nat> :| Progress(topo, s, S(), N, remaining, I, a, b, T, D);
        var g := PickGroup(remaining, ids);
        if g < 0 {
          Shortfall(topo, s, S(), N, remaining, I, a, b, T, D);
          b := b.(error := true);
          break;
        }
        ghost var s1, b1, U := S(), b, {};
        var got;
        got, b, U := TakeFromGroup(g, remaining, b);
        TookFromKeeps(topo, s1, S(), g, remaining, b1, b, U);
        T := Advance(topo, s, s1, S(), N, remaining, remaining - got, I, a, b1, b, T, D, U, g);
        remaining := remaining - got;
      }
    }
  
    method RankNodes() returns (order: seq<nat>)
      requires Shape() && Consistent(topo, S())
      ensures Ranked(FreeNodes(topo, S()), order)
    {
      hide WellFormed, Ranked;
      var counts := nodeFree[..];
      var ids: seq<nat> := seq(|topo.nodes|, i requires 0 <= i => i);
      order := Sort(ids, (x: nat, y: nat) => Key(counts, x) >= Key(counts, y));
      NodeCounts(topo, S());
      SortedIsRanked(FreeNodes(topo, S()), counts, ids, order);
    }

    /** Pick the primary node of a cross-node allocation. */
    method PrimaryNode(N: nat, order: seq<nat>, jobid: int) returns (p: int, ghost ties: nat)
      requires Shape() && Consistent(topo, S()) && |order| > 0
      requires Ranked(FreeNodes(topo, S()), order)
      ensures N > topo.maxCoresPerGroup ==> p == -1
      ensures N <= topo.maxCoresPerGroup ==>
        Tied(FreeNodes(topo, S()), order, ties) && p == order[jobid % ties]
    {
      hide WellFormed, Cards, Cut;
      NodeCounts(topo, S());
      p, ties := -1, 0;
      if N <= topo.maxCoresPerGroup {
        var nt := 0;
        var bestFree := nodeFree[order[0]];
        while nt < |order| && nodeFree[order[nt]] == bestFree
          invariant 0 <= nt <= |order|
          invariant forall i :: 0 <= i < nt ==> nodeFree[order[i]] == bestFree
        {
          nt := nt + 1;
        }
        p := if nt > 1 then order[jobid % nt] else order[0];
        ties := nt;
      }
    }
  
    /** Take nodes in order, with all their groups, until they hold N free cores. */
    method CollectNodes(N: nat, order: seq<nat>) returns (gids: seq<nat>, nodes: set<nat>, ghost k: nat)
      requires Shape() && Consistent(topo, S()) && Ranked(FreeNodes(topo, S()), order)
      requires 0 < N <= |FreeIn(topo, S())|
      ensures JustEnough(FreeNodes(topo, S()), order, k, N) && nodes == Elements(order[..k])
      ensures Elements(gids) == GroupsOf(topo, nodes)
      ensures forall i :: 0 <= i < |gids| ==> gids[i] < |topo.groups|
    {
      hide WellFormed, Cards, Cut, Union, GroupsOf;
      ghost var fam := FreeNodes(topo, S());
      NodeCounts(topo, S());
      NodesAreDisjoint(topo, S());
      gids, nodes := [], {};
      var total, i := 0, 0;
      NoNodes(topo, fam, order);
      while i < |order| && total < N
        invariant 0 <= i <= |order|
        invariant total == |Union(fam, Elements(order[..i]))|
        invariant i > 0 ==> |Union(fam, Elements(order[..i - 1]))| < N
        invariant nodes == Elements(order[..i]) && Elements(gids) == GroupsOf(topo, nodes)
        invariant forall j :: 0 <= j < |gids| ==> gids[j] < |topo.groups|
      {
        PrefixGrows(fam, order, i);
        MoreGroups(topo, order, i, gids);
        var n := order[i];
        gids := gids + topo.nodes[n];
        total := total + nodeFree[n];
        nodes := nodes + {n};
        i := i + 1;
      }
      WholeRanking(topo, S(), order);
      PrefixJustEnough(fam, order, i, N);
      k := i;
    }
  
    method CrossNodeMerge(N: nat, a: CpuAlloc) returns (b: CpuAlloc)
      requires Shape() && Consistent(topo, S()) && a.jobid > 0 && a.cpus == []
      requires 0 < N <= |FreeIn(topo, S())|
      modifies owner, groupFree, nodeFree
      ensures Allocated(topo, old(S()), S(), N, b.memNodes, a.(primaryNode := b.primaryNode, memNodes := b.memNodes), b)
      ensures NodePlacement(topo, old(S()), b.memNodes, Elements(b.cpus), N) && |b.cpus| == N
      ensures CrossPrimary(FreeNodes(topo, old(S())), N, N > topo.maxCoresPerGroup, a.jobid, b.primaryNode, b.memNodes)
    {
      hide WellFormed, Union, Ranked, Cards, Cut, GroupPlacement, NodePlacement, GroupsAllocated, Tied;
      ghost var s := S();
      var order := RankNodes();
      var gids, nodes;
      ghost var k;
      gids, nodes, k := CollectNodes(N, order);
      var p;
      ghost var ties;
      p, ties := PrimaryNode(N, order, a.jobid);
      var a' := a.(primaryNode := p, memNodes := nodes);
      ghost var T;
      b, T := AllocFromGroups(N, gids, a');
      EnoughIsAllocated(topo, s, S(), N, nodes, Elements(gids), a', b, T);
      ChosenNodesAreOptimal(topo, s, order, k, Elements(b.cpus), N);
      MergePrimary(topo, s, order, ties, k, N, a.jobid, p);
    }
  
    /** cpu_bind_post_alloc: sort the CPU list and cross-check it with the owner map. */
    method PostAlloc(a: CpuAlloc) returns (b: CpuAlloc)
      requires forall k :: 0 <= k < |a.cpus| ==> a.cpus[k] < owner.Length
      ensures b == a.(cpus := b.cpus, error := b.error)
      ensures multiset(b.cpus) == multiset(a.cpus) && forall i, j :: 0 <= i < j < |b.cpus| ==> b.cpus[i] <= b.cpus[j]
      ensures b.error <==> a.error || !PostCheck(owner[..], b)
    {
      var cpus := Sort(a.cpus, (x: nat, y: nat) => x <= y);
      Reordered(a.cpus, cpus);
      assert forall k :: 0 <= k < |cpus| ==> cpus[k] < owner.Length by {
        forall k | 0 <= k < |cpus|
          ensures cpus[k] < owner.Length
        {
          assert cpus[k] in Elements(a.cpus);
        }
      }
      var error := a.error;
      for i := 0 to |cpus|
        invariant error <==> a.error || exists k :: 0 <= k < i && owner[cpus[k]] != a.jobid
      {
        if owner[cpus[i]] != a.jobid {
          error := true;
        }
      }
      var ownerCount := CountOwned(a.jobid);
      if ownerCount != |cpus| {
        error := true;
      }
      b := a.(cpus := cpus, error := error);
    }

    method CountOwned(jobid: int) returns (n: nat)
      ensures n == |Owned(owner[..], jobid)|
    {
      n := 0;
      ghost var seen: set<nat> := {};
      for cpu := 0 to owner.Length
        invariant n == |seen|
        invariant forall c :: c in seen <==> 0 <= c < cpu && owner[c] == jobid
      {
        if owner[cpu] == jobid {
          n := n + 1;
          seen := seen + {cpu};
        }
      }
      assert seen == Owned(owner[..], jobid);
    }
  
    method TotalFree() returns (total: int)
      requires Shape() && Consistent(topo, S())
      ensures total == |FreeIn(topo, S())|
    {
      hide WellFormed, Union, Cards, Cut;
      NodeCounts(topo, S());
      NodeSumAll(topo, S());
      total := 0;
      for i := 0 to |topo.nodes|
        invariant total == |Union(FreeNodes(topo, S()), Below(i))|
      {
        NodeSum(topo, S(), i);
        total := total + nodeFree[i];
      }
    }

    /** The fullest node, if it can hold N; -1 otherwise. */
    method FullestNode(N: nat) returns (best: int)
      requires nodeFree.Length == |topo.nodes|
      ensures -1 <= best < nodeFree.Length
      ensures best < 0 ==> forall n :: 0 <= n < nodeFree.Length ==> nodeFree[n] < N
      ensures best >= 0 ==> nodeFree[best] >= N && forall n :: 0 <= n < nodeFree.Length ==> nodeFree[n] <= nodeFree[best]
    {
      best := -1;
      var maxFree := -1;
      for i := 0 to |topo.nodes|
        invariant -1 <= best < i
        invariant best < 0 ==> maxFree == -1 && forall n :: 0 <= n < i ==> nodeFree[n] < N
        invariant best >= 0 ==> maxFree == nodeFree[best] >= N && forall n :: 0 <= n < i ==> nodeFree[n] <= maxFree
      {
        var fc := nodeFree[i];
        if fc >= N && fc > maxFree {
          maxFree := fc;
          best := i;
        }
      }
    }

    method PlaceOnNode(N: nat, n: nat, a: CpuAlloc) returns (b: CpuAlloc)
      requires Shape() && Consistent(topo, S()) && a.jobid > 0 && a.cpus == [] && n < |topo.nodes|
      requires 0 < N <= |FreeNodes(topo, S())[n]|
      modifies owner, groupFree, nodeFree
      ensures Allocated(topo, old(S()), S(), N, {n}, a, b) && |b.cpus| == N
    {
      hide WellFormed, Union, Cards, Cut, GroupPlacement, GroupsAllocated, GroupsOf;
      ghost var s := S();
      SingleNode(topo, s, n);
      ghost var T;
      b, T := AllocFromGroups(N, topo.nodes[n], a);
      EnoughIsAllocated(topo, s, S(), N, {n}, Elements(topo.nodes[n]), a, b, T);
    }

    method Place(N: nat, a: CpuAlloc) returns (b: CpuAlloc)
      requires Shape() && Consistent(topo, S()) && a.jobid > 0 && a.cpus == []
      requires 0 < N <= |FreeIn(topo, S())|
      modifies owner, groupFree, nodeFree
      ensures WellPlaced(topo, old(S()), S(), N, a, b)
    {
      hide WellFormed, Union, Cards, Cut, Allocated, NodePlacement, CrossPrimary, Fullest;
      NodeCounts(topo, S());
      ghost var s := S();
      var best := FullestNode(N);
      FullestFromCounts(topo, s, best);
      if best >= 0 {
        var a' := a.(primaryNode := best, memNodes := {best});
        b := PlaceOnNode(N, best, a');
        AllocatedKeeps(topo, s, S(), N, {best as nat}, a', b);
        OnOneNode(topo, s, S(), N, best, a', b);
      } else {
        b := CrossNodeMerge(N, a);
      }
    }
  
    constructor (topo: Topology)
      requires WellFormed(topo) && CoresStated(topo)
      ensures Valid() && this.topo == topo && fresh(owner) && fresh(groupFree) && fresh(nodeFree) && fresh(cpuToGroup)
      ensures allocs == [] && S() == InitialSnap(topo) && !disabled && !defragDisabled
    {
      this.topo := topo;
      owner := new int[topo.maxOsCpu](_ => 0);
      cpuToGroup := new int[topo.maxOsCpu](_ => -1);
      groupFree := new int[|topo.groups|](_ => 0);
      nodeFree := new int[|topo.nodes|](_ => 0);
      allocs, disabled, defragDisabled := [], false, false;
      new;
      hide WellFormed, CoresStated, InitialSnap;
      BuildIndex();
      Wipe();
      StartLedger(topo);
    }

    /** Build the CPU to group index. */
    method BuildIndex()
      requires WellFormed(topo) && cpuToGroup.Length == topo.maxOsCpu
      requires forall c :: 0 <= c < cpuToGroup.Length ==> cpuToGroup[c] == -1
      modifies cpuToGroup
      ensures Indexed()
    {
      for g := 0 to |topo.groups|
        invariant forall c :: 0 <= c < cpuToGroup.Length && cpuToGroup[c] != -1 ==>
                    0 <= cpuToGroup[c] < g && c in topo.groups[cpuToGroup[c]].cpus
        invariant forall h, c :: 0 <= h < g && 0 <= c < cpuToGroup.Length && c in topo.groups[h].cpus ==> cpuToGroup[c] != -1
      {
        var cpus := topo.groups[g].cpus;
        for j := 0 to |cpus|
          invariant forall c :: 0 <= c < cpuToGroup.Length && cpuToGroup[c] != -1 ==>
                      0 <= cpuToGroup[c] <= g && c in topo.groups[cpuToGroup[c]].cpus
          invariant forall h, c :: 0 <= h < g && 0 <= c < cpuToGroup.Length && c in topo.groups[h].cpus ==> cpuToGroup[c] != -1
          invariant forall k :: 0 <= k < j ==> cpuToGroup[cpus[k]] != -1
        {
          cpuToGroup[cpus[j]] := g;
        }
      }
    }

    /** Forget every owner and restore the full counts. */
    method Wipe()
      requires Shape() && owner.Length == topo.maxOsCpu
      requires groupFree.Length == |topo.groups| && nodeFree.Length == |topo.nodes|
      modifies owner, groupFree, nodeFree
      ensures S() == InitialSnap(topo)
    {
      hide WellFormed, InitialSnap;
      forall c | 0 <= c < owner.Length {
        owner[c] := 0;
      }
      forall g | 0 <= g < groupFree.Length {
        groupFree[g] := |topo.groups[g].cpus|;
      }
      forall n | 0 <= n < nodeFree.Length {
        nodeFree[n] := topo.nodeCores[n];
      }
      assert owner[..] == Zeros(topo.maxOsCpu);
      InitialCounts(topo, groupFree[..], nodeFree[..]);
    }
  
    /** Give the listed CPUs back. */
    method Release(cpus: seq<nat>)
      requires Shape() && Indexed() && Consistent(topo, S()) && Distinct(cpus)
      requires forall k :: 0 <= k < |cpus| ==> cpus[k] in AllCpus(topo) && cpus[k] < owner.Length && owner[cpus[k]] != 0
      modifies owner, groupFree, nodeFree
      ensures S() == Counted(topo, Assign(old(owner[..]), Elements(cpus), 0))
    {
      hide WellFormed, CoresStated, Cards, Free, GroupSets, NodeSets;
      ghost var o := owner[..];
      AssignNone(o, cpus, 0);
      for i := 0 to |cpus|
        invariant S() == Counted(topo, Assign(o, Elements(cpus[..i]), 0))
        invariant forall k :: i <= k < |cpus| ==> owner[cpus[k]] != 0
      {
        var cpu := cpus[i];
        var g := cpuToGroup[cpu];
        CountedAfterGive(topo, S(), g, cpu);
        AssignPrefix(o, cpus, i, 0);
        var n := topo.groups[g].node;
        owner[cpu] := 0;
        groupFree[g] := groupFree[g] + 1;
        nodeFree[n] := nodeFree[n] + 1;
      }
      assert cpus[..|cpus|] == cpus;
    }

    /** Give the listed CPUs, all free, to a job. */
    method Occupy(cpus: seq<nat>, jobid: int)
      requires Shape() && Indexed() && Consistent(topo, S()) && Distinct(cpus) && jobid > 0
      requires forall k :: 0 <= k < |cpus| ==> cpus[k] in AllCpus(topo) && cpus[k] < owner.Length && owner[cpus[k]] == 0
      modifies owner, groupFree, nodeFree
      ensures S() == Counted(topo, Assign(old(owner[..]), Elements(cpus), jobid))
    {
      hide WellFormed, CoresStated, Cards, Free, GroupSets, NodeSets;
      ghost var o := owner[..];
      AssignNone(o, cpus, jobid);
      for i := 0 to |cpus|
        invariant S() == Counted(topo, Assign(o, Elements(cpus[..i]), jobid))
        invariant forall k :: i <= k < |cpus| ==> owner[cpus[k]] == 0
      {
        var cpu := cpus[i];
        var g := cpuToGroup[cpu];
        CountedAfterOccupy(topo, S(), g, cpu, jobid);
        AssignPrefix(o, cpus, i, jobid);
        var n := topo.groups[g].node;
        owner[cpu] := jobid;
        groupFree[g] := groupFree[g] - 1;
        nodeFree[n] := nodeFree[n] - 1;
      }
      assert cpus[..|cpus|] == cpus;
    }
  
    /** cpu_bind_alloc_init: an empty record joins the list of live allocations. */
    method AllocInit(jobid: int) returns (i: nat)
      requires Valid() && jobid > 0
      requires forall k :: 0 <= k < |allocs| ==> allocs[k].jobid != jobid
      modifies this`allocs
      ensures Valid() && allocs == old(allocs) + [NewAlloc(jobid)] && i == |allocs| - 1
    {
      BookNew(topo, owner[..], allocs, NewAlloc(jobid));
      i := |allocs|;
      allocs := allocs + [NewAlloc(jobid)];
    }

    /** cpu_bind_alloc: all or nothing. */
    method Alloc(i: nat, N: int)
      requires Valid() && i < |allocs| && allocs[i] == NewAlloc(allocs[i].jobid)
      modifies this`allocs, owner, groupFree, nodeFree
      ensures Valid()
      ensures |allocs| == |old(allocs)| && allocs == old(allocs)[i := allocs[i]]
      ensures var granted := !disabled && 0 < N <= old(|FreeIn(topo, S())|);
        && (!granted ==> allocs[i] == old(allocs[i]).(error := true) && S() == old(S()))
        && (granted ==> !allocs[i].error && WellPlaced(topo, old(S()), S(), N, old(allocs[i]), allocs[i]))
    {
      hide WellFormed, CoresStated, Cards, Ledger, WellPlaced;
      ghost var s := S();
      LiveAlloc(topo, owner[..], allocs, i);
      var total := TotalFree();
      if disabled || N <= 0 || total < N {
        FlagError(topo, owner[..], allocs, i);
        allocs := allocs[i := allocs[i].(error := true)];
      } else {
        var b := Place(N, allocs[i]);
        PlacedInRange(topo, s, S(), N, allocs[i], b);
        var c := PostAlloc(b);
        PlacedIsBooked(topo, s, S(), N, allocs, i, b, c);
        allocs := allocs[i := c];
      }
    }
  
    /** cpu_bind_free: the allocation leaves the list and its CPUs become free. */
    method FreeAlloc(i: nat)
      requires Valid() && i < |allocs|
      modifies this`allocs, owner, groupFree, nodeFree
      ensures Valid() && allocs == Without(old(allocs), i)
      ensures S() == Counted(topo, Assign(old(owner[..]), Elements(old(allocs[i].cpus)), 0))
    {
      hide WellFormed, CoresStated, Cards, Ledger;
      LiveAlloc(topo, owner[..], allocs, i);
      Unbook(topo, owner[..], allocs, i);
      Release(allocs[i].cpus);
      allocs := allocs[..i] + allocs[i + 1..];
    }

    /** cpu_bind_claim: after a restart, take over CPUs without allocating; the
        caller names CPUs of the machine that are free. */
    method Claim(jobid: int, cpus: seq<nat>, memNodes: set<nat>, primaryNode: int) returns (claimed: bool)
      requires Valid() && jobid > 0 && forall k :: 0 <= k < |allocs| ==> allocs[k].jobid != jobid
      requires Distinct(cpus) && Elements(cpus) <= FreeIn(topo, S())
      modifies this`allocs, owner, groupFree, nodeFree
      ensures Valid() && claimed == (|cpus| > 0)
      ensures !claimed ==> allocs == old(allocs) && S() == old(S())
      ensures claimed ==>
        && S() == Counted(topo, Assign(old(owner[..]), Elements(cpus), jobid))
        && |allocs| == |old(allocs)| + 1 && allocs[..|old(allocs)|] == old(allocs)
        && Claimed(allocs[|old(allocs)|], jobid, cpus, memNodes, primaryNode)
    {
      hide WellFormed, CoresStated, Cards, Ledger;
      claimed := |cpus| > 0;
      if claimed {
        var sorted := Sort(cpus, (x: nat, y: nat) => x <= y);
        Reordered(cpus, sorted);
        var b := CpuAlloc(jobid, sorted, primaryNode, memNodes, false, 0);
        ClaimIsSound(topo, owner[..], cpus, b);
        BookClaim(topo, owner[..], allocs, b);
        Occupy(sorted, jobid);
        allocs := allocs + [b];
      }
    }
  
    /** The state of a rebuild: `A` is the sorted list it started from. */
    ghost predicate Rebuild(A: seq<CpuAlloc>, placed: set<nat>)
      reads this, owner, groupFree, nodeFree, cpuToGroup
    {
      && Shape() && Indexed() && Fits(topo, A)
      && Rebuilding(topo, A, allocs, S(), placed)
      && forall k :: 0 <= k < |A| ==> A[k].jobid > 0
    }

    /** Put an allocation that breaks no group back where it was. */
    method Restore(i: nat, ghost placed: set<nat>)
      requires Rebuild(allocs, placed) && i < |allocs| && i !in placed
      modifies owner, groupFree, nodeFree
      ensures Rebuild(allocs, placed + {i})
    {
      hide WellFormed, CoresStated, Cards, Booked, Disjoint, Union, Counted;
      ghost var s := S();
      OldCpusFree(topo, allocs, s, placed, i);
      Occupy(allocs[i].cpus, allocs[i].jobid);
      Settle(topo, allocs, allocs, s, S(), placed, i, allocs[i]);
      assert allocs[i := allocs[i]] == allocs;
    }

    /** Move an allocation within its primary node. */
    method MoveWithinNode(i: nat, pn: nat, ghost A: seq<CpuAlloc>, ghost placed: set<nat>)
      requires Rebuild(A, placed) && i < |A| && |allocs| == |A| && i !in placed && A[i].quality > 0
      requires pn == A[i].primaryNode && HoldsAll(topo, S(), A[i])
      modifies this`allocs, owner, groupFree, nodeFree
      ensures Rebuild(A, placed + {i}) && |allocs| == |A|
      ensures allocs == old(allocs)[i := allocs[i]] && Turned(topo, old(S()), S(), A[i], allocs[i])
    {
      hide WellFormed, CoresStated, Cards, Booked, Disjoint, Union, Allocated, Counted, Cut;
      ghost var s := S();
      var a := allocs[i];
      var N := |a.cpus|;
      var a' := a.(cpus := [], error := false, quality := 0);
      var b := PlaceOnNode(N, pn, a');
      AllocatedKeeps(topo, s, S(), N, {pn}, a', b);
      MovedIsKept(topo, s, S(), N, {pn}, a, a', b, b);
      InRange(topo, s, b);
      var c := PostAlloc(b);
      Reordered(b.cpus, c.cpus);
      MovedIsTurned(topo, s, S(), {pn}, a, a', b, c);
      SettleMoved(topo, A, allocs, s, S(), placed, i, b, c);
      allocs := allocs[i := c];
    }

    /** Move an allocation to the nodes with the most room, keeping its settings. */
    method MoveAcross(i: nat, ghost A: seq<CpuAlloc>, ghost placed: set<nat>)
      requires Rebuild(A, placed) && i < |A| && |allocs| == |A| && i !in placed && A[i].quality > 0
      requires !HoldsAll(topo, S(), A[i])
      modifies this`allocs, owner, groupFree, nodeFree
      ensures Rebuild(A, placed + {i}) && |allocs| == |A|
      ensures allocs == old(allocs)[i := allocs[i]] && Turned(topo, old(S()), S(), A[i], allocs[i])
    {
      hide WellFormed, CoresStated, Cards, Booked, Disjoint, Union, Allocated, Counted, NodePlacement, CrossPrimary;
      ghost var s := S();
      var a := allocs[i];
      var N := |a.cpus|;
      RoomFor(topo, A, allocs, s, placed, i);
      var a' := a.(cpus := [], error := false, quality := 0);
      var b := CrossNodeMerge(N, a');
      var b' := b.(primaryNode := a.primaryNode, memNodes := a.memNodes);
      MovedIsKept(topo, s, S(), N, b.memNodes, a, a'.(primaryNode := b.primaryNode, memNodes := b.memNodes), b, b');
      InRange(topo, s, b');
      var c := PostAlloc(b');
      Reordered(b'.cpus, c.cpus);
      MovedIsTurned(topo, s, S(), b.memNodes, a, a'.(primaryNode := b.primaryNode, memNodes := b.memNodes), b, c);
      SettleMoved(topo, A, allocs, s, S(), placed, i, b', c);
      allocs := allocs[i := c];
    }
  
    method RestoreUpTo(n: nat)
      requires Rebuild(allocs, {}) && n <= |allocs|
      modifies owner, groupFree, nodeFree
      ensures Rebuild(allocs, Below(n))
    {
      hide Rebuild;
      for i := 0 to n
        invariant Rebuild(allocs, Below(i))
      {
        Restore(i, Below(i));
        assert Below(i) + {i} == Below(i + 1);
      }
    }

    /** First pass over the broken allocations: those that fit on their primary
        node are settled there, the others are skipped. */
    method MoveFitting(n: nat) returns (skipped: seq<bool>, ghost placed: set<nat>, ghost c: Chain)
      requires Rebuild(allocs, Below(n)) && n <= |allocs|
      requires forall k :: n <= k < |allocs| ==> allocs[k].quality > 0
      modifies this`allocs, owner, groupFree, nodeFree
      ensures Rebuild(old(allocs), placed) && |allocs| == |old(allocs)| == |skipped|
      ensures forall k :: k in placed <==> 0 <= k < n || (n <= k < |skipped| && !skipped[k])
      ensures FirstPass(topo, c, old(allocs), old(S()), S(), allocs, skipped, n, |skipped|)
    {
      hide WellFormed, CoresStated, Cards, Booked, Disjoint, Union, Fits, Shape, Indexed, FirstPass, Turned;
      ghost var A := allocs;
      skipped := seq(|allocs|, i => false);
      placed, c := Below(n), Chain(A, [], 0, [S()]);
      PassBegins(topo, A, S(), skipped, n);
      for i := n to |allocs|
        invariant Rebuild(A, placed) && |allocs| == |A| == |skipped|
        invariant forall k :: k in placed <==> 0 <= k < n || (n <= k < i && !skipped[k])
        invariant forall k :: i <= k < |skipped| ==> !skipped[k]
        invariant FirstPass(topo, c, A, old(S()), S(), allocs, skipped, n, i)
      {
        NodeCounts(topo, S());
        var pn := allocs[i].primaryNode;
        if 0 <= pn < |topo.nodes| && nodeFree[pn] >= |allocs[i].cpus| {
          ghost var s, B := S(), allocs;
          MoveWithinNode(i, pn, A, placed);
          c := PassFits(topo, c, A, old(S()), s, S(), B, allocs[i], skipped, n, i);
          placed := placed + {i};
        } else {
          PassSkips(topo, c, A, old(S()), S(), allocs, skipped, n, i);
          skipped := skipped[i := true];
        }
      }
    }

    /** Second pass: the skipped ones go wherever there is room. */
    method MoveRest(n: nat, skipped: seq<bool>, ghost A: seq<CpuAlloc>, ghost placed: set<nat>, ghost c: Chain, ghost s0: Snap) returns (ghost d: Chain)
      requires Rebuild(A, placed) && n <= |allocs| == |A| == |skipped|
      requires forall k :: n <= k < |A| ==> A[k].quality > 0 && A[k].jobid > 0
      requires forall k :: k in placed <==> 0 <= k < n || (n <= k < |skipped| && !skipped[k])
      requires FirstPass(topo, c, A, s0, S(), allocs, skipped, n, |A|)
      modifies this`allocs, owner, groupFree, nodeFree
      ensures Rebuild(A, Below(|A|)) && SecondPass(topo, d, A, s0, S(), allocs, skipped, n, |A|)
    {
      hide Rebuild, FirstPass, SecondPass, Turned, HoldsAll;
      ghost var P: set<nat> := placed;
      RestBegins(topo, c, A, s0, S(), allocs, skipped, n);
      d := c;
      for i := n to |allocs|
        invariant Rebuild(A, P) && |allocs| == |A|
        invariant forall k :: k in P <==> 0 <= k < i || (i <= k < |skipped| && !skipped[k])
        invariant SecondPass(topo, d, A, s0, S(), allocs, skipped, n, i)
      {
        if skipped[i] {
          ghost var s, B := S(), allocs;
          RestRoom(topo, d, A, s0, s, B, skipped, n, i);
          MoveAcross(i, A, P);
          d := RestMoves(topo, d, A, s0, s, S(), B, allocs[i], skipped, n, i);
          P := P + {i};
        } else {
          RestPasses(topo, d, A, s0, S(), allocs, skipped, n, i);
        }
      }
      assert P == Below(|A|);
    }
  
    /** The rebuild part of cpu_bind_defrag_start, for any order qsort may leave
        equal allocations in. */
    method DefragStart() returns (rc: int, ghost c: Chain)
      requires Valid()
      modifies this`allocs, owner, groupFree, nodeFree
      ensures Valid() && AllKept(old(allocs), allocs)
      ensures |FreeIn(topo, S())| == old(|FreeIn(topo, S())|)
      ensures rc == if defragDisabled then -1 else 0
      ensures defragDisabled ==> allocs == old(allocs)
      ensures !defragDisabled ==> Rebuilt(topo, c, old(allocs), allocs, S())
      ensures defragDisabled || (forall a :: a in old(allocs) ==> a.quality == 0) ==> S() == old(S())
    {
      hide WellFormed, CoresStated, Cards, Ledger, Rebuilding, Fits, AllKept, Kept, Rebuilt;
      AllKeptSame(allocs);
      c := Chain(allocs, [], 0, [S()]);
      if defragDisabled {
        return -1, c;
      }
      rc := 0;
      ghost var before := allocs;
      var n := SortBroken();
      ghost var sorted := allocs;
      if n < |allocs| {
        c := RebuildAll(n);
        KeptThrough(before, sorted, allocs);
        RebuiltFrom(topo, c, before, sorted, allocs, S());
      } else {
        c := NothingBroken(topo, before, sorted, S());
      }
    }

    /** The sort, and how many allocations broke no group. */
    method SortBroken() returns (n: nat)
      requires Valid()
      modifies this`allocs
      ensures Valid() && multiset(allocs) == multiset(old(allocs)) && AllKept(old(allocs), allocs)
      ensures forall i, j :: 0 <= i < j < |allocs| ==> DefragOrder(allocs[i], allocs[j])
      ensures n <= |allocs| && (forall k :: 0 <= k < n ==> allocs[k].quality == 0)
      ensures forall k :: n <= k < |allocs| ==> allocs[k].quality > 0
      ensures n < |allocs| ==> exists a :: a in old(allocs) && a.quality != 0
    {
      hide WellFormed, CoresStated, Cards, Ledger, Rebuilding, Fits, AllKept, Kept;
      ghost var before := allocs;
      var sorted := Sort(allocs, DefragOrder);
      LedgerPermuted(topo, owner[..], allocs, sorted);
      allocs := sorted;
      n := 0;
      while n < |allocs| && allocs[n].quality == 0
        invariant 0 <= n <= |allocs|
        invariant forall k :: 0 <= k < n ==> allocs[k].quality == 0
      {
        n := n + 1;
      }
      if n < |allocs| {
        SomeBroken(before, allocs, n);
      }
    }

    method RebuildAll(n: nat) returns (ghost c: Chain)
      requires Valid() && n <= |allocs| && forall k :: n <= k < |allocs| ==> allocs[k].quality > 0
      requires forall k :: 0 <= k < n ==> allocs[k].quality == 0
      requires forall i, j :: 0 <= i < j < |allocs| ==> DefragOrder(allocs[i], allocs[j])
      modifies this`allocs, owner, groupFree, nodeFree
      ensures Valid() && AllKept(old(allocs), allocs)
      ensures |FreeIn(topo, S())| == old(|FreeIn(topo, S())|)
      ensures Rebuilt(topo, c, old(allocs), allocs, S())
    {
      hide WellFormed, CoresStated, Cards, Ledger, Rebuilding, Fits, AllKept, InitialSnap, FirstPass, SecondPass, Rebuilt;
      ghost var o, A := owner[..], allocs;
      LedgerFits(topo, o, A);
      LiveJobs(topo, o, A);
      WipedStart(topo, o, A);
      Wipe();
      RestoreUpTo(n);
      var skipped;
      ghost var placed;
      ghost var s0 := S();
      UnbrokenFirst(topo, A, s0, n);
      skipped, placed, c := MoveFitting(n);
      c := MoveRest(n, skipped, A, placed, c, s0);
      PassesEnd(topo, c, A, s0, S(), allocs, skipped, n);
      AllSettled(topo, o, A, allocs, S(), Below(|A|));
      StillConsistent(topo, A, allocs, S(), Below(|A|));
    }
  
    /** How the server binds a job: a new record, the allocation, and the record
        dropped again when that failed. */
    method Bind(jobid: int, N: int) returns (bound: bool)
      requires Valid() && jobid > 0 && forall k :: 0 <= k < |allocs| ==> allocs[k].jobid != jobid
      modifies this`allocs, owner, groupFree, nodeFree
      ensures Valid()
      ensures bound <==> !disabled && 0 < N <= old(|FreeIn(topo, S())|)
      ensures !bound ==> allocs == old(allocs) && S() == old(S())
      ensures bound ==>
        && |allocs| == |old(allocs)| + 1 && allocs[..|old(allocs)|] == old(allocs)
        && WellPlaced(topo, old(S()), S(), N, NewAlloc(jobid), allocs[|old(allocs)|])
    {
      hide WellFormed, CoresStated, Cards, Ledger, WellPlaced, Indexed;
      ghost var s := S();
      var i := AllocInit(jobid);
      Alloc(i, N);
      bound := !allocs[i].error;
      if !bound {
        NothingHeld(topo, s, allocs[i]);
        FreeAlloc(i);
      }
    }

    /** Freeing every allocation, in whatever order, leads back to the start. */
    method FreeEverything()
      requires Valid()
      modifies this`allocs, owner, groupFree, nodeFree
      ensures Valid() && allocs == [] && S() == InitialSnap(topo)
    {
      hide WellFormed, CoresStated, Cards, Ledger;
      while |allocs| > 0
        invariant Valid()
        decreases |allocs|
      {
        var i: nat :| i < |allocs|;
        FreeAlloc(i);
      }
      EmptyLedger(topo, owner[..]);
    }

    /** Any sequence of binds, claims, frees, switches and defragmentations keeps the
        allocator valid, and releasing what is left restores the initial state. */
    method Run(requests: seq<Request>)
      requires Valid()
      modifies this, owner, groupFree, nodeFree
      ensures Valid() && allocs == [] && S() == InitialSnap(topo)
    {
      hide WellFormed, CoresStated, Cards, Ledger;
      for r := 0 to |requests|
        invariant Valid()
      {
        Serve(requests[r]);
      }
      FreeEverything();
    }

    /** The CPUs a restart may claim: of the machine, free, and each listed once. */
    predicate Claimable(cpus: seq<nat>)
      reads owner, cpuToGroup
    {
      && (forall k :: 0 <= k < |cpus| ==>
            && cpus[k] < owner.Length && cpus[k] < cpuToGroup.Length
            && cpuToGroup[cpus[k]] >= 0 && owner[cpus[k]] == 0)
      && forall i, j :: 0 <= i < j < |cpus| ==> cpus[i] != cpus[j]
    }

    method Serve(request: Request)
      requires Valid()
      modifies this, owner, groupFree, nodeFree
      ensures Valid()
    {
      hide WellFormed, CoresStated, Cards, Ledger, Counted, WellPlaced, AllKept;
      match request
      case BindJob(jobid, n) =>
        if jobid > 0 && forall k :: 0 <= k < |allocs| ==> allocs[k].jobid != jobid {
          var _ := Bind(jobid, n);
        }
      case ClaimJob(jobid, cpus, mems, primary) =>
        if jobid > 0 && (forall k :: 0 <= k < |allocs| ==> allocs[k].jobid != jobid) && Claimable(cpus) {
          ClaimableIsFree(topo, owner[..], cpuToGroup[..], cpus);
          var _ := Claim(jobid, cpus, mems, primary);
        }
      case FreeJob(i) =>
        if i < |allocs| {
          FreeAlloc(i);
        }
      case Defragment =>
        var _, _ := DefragStart();
      case SetDisabled(off) =>
        disabled := off;
      case SetDefragDisabled(off) =>
        defragDisabled := off;
    }
  }

  datatype Request =
    | BindJob(jobid: int, n: int)
    | ClaimJob(jobid: int, cpus: seq<nat>, mems: set<nat>, primary: int)
    | FreeJob(i: nat)
    | Defragment
    | SetDisabled(off: bool)
    | SetDefragDisabled(off: bool)

  /** Three nodes with two free cores each, and a job 2 that asks for three: whatever
      else is on the machine, its primary node is not one of the nodes used. */
  method PrimaryOutside(a: Allocator)
    requires a.Valid() && !a.disabled && forall k :: 0 <= k < |a.allocs| ==> a.allocs[k].jobid != 2
    requires |a.topo.nodes| == 3 && a.topo.maxCoresPerGroup >= 3
    requires forall n :: 0 <= n < 3 ==> |FreeNodes(a.topo, a.S())[n]| == 2
    modifies a`allocs, a.owner, a.groupFree, a.nodeFree
    ensures a.Valid() && a.allocs != [] && a.allocs[|a.allocs| - 1].jobid == 2
    ensures a.allocs[|a.allocs| - 1].primaryNode >= 0 && a.allocs[|a.allocs| - 1].primaryNode !in a.allocs[|a.allocs| - 1].memNodes
  {
    hide Allocator.Valid, WellPlaced;
    ghost var t, s := a.topo, a.S();
    ThreeTied(a);
    var ok := a.Bind(2, 3);
    OutsidePrimary(t, s, a.S(), a.allocs[|a.allocs| - 1]);
  }

  lemma ThreeTied(a: Allocator)
    requires a.Valid() && |a.topo.nodes| == 3 && forall n :: 0 <= n < 3 ==> |FreeNodes(a.topo, a.S())[n]| == 2
    ensures |FreeIn(a.topo, a.S())| == 6 && WellFormed(a.topo)
  {
    hide WellFormed, Union;
    var t, s := a.topo, a.S();
    NodeSumAll(t, s);
    NodeSum(t, s, 0);
    NodeSum(t, s, 1);
    NodeSum(t, s, 2);
  }

  lemma OutsidePrimary(t: Topology, s: Snap, s': Snap, b: CpuAlloc)
    requires WellFormed(t) && |t.nodes| == 3 && t.maxCoresPerGroup >= 3
    requires forall n :: 0 <= n < 3 ==> |FreeNodes(t, s)[n]| == 2
    requires WellPlaced(t, s, s', 3, NewAlloc(2), b)
    ensures b.jobid == 2 && b.primaryNode >= 0 && b.primaryNode !in b.memNodes
  {
    hide WellFormed, Union, Allocated, Touched, Fullest;
    var fam := FreeNodes(t, s);
    NodeSumAll(t, s);
    NodeSum(t, s, 0);
    NodeSum(t, s, 1);
    assert |Union(fam, Below(2))| == 4 && |Below(2)| == 2 by { BelowTwo(); }
    assert Within(Below(2), 3);
    AllFullest(fam);
    SamePlace(t, s, s', b);
  }

  lemma AllFullest(fam: seq<set<nat>>)
    requires |fam| == 3 && forall n :: 0 <= n < 3 ==> |fam[n]| == 2
    ensures |Fullest(fam)| == 3
  {
    assert Fullest(fam) == {0, 1, 2};
  }

  lemma BelowTwo()
    ensures Below(2) == {0, 1} && |Below(2)| == 2 && Within(Below(2), 3)
  {
  }

  lemma SamePlace(t: Topology, s: Snap, s': Snap, b: CpuAlloc)
    requires WellPlaced(t, s, s', 3, NewAlloc(2), b)
    ensures b.jobid == 2
  {
    hide WellFormed, NodePlacement, GroupPlacement;
  }
}
