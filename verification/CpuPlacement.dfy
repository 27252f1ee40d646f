/** What a finished allocation looks like, independent of how it was found. */
module CpuPlacement {
  import opened DisjointFamily
  import opened CpuTopology
  import opened GreedyGroups
  import opened NodeChoice
  import opened CpuOwnership
  import opened CpuSteps
  import opened CpuLedger

  /** The groups that gave CPUs to `T` and still have free ones: broken groups. */
  ghost function Fragments(fam: seq<set<nat>>, T: set<nat>): set<nat> {
    set g | 0 <= g < |fam| && fam[g] * T != {} && fam[g] - T != {}
  }

  /** `T` holds N free CPUs of the candidate groups, out of as few groups as
      possible, and breaks `quality` groups, at most one; if one group can supply
      them, they come from the tightest such group. */
  ghost predicate GroupPlacement(t: Topology, s: Snap, ids: set<nat>, T: set<nat>, N: nat, quality: nat) {
    && |T| == N && T <= Union(FreeGroups(t, s), ids)
    && quality == |Fragments(FreeGroups(t, s), T)| <= 1
    && (forall S: set<nat> :: S <= ids && |Union(FreeGroups(t, s), S)| >= N ==>
          |Touched(FreeGroups(t, s), T)| <= |S|)
    && TightFit(FreeGroups(t, s), ids, T)
  }

  /** `nodes` are exactly the nodes that contribute a CPU, and no smaller set of
      nodes could supply N. */
  ghost predicate NodePlacement(t: Topology, s: Snap, nodes: set<nat>, T: set<nat>, N: nat) {
    && nodes == Touched(FreeNodes(t, s), T)
    && forall S: set<nat> :: Within(S, |t.nodes|) && |Union(FreeNodes(t, s), S)| >= N ==> |nodes| <= |S|
  }

  lemma FragmentCount(fam: seq<set<nat>>, ids: set<nat>, T: set<nat>, D: set<nat>, last: nat, P: set<nat>)
    requires Disjoint(fam) && Within(ids, |fam|) && Outcome(fam, ids, T, D, last, P)
    ensures |Fragments(fam, T)| == if P == fam[last] then 0 else 1
  {
    hide Union, Outcome;
    AtMostOneFragment(fam, ids, T, D, last, P);
    OutcomeTouches(fam, ids, T, D, last, P);
    OutcomeBounds(fam, ids, T, D, last, P);
    if P == fam[last] {
      assert Fragments(fam, T) == {};
    } else {
      assert last in Touched(fam, T);
      var c :| c in fam[last] && c !in P;
      assert c in fam[last] - P;
      assert Fragments(fam, T) == {last};
    }
  }

  lemma OutcomeBounds(fam: seq<set<nat>>, ids: set<nat>, T: set<nat>, D: set<nat>, last: nat, P: set<nat>)
    requires Within(ids, |fam|) && Outcome(fam, ids, T, D, last, P)
    ensures T <= Union(fam, ids) && last < |fam| && P <= fam[last]
  {
  }

  /** Whatever the selection went through, its result is optimal. */
  lemma SelectedIsOptimal(t: Topology, s: Snap, ids: set<nat>, T: set<nat>, quality: nat)
    requires WellFormed(t) && Selected(FreeGroups(t, s), ids, T, quality)
    ensures GroupPlacement(t, s, ids, T, |T|, quality)
  {
    hide WellFormed, Union, Outcome, Fragments, Touched, TightFit;
    var fam := FreeGroups(t, s);
    GroupsDisjoint(t);
    CutDisjoint(GroupSets(t), FreeIn(t, s));
    var D: set<nat>, last: nat, P: set<nat> :|
      Outcome(fam, ids, T, D, last, P) && last < |fam| && quality == if P == fam[last] then 0 else 1;
    FragmentCount(fam, ids, T, D, last, P);
    OutcomeTight(fam, ids, T, D, last, P);
    OutcomeBounds(fam, ids, T, D, last, P);
    forall S: set<nat> | S <= ids && |Union(fam, S)| >= |T|
      ensures |Touched(fam, T)| <= |S|
    {
      FewestGroups(fam, ids, T, D, last, P, S);
    }
  }

  /** A candidate group with exactly N free cores is used up: no group is broken. */
  lemma ExactFit(t: Topology, s: Snap, ids: set<nat>, T: set<nat>, N: nat, quality: nat, h: nat)
    requires WellFormed(t) && GroupPlacement(t, s, ids, T, N, quality) && N > 0
    requires h in ids && h < |t.groups| && |FreeGroups(t, s)[h]| == N
    ensures quality == 0 && exists g: nat :: g in ids && g < |t.groups| && T == FreeGroups(t, s)[g]
  {
    hide WellFormed, Union, Touched, TightFit, Fragments, FreeGroups;
    var fam := FreeGroups(t, s);
    GroupsApart(t, s);
    var g := ExactMember(fam, ids, T, h);
    NoFragments(fam, g);
  }

  lemma GroupsApart(t: Topology, s: Snap)
    requires WellFormed(t)
    ensures Disjoint(FreeGroups(t, s))
  {
    hide WellFormed;
    GroupsDisjoint(t);
    CutDisjoint(GroupSets(t), FreeIn(t, s));
  }

  lemma NoFragments(fam: seq<set<nat>>, g: nat)
    requires Disjoint(fam) && g < |fam|
    ensures Fragments(fam, fam[g]) == {}
  {
    forall h | 0 <= h < |fam|
      ensures fam[h] * fam[g] == {} || fam[h] - fam[g] == {}
    {
      if h != g {
        assert fam[h] !! fam[g];
      }
    }
  }

  lemma NodesAreDisjoint(t: Topology, s: Snap)
    requires WellFormed(t)
    ensures Disjoint(FreeNodes(t, s))
  {
    hide WellFormed;
    NodesDisjoint(t);
    CutDisjoint(NodeSets(t), FreeIn(t, s));
  }

  lemma OneNodeIsOptimal(t: Topology, s: Snap, n: nat, T: set<nat>, N: nat)
    requires WellFormed(t) && n < |t.nodes| && T <= FreeNodes(t, s)[n] && |T| == N > 0
    ensures NodePlacement(t, s, {n}, T, N)
  {
    hide WellFormed;
    var fam := FreeNodes(t, s);
    NodesAreDisjoint(t, s);
    forall m | 0 <= m < |fam|
      ensures fam[m] * T != {} <==> m == n
    {
      if m == n {
        assert fam[m] * T == T;
      } else {
        assert fam[m] !! fam[n];
      }
    }
    assert Touched(fam, T) == {n};
    forall S: set<nat> | Within(S, |t.nodes|) && |Union(fam, S)| >= N
      ensures 1 <= |S|
    {
      assert Union(fam, {}) == {};
    }
  }

  lemma ChosenNodesAreOptimal(t: Topology, s: Snap, order: seq<nat>, k: nat, T: set<nat>, N: nat)
    requires WellFormed(t) && Ranked(FreeNodes(t, s), order) && JustEnough(FreeNodes(t, s), order, k, N)
    requires T <= Union(FreeNodes(t, s), Elements(order[..k])) && |T| == N
    ensures NodePlacement(t, s, Elements(order[..k]), T, N)
  {
    hide WellFormed, Ranked, Union;
    var fam := FreeNodes(t, s);
    NodesAreDisjoint(t, s);
    ChosenAreTouched(fam, order, k, N, T);
    forall S: set<nat> | Within(S, |t.nodes|) && |Union(fam, S)| >= N
      ensures |Elements(order[..k])| <= |S|
    {
      FewestNodes(fam, order, k, N, S);
    }
  }

  lemma NodeCounts(t: Topology, s: Snap)
    requires Consistent(t, s)
    ensures |s.nodeFree| == |t.nodes|
    ensures forall n :: 0 <= n < |t.nodes| ==> s.nodeFree[n] == |FreeNodes(t, s)[n]|
  {
  }

  /** All nodes of the ranking together hold every free CPU. */
  lemma WholeRanking(t: Topology, s: Snap, order: seq<nat>)
    requires WellFormed(t) && Ranked(FreeNodes(t, s), order)
    ensures Union(FreeNodes(t, s), Elements(order[..|order|])) == FreeIn(t, s)
  {
    hide WellFormed, Union;
    assert order[..|order|] == order;
    NodesHoldAll(t, FreeIn(t, s), Elements(order));
  }

  lemma MoreGroups(t: Topology, order: seq<nat>, i: nat, gids: seq<nat>)
    requires WellFormed(t) && i < |order| && order[i] < |t.nodes|
    requires Elements(gids) == GroupsOf(t, Elements(order[..i]))
    ensures Elements(gids + t.nodes[order[i]]) == GroupsOf(t, Elements(order[..i + 1]))
    ensures forall j :: 0 <= j < |t.nodes[order[i]]| ==> t.nodes[order[i]][j] < |t.groups|
  {
    var n := order[i];
    assert order[..i + 1] == order[..i] + [n];
    assert Elements(order[..i + 1]) == Elements(order[..i]) + {n};
    assert Elements(gids + t.nodes[n]) == Elements(gids) + Elements(t.nodes[n]);
    assert GroupsOf(t, Elements(order[..i]) + {n}) == GroupsOf(t, Elements(order[..i])) + Elements(t.nodes[n]);
  }

  /** N free CPUs went to the job: out of the fewest groups of the named nodes,
      breaking at most one group, and the error flag did not change. */
  ghost predicate Allocated(t: Topology, s: Snap, s': Snap, N: nat, nodes: set<nat>, a: CpuAlloc, b: CpuAlloc) {
    && Taken(t, s, s', a, b, Elements(b.cpus))
    && b.error == a.error && b.quality >= a.quality
    && GroupPlacement(t, s, GroupsOf(t, nodes), Elements(b.cpus), N, b.quality - a.quality)
    && Elements(b.cpus) <= Union(FreeNodes(t, s), nodes)
  }

  lemma EnoughIsAllocated(t: Topology, s: Snap, s': Snap, N: nat, nodes: set<nat>, ids: set<nat>, a: CpuAlloc, b: CpuAlloc, T: set<nat>)
    requires WellFormed(t) && a.cpus == []
    requires ids == GroupsOf(t, nodes) && 0 < N <= |Union(FreeNodes(t, s), nodes)|
    requires GroupsAllocated(t, s, s', N, ids, a, b, T)
    ensures Allocated(t, s, s', N, nodes, a, b) && |b.cpus| == N
  {
    hide WellFormed, Union, Selected, GroupPlacement, Fragments, Touched;
    NodesHoldGroups(t, FreeIn(t, s), nodes);
    assert T == Elements(b.cpus);
    SelectedIsOptimal(t, s, ids, T, b.quality - a.quality);
    PlacementWithin(t, s, ids, T, N, b.quality - a.quality);
  }

  lemma PlacementWithin(t: Topology, s: Snap, ids: set<nat>, T: set<nat>, N: nat, quality: nat)
    requires GroupPlacement(t, s, ids, T, N, quality)
    ensures T <= Union(FreeGroups(t, s), ids) && |T| == N
  {
  }

  lemma NoNodes(t: Topology, fam: seq<set<nat>>, order: seq<nat>)
    ensures Union(fam, Elements(order[..0])) == {} && GroupsOf(t, {}) == {}
  {
  }

  lemma MergePrimary(t: Topology, s: Snap, order: seq<nat>, ties: nat, k: nat, N: nat, jobid: int, p: int)
    requires WellFormed(t) && Ranked(FreeNodes(t, s), order) && JustEnough(FreeNodes(t, s), order, k, N)
    requires N > t.maxCoresPerGroup ==> p == -1
    requires N <= t.maxCoresPerGroup ==> Tied(FreeNodes(t, s), order, ties) && p == order[jobid % ties]
    ensures CrossPrimary(FreeNodes(t, s), N, N > t.maxCoresPerGroup, jobid, p, Elements(order[..k]))
  {
    if N <= t.maxCoresPerGroup {
      NodesAreDisjoint(t, s);
      PrimaryFromTies(FreeNodes(t, s), order, ties, jobid, k, N);
    }
  }

  /** A node's groups, and what the node holds. */
  lemma SingleNode(t: Topology, s: Snap, n: nat)
    requires WellFormed(t) && n < |t.nodes|
    ensures GroupsOf(t, {n}) == Elements(t.nodes[n])
    ensures Union(FreeNodes(t, s), {n}) == FreeNodes(t, s)[n]
    ensures forall j :: 0 <= j < |t.nodes[n]| ==> t.nodes[n][j] < |t.groups|
  {
  }

  /** The sum of the node counts. */
  lemma NodeSum(t: Topology, s: Snap, i: nat)
    requires WellFormed(t) && i < |t.nodes|
    ensures |Union(FreeNodes(t, s), Below(i + 1))| == |Union(FreeNodes(t, s), Below(i))| + |FreeNodes(t, s)[i]|
  {
    hide WellFormed, Union;
    NodesAreDisjoint(t, s);
    UnionAdd(FreeNodes(t, s), Below(i), i);
  }

  lemma NodeSumAll(t: Topology, s: Snap)
    requires WellFormed(t)
    ensures Union(FreeNodes(t, s), Below(0)) == {}
    ensures Union(FreeNodes(t, s), Below(|t.nodes|)) == FreeIn(t, s)
  {
    NodesHoldAll(t, FreeIn(t, s), Below(|t.nodes|));
  }

  /** A successful cpu_bind_alloc: N CPUs on exactly the nodes named, which are
      as few as possible; if one node can hold the job, the fullest one does. */
  ghost predicate WellPlaced(t: Topology, s: Snap, s': Snap, N: nat, a: CpuAlloc, b: CpuAlloc) {
    && Allocated(t, s, s', N, b.memNodes, a.(primaryNode := b.primaryNode, memNodes := b.memNodes), b)
    && NodePlacement(t, s, b.memNodes, Elements(b.cpus), N)
    && |b.cpus| == N
    && if exists n :: 0 <= n < |t.nodes| && |FreeNodes(t, s)[n]| >= N
       then b.primaryNode >= 0 && b.memNodes == {b.primaryNode} && b.primaryNode in Fullest(FreeNodes(t, s))
       else CrossPrimary(FreeNodes(t, s), N, N > t.maxCoresPerGroup, a.jobid, b.primaryNode, b.memNodes)
  }

  lemma OnOneNode(t: Topology, s: Snap, s': Snap, N: nat, n: nat, a: CpuAlloc, b: CpuAlloc)
    requires WellFormed(t) && n < |t.nodes| && N > 0
    requires Allocated(t, s, s', N, {n}, a, b) && |b.cpus| == N
    requires |FreeNodes(t, s)[n]| >= N && n in Fullest(FreeNodes(t, s))
    requires b.primaryNode == a.primaryNode == n && b.memNodes == a.memNodes == {n}
    ensures forall a0: CpuAlloc :: a0.(primaryNode := n, memNodes := {n}) == a ==> WellPlaced(t, s, s', N, a0, b)
  {
    hide WellFormed, GroupPlacement, Taken, NodePlacement, Fullest, Union;
    SingleNode(t, s, n);
    PlacementSize(t, s, {n}, N, a, b, s');
    OneNodeIsOptimal(t, s, n, Elements(b.cpus), N);
  }

  lemma PlacementSize(t: Topology, s: Snap, nodes: set<nat>, N: nat, a: CpuAlloc, b: CpuAlloc, s': Snap)
    requires Allocated(t, s, s', N, nodes, a, b)
    ensures |Elements(b.cpus)| == N && Elements(b.cpus) <= FreeIn(t, s)
    ensures s'.owner == Assign(s.owner, Elements(b.cpus), a.jobid) && b.jobid == a.jobid
    ensures b.quality <= a.quality + 1
  {
  }

  lemma AllocatedKeeps(t: Topology, s: Snap, s': Snap, N: nat, nodes: set<nat>, a: CpuAlloc, b: CpuAlloc)
    requires Allocated(t, s, s', N, nodes, a, b)
    ensures b.primaryNode == a.primaryNode && b.memNodes == a.memNodes && b.error == a.error && b.jobid == a.jobid
  {
  }

  lemma FullestFromCounts(t: Topology, s: Snap, n: int)
    requires Consistent(t, s) && |s.nodeFree| == |t.nodes| && n < |t.nodes|
    requires n >= 0 ==> forall m :: 0 <= m < |t.nodes| ==> s.nodeFree[m] <= s.nodeFree[n]
    ensures n >= 0 ==> n in Fullest(FreeNodes(t, s))
  {
    hide Cards, Cut;
    NodeCounts(t, s);
  }

  lemma StartLedger(t: Topology)
    ensures Ledger(t, Zeros(t.maxOsCpu), []) && Consistent(t, InitialSnap(t))
    ensures InitialSnap(t).owner == Zeros(t.maxOsCpu)
  {
  }

  lemma FlagError(t: Topology, o: seq<int>, allocs: seq<CpuAlloc>, i: nat)
    requires Ledger(t, o, allocs) && i < |allocs|
    ensures Ledger(t, o, allocs[i := allocs[i].(error := true)])
  {
    var allocs' := allocs[i := allocs[i].(error := true)];
    forall c | 0 <= c < |o| && o[c] != 0
      ensures exists k :: 0 <= k < |allocs'| && allocs'[k].jobid == o[c]
    {
      var k :| 0 <= k < |allocs| && allocs[k].jobid == o[c];
      assert allocs'[k].jobid == o[c];
    }
  }

  lemma PlacedInRange(t: Topology, s: Snap, s': Snap, N: nat, a: CpuAlloc, b: CpuAlloc)
    requires Consistent(t, s) && WellPlaced(t, s, s', N, a, b) && a.jobid != 0
    ensures forall k :: 0 <= k < |b.cpus| ==> b.cpus[k] < |s'.owner|
    ensures Consistent(t, s')
  {
    hide NodePlacement, GroupPlacement, CrossPrimary, Union, Cards;
    TakenKeeps(t, s, s', a.(primaryNode := b.primaryNode, memNodes := b.memNodes), b, Elements(b.cpus));
    forall k | 0 <= k < |b.cpus|
      ensures b.cpus[k] < |s'.owner|
    {
      assert b.cpus[k] in Elements(b.cpus);
    }
  }

  /** A placement stays one when its CPU list is reordered. */
  lemma ReorderPlaced(t: Topology, s: Snap, s': Snap, N: nat, a: CpuAlloc, b: CpuAlloc, c: CpuAlloc)
    requires WellPlaced(t, s, s', N, a, b)
    requires c == b.(cpus := c.cpus) && multiset(c.cpus) == multiset(b.cpus)
    ensures WellPlaced(t, s, s', N, a, c) && Elements(c.cpus) == Elements(b.cpus)
  {
    hide NodePlacement, GroupPlacement, CrossPrimary, Union, Cards, Counted, Fullest;
    Reordered(b.cpus, c.cpus);
  }

  /** The record of a successful placement matches the owner map, so the check
      that follows it finds nothing. */
  lemma PlacedIsBooked(t: Topology, s: Snap, s': Snap, N: nat, allocs: seq<CpuAlloc>, i: nat, b: CpuAlloc, c: CpuAlloc)
    requires Ledger(t, s.owner, allocs) && i < |allocs| && allocs[i] == NewAlloc(allocs[i].jobid) && N > 0
    requires WellPlaced(t, s, s', N, allocs[i], b)
    requires c == b.(cpus := c.cpus, error := c.error) && multiset(c.cpus) == multiset(b.cpus)
    requires c.error <==> b.error || !PostCheck(s'.owner, c)
    ensures !c.error && Ledger(t, s'.owner, allocs[i := c])
    ensures WellPlaced(t, s, s', N, allocs[i], c)
  {
    hide NodePlacement, GroupPlacement, CrossPrimary, Union, Cards, Booked, Taken;
    var c' := c.(error := b.error);
    ReorderPlaced(t, s, s', N, allocs[i], b, c');
    PlacementSize(t, s, b.memNodes, N, allocs[i].(primaryNode := b.primaryNode, memNodes := b.memNodes), c', s');
    BookPlacement(t, s.owner, allocs, i, Elements(c.cpus), c');
    assert c' == c;
  }

  lemma BookPlacement(t: Topology, o: seq<int>, allocs: seq<CpuAlloc>, i: nat, T: set<nat>, c: CpuAlloc)
    requires Ledger(t, o, allocs) && i < |allocs| && allocs[i].cpus == []
    requires T <= Free(t, o) && c.jobid == allocs[i].jobid && Elements(c.cpus) == T && |c.cpus| == |T| > 0 && c.quality <= 1
    ensures Ledger(t, Assign(o, T, c.jobid), allocs[i := c])
    ensures PostCheck(Assign(o, T, c.jobid), c)
  {
    hide Elements, OwnersLive, Free;
    DistinctIfCounted(c.cpus);
    Unplace(t, o, allocs, Below(|allocs|), i);
    Book(t, o, allocs, Below(|allocs|) - {i}, i, T, c);
    assert Below(|allocs|) - {i} + {i} == Below(|allocs|);
    assert allocs[i := c][i] == c;
    PostCheckHolds(Assign(o, T, c.jobid), c);
  }

  /** The record a claim leaves: the CPUs in ascending order, no fragment counted. */
  ghost predicate Claimed(b: CpuAlloc, jobid: int, cpus: seq<nat>, memNodes: set<nat>, primaryNode: int) {
    && b == CpuAlloc(jobid, b.cpus, primaryNode, memNodes, false, 0)
    && multiset(b.cpus) == multiset(cpus)
    && forall i, j :: 0 <= i < j < |b.cpus| ==> b.cpus[i] <= b.cpus[j]
  }

  lemma ClaimIsSound(t: Topology, o: seq<int>, cpus: seq<nat>, b: CpuAlloc)
    requires Distinct(cpus) && Elements(cpus) <= Free(t, o)
    requires Elements(b.cpus) == Elements(cpus) && |b.cpus| == |cpus| && b.quality == 0
    ensures Sound(b)
    ensures forall k :: 0 <= k < |b.cpus| ==> b.cpus[k] in AllCpus(t) && b.cpus[k] < |o| && o[b.cpus[k]] == 0
  {
    ElementsSize(cpus);
    DistinctIfCounted(b.cpus);
    forall k | 0 <= k < |b.cpus|
      ensures b.cpus[k] in Free(t, o)
    {
      assert b.cpus[k] in Elements(b.cpus);
    }
  }

  /** A failed allocation holds nothing, so dropping its record changes nothing. */
  lemma NothingHeld(t: Topology, s: Snap, a: CpuAlloc)
    requires Consistent(t, s)
    ensures a.cpus == [] ==> Counted(t, Assign(s.owner, Elements(a.cpus), 0)) == s
  {
    hide Cards;
    assert Assign(s.owner, {}, 0) == s.owner;
    assert a.cpus == [] ==> Elements(a.cpus) == {};
  }

  lemma ClaimableIsFree(t: Topology, o: seq<int>, index: seq<int>, cpus: seq<nat>)
    requires |index| == t.maxOsCpu
    requires forall c :: 0 <= c < |index| && c !in AllCpus(t) ==> index[c] == -1
    requires forall k :: 0 <= k < |cpus| ==> cpus[k] < |o| && cpus[k] < |index| && index[cpus[k]] >= 0 && o[cpus[k]] == 0
    ensures Elements(cpus) <= Free(t, o)
  {
    forall c | c in Elements(cpus)
      ensures c in Free(t, o)
    {
      var k :| 0 <= k < |cpus| && cpus[k] == c;
    }
  }
}
