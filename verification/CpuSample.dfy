/** A defragmentation that puts a broken group together again. */
module CpuSample {
  import opened DisjointFamily
  import opened CpuTopology
  import opened GreedyGroups
  import opened NodeChoice
  import opened CpuOwnership
  import opened CpuSteps
  import opened CpuLedger
  import opened CpuPlacement
  import opened CpuDefrag
  import opened CpuRebuild
  import opened CpuBind

  /** One node with two groups of four CPUs. */
  ghost predicate TwoGroups(t: Topology) {
    && WellFormed(t) && |t.nodes| == 1 && |t.groups| == 2
    && |t.groups[0].cpus| == 4 && |t.groups[1].cpus| == 4
  }

  lemma BoardFacts(t: Topology)
    requires TwoGroups(t)
    ensures GroupsOf(t, {0}) == {0, 1}
    ensures |GroupSets(t)[0]| == 4 && |GroupSets(t)[1]| == 4 && GroupSets(t)[0] !! GroupSets(t)[1]
  {
    ElementsSize(t.groups[0].cpus);
    ElementsSize(t.groups[1].cpus);
    GroupsDisjoint(t);
    forall g: nat
      ensures g in GroupsOf(t, {0}) <==> g < 2
    {
      if g < 2 {
        assert g in t.nodes[t.groups[g].node];
      }
    }
  }

  /** A group is part of what the node has free. */
  lemma GroupOnNode(t: Topology, s: Snap, g: nat)
    requires TwoGroups(t) && g < 2
    ensures FreeGroups(t, s)[g] <= FreeNodes(t, s)[0] && |FreeGroups(t, s)[g]| <= |FreeNodes(t, s)[0]|
  {
    hide Union, FreeIn;
    GroupInNode(t, g);
    hide WellFormed;
    SubsetSize(FreeGroups(t, s)[g], FreeNodes(t, s)[0]);
  }

  lemma OneFragment(fam: seq<set<nat>>, T: set<nat>, g: nat)
    requires Disjoint(fam) && g < |fam| && T <= fam[g] && T != {}
    ensures |Fragments(fam, T)| == if T == fam[g] then 0 else 1
  {
    forall h | 0 <= h < |fam|
      ensures h in Fragments(fam, T) <==> h == g && T != fam[g]
    {
      if h != g {
        assert fam[h] !! fam[g];
      } else {
        assert fam[g] * T == T;
      }
    }
    if T == fam[g] {
      assert Fragments(fam, T) == {};
    } else {
      assert Fragments(fam, T) == {g};
    }
  }

  /** A request that the node can hold is placed there. */
  lemma OnTheNode(t: Topology, s: Snap, s': Snap, N: nat, id: int, b: CpuAlloc)
    requires |t.nodes| == 1 && WellPlaced(t, s, s', N, NewAlloc(id), b) && id != 0 && N > 0 && |FreeNodes(t, s)[0]| >= N
    ensures b.primaryNode == 0 && b.jobid == id && |b.cpus| == N == |Elements(b.cpus)| && Elements(b.cpus) != {}
    ensures GroupPlacement(t, s, GroupsOf(t, {0}), Elements(b.cpus), N, b.quality)
    ensures FreeIn(t, s') == FreeIn(t, s) - Elements(b.cpus)
  {
    hide WellFormed, GroupPlacement, NodePlacement, Union, CrossPrimary, FreeNodes;
    assert b.memNodes == {0};
    FreeAfterAssign(t, s.owner, Elements(b.cpus), id);
    PlacementSize(t, s, GroupsOf(t, {0}), Elements(b.cpus), N, b.quality);
  }

  lemma PlacementSize(t: Topology, s: Snap, ids: set<nat>, T: set<nat>, N: nat, quality: nat)
    requires GroupPlacement(t, s, ids, T, N, quality) && N > 0
    ensures |T| == N && T != {} && quality == |Fragments(FreeGroups(t, s), T)| && TightFit(FreeGroups(t, s), ids, T)
  {
  }

  /** Two CPUs come from one group, the tightest that has two free. */
  lemma TwoPlaced(t: Topology, s: Snap, s': Snap, id: int, b: CpuAlloc, h: nat) returns (g: nat)
    requires TwoGroups(t) && WellPlaced(t, s, s', 2, NewAlloc(id), b) && id != 0 && h < 2 && |FreeGroups(t, s)[h]| >= 2
    ensures g < 2 && Elements(b.cpus) <= FreeGroups(t, s)[g] && |FreeGroups(t, s)[g]| <= |FreeGroups(t, s)[h]|
    ensures |Elements(b.cpus)| == 2 == |b.cpus| && b.jobid == id && b.primaryNode == 0
    ensures FreeIn(t, s') == FreeIn(t, s) - Elements(b.cpus)
    ensures b.quality == if Elements(b.cpus) == FreeGroups(t, s)[g] then 0 else 1
  {
    hide WellPlaced, WellFormed, Union, Elements, GroupPlacement, FreeGroups, FreeNodes, FreeIn, Fragments, TightFit, Disjoint;
    var T, fam := Elements(b.cpus), FreeGroups(t, s);
    BoardFacts(t);
    GroupOnNode(t, s, h);
    OnTheNode(t, s, s', 2, id, b);
    PlacementSize(t, s, {0, 1}, T, 2, b.quality);
    GroupsApart(t, s);
    g := Tightest(fam, T, h);
    OneFragment(fam, T, g);
  }

  lemma Tightest(fam: seq<set<nat>>, T: set<nat>, h: nat) returns (g: nat)
    requires TightFit(fam, {0, 1}, T) && |fam| == 2 && h < 2 && |fam[h]| >= |T|
    ensures g < 2 && T <= fam[g] && |fam[g]| <= |fam[h]|
  {
    g :| g in {0, 1} && g < |fam| && T <= fam[g] && |fam[g]| <= |fam[h]|;
  }

  /** Taking from one group leaves the other as it is. */
  lemma OtherStays(t: Topology, s: Snap, s': Snap, T: set<nat>, g: nat)
    requires TwoGroups(t) && g < 2 && T <= FreeGroups(t, s)[g] && FreeIn(t, s') == FreeIn(t, s) - T
    ensures FreeGroups(t, s')[g] == FreeGroups(t, s)[g] - T && |FreeGroups(t, s')[g]| == |FreeGroups(t, s)[g]| - |T|
    ensures FreeGroups(t, s')[1 - g] == FreeGroups(t, s)[1 - g]
  {
    hide WellFormed, FreeIn, GroupSets, FreeGroups;
    BoardFacts(t);
    GroupsFree(t, s);
    GroupsFree(t, s');
    TakeFromOne(GroupSets(t)[g], GroupSets(t)[1 - g], FreeIn(t, s), T);
  }

  lemma GroupsFree(t: Topology, s: Snap)
    requires |t.groups| == 2
    ensures forall g: nat :: g < 2 ==> FreeGroups(t, s)[g] == GroupSets(t)[g] * FreeIn(t, s)
  {
  }

  lemma TakeFromOne(G: set<nat>, H: set<nat>, F: set<nat>, T: set<nat>)
    requires G !! H && T <= G * F
    ensures G * (F - T) == G * F - T && |G * (F - T)| == |G * F| - |T| && H * (F - T) == H * F
  {
    SubsetSize(T, G * F);
    assert G * (F - T) == G * F - T;
  }

  lemma TakeFromAll(G: set<nat>, H: set<nat>, F: set<nat>, T: set<nat>)
    requires G !! H && T <= G && G <= F && H <= F
    ensures |G * (F - T)| == |G| - |T| && H * (F - T) == H
  {
    assert G * F == G && H * F == H;
    TakeFromOne(G, H, F, T);
  }

  /** With only the first of two allocations on the machine, its CPUs alone are taken. */
  lemma OnlyFirst(t: Topology, o: seq<int>, a: CpuAlloc, b: CpuAlloc)
    requires WellFormed(t) && |o| == t.maxOsCpu && Booked(t, o, [a, b], {0})
    ensures Free(t, o) == AllCpus(t) - Elements(a.cpus)
  {
    var A := [a, b];
    assert Owned(o, A[0].jobid) == Elements(a.cpus) && Owned(o, A[1].jobid) == {};
    forall c | c in AllCpus(t)
      ensures c in Free(t, o) <==> c !in Elements(a.cpus)
    {
      var g := HomeGroup(t, c);
      if o[c] != 0 {
        var i :| 0 <= i < |A| && A[i].jobid == o[c];
        assert c in Owned(o, A[i].jobid);
      } else {
        assert c !in Owned(o, a.jobid) || a.jobid == 0;
      }
    }
    hide WellFormed, OwnersLive, Owned, Elements, AllCpus;
    FreeIsPart(t, o);
  }

  lemma GroupsBeside(t: Topology, s: Snap, E: set<nat>, g: nat)
    requires TwoGroups(t) && g < 2 && E <= GroupSets(t)[g] && |E| == 2 && FreeIn(t, s) == AllCpus(t) - E
    ensures |FreeGroups(t, s)[g]| == 2 && FreeGroups(t, s)[1 - g] == GroupSets(t)[1 - g] && |FreeGroups(t, s)[1 - g]| == 4
  {
    hide WellFormed, AllCpus, FreeIn, GroupSets, FreeGroups, NodeSets;
    BoardFacts(t);
    GroupInNode(t, g);
    GroupInNode(t, 1 - g);
    GroupsFree(t, s);
    TakeFromAll(GroupSets(t)[g], GroupSets(t)[1 - g], AllCpus(t), E);
  }

  lemma SortedPair(A: seq<CpuAlloc>, a: CpuAlloc, b: CpuAlloc)
    requires multiset(A) == multiset([a, b]) && a.quality < b.quality
    requires |A| == 2 ==> A[0].quality <= A[1].quality
    ensures A == [a, b]
  {
    SameElements(A, [a, b]);
    assert A[0] in [a, b] && A[1] in [a, b] && a in A && b in A;
  }

  lemma OneTurn(turns: seq<nat>)
    requires Distinct(turns) && forall k: nat :: k in turns <==> k == 1
    ensures turns == [1]
  {
    assert Elements(turns) == {1};
    ElementsSize(turns);
    assert turns[0] in turns;
  }

  /** What the rebuild makes of an allocation of two that broke a group while another
      group had exactly two free beside an unbroken one. */
  lemma PutTogether(t: Topology, c: Chain, a: CpuAlloc, b: CpuAlloc, B: seq<CpuAlloc>, s: Snap, g: nat)
    requires TwoGroups(t) && Rebuilt(t, c, [a, b], B, s) && g < 2
    requires a.quality == 0 && Elements(a.cpus) <= GroupSets(t)[g] && |Elements(a.cpus)| == 2
    requires b.quality == 1 && |b.cpus| == 2 && b.primaryNode == 0 && b.jobid != 0
    ensures |B| == 2 && B[1].jobid == b.jobid && B[1].quality == 0
    ensures FreeGroups(t, s)[1 - g] == GroupSets(t)[1 - g]
  {
    hide WellFormed, Turned, HoldsAll, Booked, GroupSets, Elements, FreeIn, FreeGroups, FreeNodes, AllCpus;
    SortedPair(c.sorted, a, b);
    OneTurn(c.turns);
    var s0 := c.snaps[0];
    assert Unbroken(c.sorted) == {0};
    SnapShape(t, s0);
    OnlyFirst(t, s0.owner, a, b);
    FreeOf(t, s0);
    GroupsBeside(t, s0, Elements(a.cpus), g);
    BoardFacts(t);
    GroupOnNode(t, s0, g);
    assert Turned(t, c.snaps[0], c.snaps[0 + 1], c.sorted[c.turns[0]], B[c.turns[0]]);
    LastTurn(t, s0, s, b, B[1], g);
  }

  lemma SnapShape(t: Topology, s: Snap)
    requires Consistent(t, s)
    ensures |s.owner| == t.maxOsCpu
  {
  }

  lemma FreeOf(t: Topology, s: Snap)
    ensures FreeIn(t, s) == Free(t, s.owner)
  {
  }

  lemma LastTurn(t: Topology, s: Snap, s': Snap, a: CpuAlloc, b: CpuAlloc, g: nat)
    requires TwoGroups(t) && Turned(t, s, s', a, b) && g < 2 && a.primaryNode == 0 && |a.cpus| == 2 && a.jobid != 0
    requires |FreeGroups(t, s)[g]| == 2 && |FreeGroups(t, s)[1 - g]| == 4 && |FreeNodes(t, s)[0]| >= 2
    ensures b.quality == 0 && b.jobid == a.jobid && FreeGroups(t, s')[1 - g] == FreeGroups(t, s)[1 - g]
  {
    hide WellFormed, Turned, FreeIn, FreeGroups, FreeNodes, Elements;
    BoardFacts(t);
    TurnedFree(t, s, s', a, b);
    ExactTurn(t, s, s', a, b, g);
    var k: nat :| k in GroupsOf(t, {0}) && k < |t.groups| && Elements(b.cpus) == FreeGroups(t, s)[k];
    TurnedSize(t, s, s', a, b);
    assert k == g;
    OtherStays(t, s, s', Elements(b.cpus), g);
  }

  lemma TurnedFree(t: Topology, s: Snap, s': Snap, a: CpuAlloc, b: CpuAlloc)
    requires Turned(t, s, s', a, b) && a.jobid != 0
    ensures FreeIn(t, s') == FreeIn(t, s) - Elements(b.cpus) && b.jobid == a.jobid
  {
    hide GroupPlacement, NodePlacement, HoldsAll;
    FreeAfterAssign(t, s.owner, Elements(b.cpus), b.jobid);
  }

  lemma TurnedSize(t: Topology, s: Snap, s': Snap, a: CpuAlloc, b: CpuAlloc)
    requires Turned(t, s, s', a, b)
    ensures |Elements(b.cpus)| == |a.cpus|
  {
    hide NodePlacement, HoldsAll, Union, Touched, Fragments;
  }

  /** Jobs 1, 2 and 3 take two CPUs each, so that job 3 breaks the second group. When
      job 1 has gone, a defragmentation moves job 3 beside job 2 and leaves a whole
      group free. */
  method DefragHelps(a: Allocator) returns (ghost o: nat)
    requires a.Valid() && TwoGroups(a.topo) && a.allocs == [] && !a.disabled && !a.defragDisabled
    requires FreeIn(a.topo, a.S()) == AllCpus(a.topo)
    modifies a`allocs, a.owner, a.groupFree, a.nodeFree
    ensures a.Valid() && |a.allocs| == 2 && a.allocs[1].jobid == 3 && a.allocs[1].quality == 0
    ensures o < 2 && |a.topo.groups| == 2 && FreeGroups(a.topo, a.S())[o] == GroupSets(a.topo)[o]
  {
    hide Allocator.Valid, TwoGroups, FreeIn, FreeGroups, GroupSets, AllCpus, Rebuilt, AllKept, Elements;
    ghost var g := BreakSecond(a);
    BoardSize(a.topo);
    ghost var p, q := a.allocs[1], a.allocs[2];
    a.FreeAlloc(0);
    assert a.allocs == [p, q];
    ghost var c;
    var rc;
    rc, c := a.DefragStart();
    PutTogether(a.topo, c, p, q, a.allocs, a.S(), g);
    o := 1 - g;
  }

  lemma BoardSize(t: Topology)
    requires TwoGroups(t)
    ensures |t.groups| == 2 && |GroupSets(t)| == 2
  {
  }

  /** The first two jobs fill group g, the third breaks the other one. */
  method BreakSecond(a: Allocator) returns (ghost g: nat)
    requires a.Valid() && TwoGroups(a.topo) && a.allocs == [] && !a.disabled && FreeIn(a.topo, a.S()) == AllCpus(a.topo)
    modifies a`allocs, a.owner, a.groupFree, a.nodeFree
    ensures a.Valid() && |a.allocs| == 3 && g < 2 && |a.topo.groups| == 2
    ensures a.allocs[1].quality == 0 && Elements(a.allocs[1].cpus) <= GroupSets(a.topo)[g] && |Elements(a.allocs[1].cpus)| == 2
    ensures a.allocs[2].jobid == 3 && a.allocs[2].quality == 1 && |a.allocs[2].cpus| == 2 && a.allocs[2].primaryNode == 0
  {
    hide Allocator.Valid, WellPlaced, TwoGroups, FreeIn, FreeGroups, GroupSets, AllCpus, Elements;
    ghost var t, s0 := a.topo, a.S();
    BoardSize(t);
    AllFree(t, s0);
    var ok := a.Bind(1, 2);
    ghost var s1 := a.S();
    g := TwoPlaced(t, s0, s1, 1, a.allocs[0], 0);
    OtherStays(t, s0, s1, Elements(a.allocs[0].cpus), g);
    FreeTotal(t, s1);
    ok := a.Bind(2, 2);
    ghost var s2 := a.S();
    FillFirst(t, s1, s2, a.allocs[1], g);
    FreeTotal(t, s2);
    ok := a.Bind(3, 2);
    BreakOther(t, s2, a.S(), a.allocs[2], g);
  }

  lemma FillFirst(t: Topology, s: Snap, s': Snap, b: CpuAlloc, g: nat)
    requires TwoGroups(t) && WellPlaced(t, s, s', 2, NewAlloc(2), b) && g < 2
    requires |FreeGroups(t, s)[g]| == 2 && |FreeGroups(t, s)[1 - g]| == 4
    ensures b.jobid == 2 && b.quality == 0 && Elements(b.cpus) <= GroupSets(t)[g] && |Elements(b.cpus)| == 2
    ensures FreeGroups(t, s')[g] == {} && |FreeGroups(t, s')[1 - g]| == 4
  {
    hide WellPlaced, TwoGroups, FreeIn, FreeGroups, GroupSets, Elements;
    BoardSize(t);
    var h := TwoPlaced(t, s, s', 2, b, g);
    assert h == g;
    SameSize(Elements(b.cpus), FreeGroups(t, s)[g]);
    OtherStays(t, s, s', Elements(b.cpus), g);
    FreeIsInGroup(t, s, g);
  }

  lemma BreakOther(t: Topology, s: Snap, s': Snap, b: CpuAlloc, g: nat)
    requires TwoGroups(t) && WellPlaced(t, s, s', 2, NewAlloc(3), b) && g < 2
    requires FreeGroups(t, s)[g] == {} && |FreeGroups(t, s)[1 - g]| == 4
    ensures b.jobid == 3 && b.quality == 1 && |b.cpus| == 2 && b.primaryNode == 0
  {
    hide WellPlaced, TwoGroups, FreeIn, FreeGroups, Elements;
    var k := TwoPlaced(t, s, s', 3, b, 1 - g);
    assert k == 1 - g;
  }

  lemma AllFree(t: Topology, s: Snap)
    requires TwoGroups(t) && FreeIn(t, s) == AllCpus(t)
    ensures |FreeGroups(t, s)| == 2
    ensures forall g: nat :: g < 2 ==> FreeGroups(t, s)[g] == GroupSets(t)[g] && |FreeGroups(t, s)[g]| == 4
    ensures |FreeIn(t, s)| >= 2
  {
    hide WellFormed, AllCpus, FreeIn, GroupSets, FreeGroups, NodeSets;
    BoardFacts(t);
    GroupInNode(t, 0);
    GroupInNode(t, 1);
    GroupsFree(t, s);
    SubsetSize(GroupSets(t)[0], AllCpus(t));
  }

  lemma FreeTotal(t: Topology, s: Snap)
    requires TwoGroups(t)
    ensures forall g: nat :: g < 2 ==> |FreeGroups(t, s)[g]| <= |FreeIn(t, s)|
  {
    hide FreeIn;
    forall g: nat | g < 2
      ensures |FreeGroups(t, s)[g]| <= |FreeIn(t, s)|
    {
      SubsetSize(FreeGroups(t, s)[g], FreeIn(t, s));
    }
  }

  lemma FreeIsInGroup(t: Topology, s: Snap, g: nat)
    requires TwoGroups(t) && g < 2
    ensures FreeGroups(t, s)[g] <= GroupSets(t)[g]
  {
  }

  lemma SameSize(A: set<nat>, B: set<nat>)
    ensures A <= B && |A| == |B| ==> A == B
  {
    if A <= B && |A| == |B| {
      SubsetSize(A, B);
      assert B == A + (B - A);
    }
  }
}
