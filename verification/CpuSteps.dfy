/** Steps of the allocator on snapshots of its arrays. */
module CpuSteps {
  import opened DisjointFamily
  import opened CpuTopology
  import opened GreedyGroups
  import opened CpuOwnership

  /** cpu_owner and the free_count fields at one moment. */
  datatype Snap = Snap(owner: seq<int>, groupFree: seq<int>, nodeFree: seq<int>)

  ghost function FreeIn(t: Topology, s: Snap): set<nat> {
    Free(t, s.owner)
  }

  /** The state in which the cached counts are those of the owner map. */
  ghost function Counted(t: Topology, owner: seq<int>): Snap {
    Snap(owner, Cards(GroupSets(t), Free(t, owner)), Cards(NodeSets(t), Free(t, owner)))
  }

  /** The owner map and the cached counts agree. */
  ghost predicate Consistent(t: Topology, s: Snap) {
    s == Counted(t, s.owner) && |s.owner| == t.maxOsCpu
  }

  ghost function FreeGroups(t: Topology, s: Snap): (fam: seq<set<nat>>)
    ensures |fam| == |t.groups|
  {
    Cut(GroupSets(t), FreeIn(t, s))
  }

  ghost function FreeNodes(t: Topology, s: Snap): (fam: seq<set<nat>>)
    ensures |fam| == |t.nodes|
  {
    Cut(NodeSets(t), FreeIn(t, s))
  }

  /** From s to s' exactly the CPUs T went from free to the job of `a`, and the
      counts followed. */
  ghost predicate Taken(t: Topology, s: Snap, s': Snap, a: CpuAlloc, b: CpuAlloc, T: set<nat>) {
    && T <= FreeIn(t, s)
    && s' == Counted(t, Assign(s.owner, T, a.jobid))
    && Grew(a, b, T)
  }

  lemma TakenKeeps(t: Topology, s: Snap, s': Snap, a: CpuAlloc, b: CpuAlloc, T: set<nat>)
    requires Consistent(t, s) && Taken(t, s, s', a, b, T) && a.jobid != 0
    ensures Consistent(t, s') && FreeIn(t, s') == FreeIn(t, s) - T
  {
    FreeAfterAssign(t, s.owner, T, a.jobid);
  }

  lemma TakenMore(t: Topology, s: Snap, s1: Snap, s2: Snap, a: CpuAlloc, b: CpuAlloc, c: CpuAlloc, T: set<nat>, U: set<nat>)
    requires Taken(t, s, s1, a, b, T) && Taken(t, s1, s2, b, c, U) && a.jobid != 0
    ensures Taken(t, s, s2, a, c, T + U)
    ensures |T + U| == |T| + |U|
  {
    FreeAfterAssign(t, s.owner, T, a.jobid);
    AssignTwice(s.owner, T, U, a.jobid);
    GrewMore(a, b, c, T, U);
  }

  /** The effect of take_from_group: as many of the group's free CPUs as there
      are, but no more than N; a group left with free CPUs costs one quality point. */
  ghost predicate TookFrom(t: Topology, s: Snap, s': Snap, g: nat, N: nat, a: CpuAlloc, b: CpuAlloc, T: set<nat>)
    requires g < |t.groups|
  {
    && Taken(t, s, s', a, b, T)
    && T <= FreeGroups(t, s)[g]
    && |T| == Min(N, |FreeGroups(t, s)[g]|)
    && b.error == a.error
    && b.quality == a.quality + if T == FreeGroups(t, s)[g] then 0 else 1
  }

  lemma TookFromKeeps(t: Topology, s: Snap, s': Snap, g: nat, N: nat, a: CpuAlloc, b: CpuAlloc, T: set<nat>)
    requires g < |t.groups| && Consistent(t, s) && TookFrom(t, s, s', g, N, a, b, T) && a.jobid != 0
    ensures Consistent(t, s') && b.jobid == a.jobid && |T| <= N
  {
    hide Consistent;
    TakenKeeps(t, s, s', a, b, T);
  }

  /** The state between two rounds of group selection: the groups of D are
      drained, they are the largest candidates, and nothing else was taken. */
  ghost predicate Searching(t: Topology, s: Snap, s1: Snap, ids: set<nat>, a: CpuAlloc, b: CpuAlloc, T: set<nat>, D: set<nat>) {
    && Consistent(t, s)
    && Taken(t, s, s1, a, b, T)
    && b.error == a.error && b.quality == a.quality && a.jobid != 0
    && Selection(FreeGroups(t, s), ids, T, D)
  }

  /** While searching, a cached count is zero for a drained group and untouched otherwise. */
  lemma CountsWhileSearching(t: Topology, s: Snap, s1: Snap, ids: set<nat>, a: CpuAlloc, b: CpuAlloc, T: set<nat>, D: set<nat>)
    requires WellFormed(t) && Searching(t, s, s1, ids, a, b, T, D)
    ensures Disjoint(FreeGroups(t, s)) && |s1.groupFree| == |t.groups|
    ensures forall h :: 0 <= h < |t.groups| ==> s1.groupFree[h] == if h in D then 0 else |FreeGroups(t, s)[h]|
    ensures forall h :: 0 <= h < |t.groups| ==> FreeGroups(t, s1)[h] == if h in D then {} else FreeGroups(t, s)[h]
  {
    TakenKeeps(t, s, s1, a, b, T);
    GroupsDisjoint(t);
    CutDisjoint(GroupSets(t), FreeIn(t, s));
    CountsAfterDrain(GroupSets(t), FreeIn(t, s), T, D);
    forall h | 0 <= h < |t.groups|
      ensures FreeGroups(t, s1)[h] == if h in D then {} else FreeGroups(t, s)[h]
    {
      LeftAfterDrain(GroupSets(t), FreeIn(t, s), T, D, h);
    }
  }

  /** The group with the largest cached count is a largest undrained candidate. */
  lemma LargestCount(t: Topology, s: Snap, s1: Snap, ids: set<nat>, a: CpuAlloc, b: CpuAlloc, T: set<nat>, D: set<nat>, g: nat)
    requires WellFormed(t) && Searching(t, s, s1, ids, a, b, T, D)
    requires g in ids && |s1.groupFree| == |t.groups|
    requires 0 < s1.groupFree[g] && forall h :: h in ids ==> s1.groupFree[h] <= s1.groupFree[g]
    ensures g !in D && FreeGroups(t, s1)[g] == FreeGroups(t, s)[g] && |FreeGroups(t, s)[g]| == s1.groupFree[g]
    ensures Selection(FreeGroups(t, s), ids, T + FreeGroups(t, s)[g], D + {g})
  {
    CountsWhileSearching(t, s, s1, ids, a, b, T, D);
    DrainOneMore(FreeGroups(t, s), ids, T, D, g);
  }

  lemma SearchGoesOn(t: Topology, s: Snap, s1: Snap, s2: Snap, ids: set<nat>, a: CpuAlloc, b: CpuAlloc, c: CpuAlloc,
                     T: set<nat>, U: set<nat>, D: set<nat>, g: nat, remaining: nat)
    requires WellFormed(t) && Searching(t, s, s1, ids, a, b, T, D) && a.jobid != 0
    requires g in ids && |s1.groupFree| == |t.groups| && g < |t.groups| && 0 < s1.groupFree[g] < remaining
    requires forall h :: h in ids ==> s1.groupFree[h] <= s1.groupFree[g]
    requires TookFrom(t, s1, s2, g, remaining, b, c, U)
    ensures Searching(t, s, s2, ids, a, c, T + U, D + {g})
    ensures |T + U| == |T| + |U| && 0 < |U| < remaining
  {
    LargestCount(t, s, s1, ids, a, b, T, D, g);
    TookEverything(FreeGroups(t, s1)[g], U);
    TakenMore(t, s, s1, s2, a, b, c, T, U);
  }

  /** The group with the smallest sufficient count is a best fit. */
  lemma BestCount(t: Topology, s: Snap, s1: Snap, ids: set<nat>, a: CpuAlloc, b: CpuAlloc, T: set<nat>, D: set<nat>, g: nat, U: set<nat>)
    requires WellFormed(t) && Searching(t, s, s1, ids, a, b, T, D)
    requires g in ids && |s1.groupFree| == |t.groups| && 0 < |U| <= s1.groupFree[g]
    requires forall h :: h in ids && s1.groupFree[h] >= |U| ==> s1.groupFree[g] <= s1.groupFree[h]
    requires U <= FreeGroups(t, s1)[g]
    ensures FreeGroups(t, s1)[g] == FreeGroups(t, s)[g]
    ensures Outcome(FreeGroups(t, s), ids, T + U, D, g, U)
  {
    CountsWhileSearching(t, s, s1, ids, a, b, T, D);
  }

  lemma SearchEnds(t: Topology, s: Snap, s1: Snap, s2: Snap, ids: set<nat>, a: CpuAlloc, b: CpuAlloc, c: CpuAlloc,
                   T: set<nat>, U: set<nat>, D: set<nat>, g: nat, remaining: nat)
    requires WellFormed(t) && Searching(t, s, s1, ids, a, b, T, D) && a.jobid != 0
    requires g in ids && g < |t.groups| && |s1.groupFree| == |t.groups| && 0 < remaining <= s1.groupFree[g]
    requires forall h :: h in ids && s1.groupFree[h] >= remaining ==> s1.groupFree[g] <= s1.groupFree[h]
    requires TookFrom(t, s1, s2, g, remaining, b, c, U)
    ensures Outcome(FreeGroups(t, s), ids, T + U, D, g, U)
    ensures |U| == remaining && |T + U| == |T| + |U|
    ensures Taken(t, s, s2, a, c, T + U)
    ensures c.quality == a.quality + if U == FreeGroups(t, s)[g] then 0 else 1
  {
    assert s1.groupFree[g] == |FreeGroups(t, s1)[g]|;
    BestCount(t, s, s1, ids, a, b, T, D, g, U);
    TakenMore(t, s, s1, s2, a, b, c, T, U);
  }

  lemma SearchFails(t: Topology, s: Snap, s1: Snap, ids: set<nat>, a: CpuAlloc, b: CpuAlloc, T: set<nat>, D: set<nat>)
    requires WellFormed(t) && Searching(t, s, s1, ids, a, b, T, D)
    requires |s1.groupFree| == |t.groups| && forall h :: h in ids ==> s1.groupFree[h] <= 0
    ensures T == Union(FreeGroups(t, s), ids)
  {
    CountsWhileSearching(t, s, s1, ids, a, b, T, D);
    AllDrained(FreeGroups(t, s), ids, T, D);
  }

  /** A finished selection, whichever groups it went through. */
  ghost predicate Selected(fam: seq<set<nat>>, ids: set<nat>, T: set<nat>, fragments: nat) {
    Within(ids, |fam|) &&
    exists D: set<nat>, last: nat, P: set<nat> :: 
      Outcome(fam, ids, T, D, last, P) && last < |fam| && fragments == if P == fam[last] then 0 else 1
  }

  /** The effect of alloc_from_groups: with enough free cores exactly N of them,
      selected as `Outcome` says; otherwise all of them and an error. */
  ghost predicate GroupsAllocated(t: Topology, s: Snap, s': Snap, N: nat, ids: set<nat>, a: CpuAlloc, b: CpuAlloc, T: set<nat>)
  {
    && Taken(t, s, s', a, b, T)
    && b.quality >= a.quality
    && if N == 0 then T == {} && b == a
       else if |Union(FreeGroups(t, s), ids)| >= N then
         |T| == N && b.error == a.error && Selected(FreeGroups(t, s), ids, T, b.quality - a.quality)
       else
         T == Union(FreeGroups(t, s), ids) && b.error && b.quality == a.quality
  }

  /** One round picks the best fit, or else the largest candidate. */
  ghost predicate Picked(groupFree: seq<int>, remaining: nat, ids: set<nat>, g: nat) {
    && g in ids && Within(ids, |groupFree|)
    && if groupFree[g] >= remaining then
         forall h :: h in ids && groupFree[h] >= remaining ==> groupFree[g] <= groupFree[h]
       else
         0 < groupFree[g] && forall h :: h in ids ==> groupFree[h] <= groupFree[g]
  }

  /** Between rounds the search is still on, or the allocation is finished. */
  ghost predicate Progress(t: Topology, s: Snap, s1: Snap, N: nat, remaining: nat, ids: set<nat>, a: CpuAlloc, b: CpuAlloc, T: set<nat>, D: set<nat>)
  {
    if remaining == 0 then GroupsAllocated(t, s, s1, N, ids, a, b, T)
    else remaining + |T| == N && Searching(t, s, s1, ids, a, b, T, D)
  }

  lemma NothingTaken(t: Topology, s: Snap, a: CpuAlloc)
    requires Consistent(t, s)
    ensures Taken(t, s, s, a, a, {})
  {
    assert Assign(s.owner, {}, a.jobid) == s.owner;
  }

  lemma SearchStarts(t: Topology, s: Snap, N: nat, ids: set<nat>, a: CpuAlloc)
    requires Consistent(t, s) && Within(ids, |t.groups|) && a.jobid != 0
    ensures Progress(t, s, s, N, N, ids, a, a, {}, {})
  {
    NothingTaken(t, s, a);
  }

  lemma OutcomeFits(fam: seq<set<nat>>, ids: set<nat>, T: set<nat>, D: set<nat>, last: nat, P: set<nat>)
    requires Within(ids, |fam|) && Outcome(fam, ids, T, D, last, P)
    ensures |T| <= |Union(fam, ids)|
  {
    assert Union(fam, D) <= Union(fam, ids);
    assert P <= Union(fam, ids);
    SubsetSize(T, Union(fam, ids));
  }

  lemma LastRound(t: Topology, s: Snap, s1: Snap, s2: Snap, N: nat, remaining: nat, ids: set<nat>,
                  a: CpuAlloc, b: CpuAlloc, c: CpuAlloc, T: set<nat>, D: set<nat>, U: set<nat>, g: nat)
    requires WellFormed(t) && remaining > 0 && Progress(t, s, s1, N, remaining, ids, a, b, T, D) && a.jobid != 0
    requires Picked(s1.groupFree, remaining, ids, g) && |s1.groupFree| == |t.groups| && g < |t.groups| && s1.groupFree[g] >= remaining
    requires TookFrom(t, s1, s2, g, remaining, b, c, U)
    ensures |U| == remaining && GroupsAllocated(t, s, s2, N, ids, a, c, T + U)
  {
    hide WellFormed, Taken, Grew, Consistent, Outcome, Drains, LargestFirst;
    SearchEnds(t, s, s1, s2, ids, a, b, c, T, U, D, g, remaining);
    OutcomeFits(FreeGroups(t, s), ids, T + U, D, g, U);
  }

  /** Every round takes something and leads to the next round or to the end. */
  lemma Advance(t: Topology, s: Snap, s1: Snap, s2: Snap, N: nat, remaining: nat, left: int, ids: set<nat>,
                a: CpuAlloc, b: CpuAlloc, c: CpuAlloc, T: set<nat>, D: set<nat>, U: set<nat>, g: nat)
    returns (T': set<nat>)
    requires WellFormed(t) && remaining > 0 && a.jobid != 0
    requires Progress(t, s, s1, N, remaining, ids, a, b, T, D)
    requires Picked(s1.groupFree, remaining, ids, g) && |s1.groupFree| == |t.groups| && g < |t.groups|
    requires TookFrom(t, s1, s2, g, remaining, b, c, U) && left == remaining - |U|
    ensures 0 <= left < remaining
    ensures exists D': set<nat> :: Progress(t, s, s2, N, left, ids, a, c, T', D')
  {
    hide WellFormed, Taken, Grew, Consistent, Outcome, Drains, LargestFirst, Selected;
    T' := T + U;
    if s1.groupFree[g] >= remaining {
      LastRound(t, s, s1, s2, N, remaining, ids, a, b, c, T, D, U, g);
    } else {
      SearchGoesOn(t, s, s1, s2, ids, a, b, c, T, U, D, g, remaining);
    }
    assert Progress(t, s, s2, N, left, ids, a, c, T', D + {g});
  }

  lemma Shortfall(t: Topology, s: Snap, s1: Snap, N: nat, remaining: nat, ids: set<nat>, a: CpuAlloc, b: CpuAlloc, T: set<nat>, D: set<nat>)
    requires WellFormed(t) && remaining > 0
    requires Progress(t, s, s1, N, remaining, ids, a, b, T, D)
    requires Within(ids, |t.groups|) && |s1.groupFree| == |t.groups|
    requires forall h :: h in ids ==> s1.groupFree[h] <= 0
    ensures GroupsAllocated(t, s, s1, N, ids, a, b.(error := true), T)
  {
    SearchFails(t, s, s1, ids, a, b, T, D);
  }

  lemma GroupCountAfterTake(t: Topology, free: set<nat>, g: nat, T: set<nat>)
    requires WellFormed(t) && g < |t.groups| && T <= GroupSets(t)[g] * free
    ensures Cards(GroupSets(t), free - T) == Cards(GroupSets(t), free)[g := Cards(GroupSets(t), free)[g] - |T|]
  {
    hide WellFormed;
    GroupsDisjoint(t);
    CardsAfterTake(GroupSets(t), free, g, T);
  }

  lemma NodeCountAfterTake(t: Topology, free: set<nat>, g: nat, T: set<nat>)
    requires WellFormed(t) && g < |t.groups| && T <= GroupSets(t)[g] * free
    ensures t.groups[g].node < |t.nodes|
    ensures Cards(NodeSets(t), free - T) ==
            Cards(NodeSets(t), free)[t.groups[g].node := Cards(NodeSets(t), free)[t.groups[g].node] - |T|]
  {
    hide WellFormed, Union;
    NodesDisjoint(t);
    GroupInNode(t, g);
    CardsAfterTake(NodeSets(t), free, t.groups[g].node, T);
  }

  /** Lowering the counts of one group and its node is what taking from it needs. */
  lemma CountedAfterTake(t: Topology, s: Snap, g: nat, T: set<nat>, v: int)
    requires WellFormed(t) && Consistent(t, s) && g < |t.groups| && v != 0
    requires T <= FreeGroups(t, s)[g]
    ensures t.groups[g].node < |s.nodeFree|
    ensures Counted(t, Assign(s.owner, T, v)) ==
            Snap(Assign(s.owner, T, v), s.groupFree[g := s.groupFree[g] - |T|],
                 s.nodeFree[t.groups[g].node := s.nodeFree[t.groups[g].node] - |T|])
  {
    hide WellFormed, Free, GroupSets, NodeSets, Cards, Cut, Assign;
    var free := FreeIn(t, s);
    assert T <= GroupSets(t)[g] * free;
    GroupCountAfterTake(t, free, g, T);
    NodeCountAfterTake(t, free, g, T);
    FreeAfterAssign(t, s.owner, T, v);
    assert Free(t, Assign(s.owner, T, v)) == free - T;
  }

  /** The scan stops with N CPUs or with none left in the group. */
  lemma ScanTookFrom(t: Topology, s: Snap, s': Snap, g: nat, N: nat, a: CpuAlloc, b: CpuAlloc, T: set<nat>)
    requires WellFormed(t) && Consistent(t, s) && g < |t.groups| && a.jobid != 0
    requires Taken(t, s, s', a, b, T) && b.error == a.error
    requires T <= FreeGroups(t, s)[g] && |T| <= N
    requires |T| < N ==> forall i :: 0 <= i < |t.groups[g].cpus| ==>
               t.groups[g].cpus[i] < |s'.owner| && s'.owner[t.groups[g].cpus[i]] != 0
    requires b.quality == a.quality + if s'.groupFree[g] > 0 then 1 else 0
    ensures TookFrom(t, s, s', g, N, a, b, T)
  {
    TakenKeeps(t, s, s', a, b, T);
    NothingFree(t, g, s'.owner);
    TakenIsMinimum(GroupSets(t)[g], FreeIn(t, s), T, N);
    LeftAfterTake(GroupSets(t)[g], FreeIn(t, s), T);
  }

  ghost function Zeros(n: nat): (o: seq<int>) {
    seq(n, i => 0)
  }

  /** The state right after start-up. */
  ghost function InitialSnap(t: Topology): Snap {
    Counted(t, Zeros(t.maxOsCpu))
  }

  lemma ZerosAllFree(t: Topology)
    requires WellFormed(t)
    ensures Free(t, Zeros(t.maxOsCpu)) == AllCpus(t)
  {
    forall c | c in AllCpus(t)
      ensures c in Free(t, Zeros(t.maxOsCpu))
    {
      var g := HomeGroup(t, c);
    }
  }

  lemma InitialCounts(t: Topology, groupFree: seq<int>, nodeFree: seq<int>)
    requires WellFormed(t) && CoresStated(t) && |groupFree| == |t.groups| && |nodeFree| == |t.nodes|
    requires forall g :: 0 <= g < |t.groups| ==> groupFree[g] == |t.groups[g].cpus|
    requires forall n :: 0 <= n < |t.nodes| ==> nodeFree[n] == t.nodeCores[n]
    ensures Snap(Zeros(t.maxOsCpu), groupFree, nodeFree) == InitialSnap(t)
  {
    hide Zeros, Union, Free;
    ZerosAllFree(t);
    AllFree(t);
    forall g | 0 <= g < |t.groups|
      ensures |Elements(t.groups[g].cpus)| == |t.groups[g].cpus|
    {
      ElementsSize(t.groups[g].cpus);
    }
    assert groupFree == Cards(GroupSets(t), AllCpus(t));
    assert nodeFree == Cards(NodeSets(t), AllCpus(t));
  }

  lemma FreeAfterRelease(t: Topology, o: seq<int>, c: nat)
    requires c in AllCpus(t) && c < |o|
    ensures Free(t, o[c := 0]) == Free(t, o) + {c}
  {
  }

  /** Giving one CPU back raises the counts of its group and node by one. */
  lemma CountedAfterGive(t: Topology, s: Snap, g: nat, c: nat)
    requires WellFormed(t) && Consistent(t, s) && g < |t.groups|
    requires c in GroupSets(t)[g] && c < |s.owner| && s.owner[c] != 0
    ensures t.groups[g].node < |s.nodeFree|
    ensures Counted(t, s.owner[c := 0]) ==
            Snap(s.owner[c := 0], s.groupFree[g := s.groupFree[g] + 1],
                 s.nodeFree[t.groups[g].node := s.nodeFree[t.groups[g].node] + 1])
  {
    hide WellFormed, GroupSets, NodeSets, Cards, Union;
    GroupsDisjoint(t);
    NodesDisjoint(t);
    GroupInNode(t, g);
    FreeAfterRelease(t, s.owner, c);
    assert c !in FreeIn(t, s);
    CardsAfterGive(GroupSets(t), FreeIn(t, s), g, c);
    CardsAfterGive(NodeSets(t), FreeIn(t, s), t.groups[g].node, c);
  }

  /** Giving one free CPU to a job lowers them by one. */
  lemma CountedAfterOccupy(t: Topology, s: Snap, g: nat, c: nat, v: int)
    requires WellFormed(t) && Consistent(t, s) && g < |t.groups| && v != 0
    requires c in GroupSets(t)[g] && c < |s.owner| && s.owner[c] == 0
    ensures t.groups[g].node < |s.nodeFree|
    ensures Counted(t, s.owner[c := v]) ==
            Snap(s.owner[c := v], s.groupFree[g := s.groupFree[g] - 1],
                 s.nodeFree[t.groups[g].node := s.nodeFree[t.groups[g].node] - 1])
  {
    hide WellFormed, GroupSets, NodeSets, Cards, Union;
    GroupInNode(t, g);
    assert Assign(s.owner, {c}, v) == s.owner[c := v];
    assert c in FreeGroups(t, s)[g];
    CountedAfterTake(t, s, g, {c}, v);
  }

  lemma AssignPrefix(o: seq<int>, cpus: seq<nat>, i: nat, v: int)
    requires i < |cpus| && cpus[i] < |o|
    ensures Assign(o, Elements(cpus[..i]), v)[cpus[i] := v] == Assign(o, Elements(cpus[..i + 1]), v)
  {
    assert cpus[..i + 1] == cpus[..i] + [cpus[i]];
  }

  lemma AssignNone(o: seq<int>, cpus: seq<nat>, v: int)
    ensures Assign(o, Elements(cpus[..0]), v) == o
  {
  }
}
