/** What a defragmentation achieves, turn by turn. */
module CpuRebuild {
  import opened DisjointFamily
  import opened CpuTopology
  import opened GreedyGroups
  import opened CpuOwnership
  import opened CpuSteps
  import opened CpuLedger
  import opened CpuPlacement
  import opened CpuDefrag

  // ---------- what a rebuild achieves ----------

  /** The primary node of an allocation has room for all of it. */
  ghost predicate HoldsAll(t: Topology, s: Snap, a: CpuAlloc) {
    0 <= a.primaryNode < |t.nodes| && |FreeNodes(t, s)[a.primaryNode]| >= |a.cpus|
  }

  /** The turn of a broken allocation: it goes to its primary node if that has room,
      out of as few groups as possible; else to as few nodes as possible. */
  ghost predicate Turned(t: Topology, s: Snap, s': Snap, a: CpuAlloc, b: CpuAlloc) {
    && b == a.(cpus := b.cpus, quality := b.quality, error := b.error)
    && Elements(b.cpus) <= FreeIn(t, s) && s' == Counted(t, Assign(s.owner, Elements(b.cpus), b.jobid))
    && if HoldsAll(t, s, a) then GroupPlacement(t, s, GroupsOf(t, {a.primaryNode as nat}), Elements(b.cpus), |a.cpus|, b.quality)
       else exists nodes: set<nat> ::
         && NodePlacement(t, s, nodes, Elements(b.cpus), |a.cpus|)
         && GroupPlacement(t, s, GroupsOf(t, nodes), Elements(b.cpus), |a.cpus|, b.quality)
  }

  /** The allocations of the sorted list in the order of their turns, the first
      `fits` of them on their primary nodes, and the states in between. */
  datatype Chain = Chain(sorted: seq<CpuAlloc>, turns: seq<nat>, fits: nat, snaps: seq<Snap>)

  ghost predicate Follows(t: Topology, c: Chain, B: seq<CpuAlloc>) {
    && |c.snaps| == |c.turns| + 1 && |B| == |c.sorted|
    && forall m :: 0 <= m < |c.turns| ==>
         c.turns[m] < |B| && Turned(t, c.snaps[m], c.snaps[m + 1], c.sorted[c.turns[m]], B[c.turns[m]])
  }

  ghost predicate Rising(s: seq<nat>) {
    forall i, j :: 0 <= i < j < |s| ==> s[i] < s[j]
  }

  /** A defragmentation: the list was sorted, fewest broken groups and then largest
      first. Beginning with the allocations alone that broke none, each of the others
      had its turn once, those that fitted on their primary node first. */
  ghost predicate Rebuilt(t: Topology, c: Chain, before: seq<CpuAlloc>, B: seq<CpuAlloc>, s: Snap) {
    && multiset(c.sorted) == multiset(before)
    && (forall i, j :: 0 <= i < j < |c.sorted| ==>
          || c.sorted[i].quality < c.sorted[j].quality
          || (c.sorted[i].quality == c.sorted[j].quality && |c.sorted[i].cpus| >= |c.sorted[j].cpus|))
    && Follows(t, c, B) && c.snaps[|c.turns|] == s
    && Distinct(c.turns) && (forall k: nat :: k in c.turns <==> k < |c.sorted| && c.sorted[k].quality > 0)
    && c.fits <= |c.turns| && Rising(c.turns[..c.fits]) && Rising(c.turns[c.fits..])
    && (forall m :: 0 <= m < |c.turns| ==> (m < c.fits <==> HoldsAll(t, c.snaps[m], c.sorted[c.turns[m]])))
    && Consistent(t, c.snaps[0]) && Booked(t, c.snaps[0].owner, c.sorted, Unbroken(c.sorted))
  }

  ghost function Unbroken(A: seq<CpuAlloc>): set<nat> {
    set k: nat | k < |A| && A[k].quality == 0
  }

  lemma FollowsMore(t: Topology, c: Chain, B: seq<CpuAlloc>, i: nat, b: CpuAlloc, s: Snap)
    requires Follows(t, c, B) && i < |B| && i !in c.turns && Turned(t, c.snaps[|c.turns|], s, c.sorted[i], b)
    ensures Follows(t, c.(turns := c.turns + [i], snaps := c.snaps + [s]), B[i := b])
  {
    hide Turned;
    var d := c.(turns := c.turns + [i], snaps := c.snaps + [s]);
    forall m | 0 <= m < |d.turns|
      ensures d.turns[m] < |B| && Turned(t, d.snaps[m], d.snaps[m + 1], d.sorted[d.turns[m]], B[i := b][d.turns[m]])
    {
      if m < |c.turns| {
        assert c.turns[m] in c.turns;
        assert d.turns[m] == c.turns[m] && d.snaps[m] == c.snaps[m] && d.snaps[m + 1] == c.snaps[m + 1];
      }
    }
  }

  /** Room on a node only shrinks. */
  lemma StillNoRoom(t: Topology, s: Snap, s': Snap, a: CpuAlloc)
    requires FreeIn(t, s') <= FreeIn(t, s) && !HoldsAll(t, s, a)
    ensures !HoldsAll(t, s', a)
  {
    if 0 <= a.primaryNode < |t.nodes| {
      SubsetSize(FreeNodes(t, s')[a.primaryNode], FreeNodes(t, s)[a.primaryNode]);
    }
  }

  lemma TurnedTakes(t: Topology, s: Snap, s': Snap, a: CpuAlloc, b: CpuAlloc)
    requires Turned(t, s, s', a, b) && a.jobid != 0
    ensures FreeIn(t, s') <= FreeIn(t, s)
  {
    FreeAfterAssign(t, s.owner, Elements(b.cpus), b.jobid);
  }

  lemma MovedIsTurned(t: Topology, s: Snap, s': Snap, nodes: set<nat>, a: CpuAlloc, a': CpuAlloc, b: CpuAlloc, c: CpuAlloc)
    requires Allocated(t, s, s', |a.cpus|, nodes, a', b) && a'.quality == 0 && a'.cpus == [] && a'.jobid == a.jobid
    requires Elements(c.cpus) == Elements(b.cpus) && c == a.(cpus := c.cpus, quality := b.quality, error := c.error)
    requires if HoldsAll(t, s, a) then nodes == {a.primaryNode as nat} else NodePlacement(t, s, nodes, Elements(b.cpus), |a.cpus|)
    ensures Turned(t, s, s', a, c)
  {
    hide Union, Elements, Counted, GroupPlacement, NodePlacement, HoldsAll;
  }

  // ---------- the two passes ----------

  /** The chain so far: it begins at s0 and ends at s, and the turns are distinct. */
  ghost predicate Linked(t: Topology, c: Chain, A: seq<CpuAlloc>, s0: Snap, s: Snap, B: seq<CpuAlloc>) {
    && c.sorted == A && |c.snaps| == |c.turns| + 1 && |B| == |A| && (forall m :: 0 <= m < |c.turns| ==> c.turns[m] < |A|)
    && Follows(t, c, B) && c.snaps[0] == s0 && c.snaps[|c.turns|] == s && Distinct(c.turns)
    && c.fits <= |c.turns| && Rising(c.turns[..c.fits]) && Rising(c.turns[c.fits..])
    && (forall m :: 0 <= m < |c.turns| ==> (m < c.fits <==> HoldsAll(t, c.snaps[m], A[c.turns[m]])))
  }

  /** The first pass has come to i: those that fitted have had their turn, for the
      skipped ones there is no room. */
  ghost predicate FirstPass(t: Topology, c: Chain, A: seq<CpuAlloc>, s0: Snap, s: Snap, B: seq<CpuAlloc>, skipped: seq<bool>, n: nat, i: nat) {
    && Linked(t, c, A, s0, s, B) && c.fits == |c.turns| && n <= i <= |A| == |skipped|
    && (forall k: nat :: k in c.turns <==> n <= k < i && !skipped[k])
    && (forall k :: n <= k < i && skipped[k] ==> !HoldsAll(t, s, A[k]))
  }

  ghost predicate SecondPass(t: Topology, c: Chain, A: seq<CpuAlloc>, s0: Snap, s: Snap, B: seq<CpuAlloc>, skipped: seq<bool>, n: nat, i: nat) {
    && Linked(t, c, A, s0, s, B) && n <= i <= |A| == |skipped|
    && (forall k: nat :: k in c.turns <==> n <= k < |A| && (k < i || !skipped[k]))
    && (forall k: nat :: k in c.turns[c.fits..] <==> n <= k < i && skipped[k])
    && (forall k :: i <= k < |A| && skipped[k] ==> !HoldsAll(t, s, A[k]))
  }

  lemma PassBegins(t: Topology, A: seq<CpuAlloc>, s: Snap, skipped: seq<bool>, n: nat)
    requires n <= |A| == |skipped|
    ensures FirstPass(t, Chain(A, [], 0, [s]), A, s, s, A, skipped, n, n)
  {
  }

  lemma PassSkips(t: Topology, c: Chain, A: seq<CpuAlloc>, s0: Snap, s: Snap, B: seq<CpuAlloc>, skipped: seq<bool>, n: nat, i: nat)
    requires FirstPass(t, c, A, s0, s, B, skipped, n, i) && i < |A| && !HoldsAll(t, s, A[i])
    ensures FirstPass(t, c, A, s0, s, B, skipped[i := true], n, i + 1)
  {
    hide Follows, HoldsAll;
  }

  lemma RisingMore(s: seq<nat>, i: nat)
    requires Rising(s) && forall k :: k in s ==> k < i
    ensures Rising(s + [i])
  {
    forall a, b | 0 <= a < b < |s + [i]|
      ensures (s + [i])[a] < (s + [i])[b]
    {
      if b == |s| {
        assert s[a] in s;
      }
    }
  }

  lemma LinkedFits(t: Topology, c: Chain, A: seq<CpuAlloc>, s0: Snap, s: Snap, s': Snap, B: seq<CpuAlloc>, b: CpuAlloc, i: nat) returns (d: Chain)
    requires Linked(t, c, A, s0, s, B) && c.fits == |c.turns| && i < |A| && i !in c.turns && (forall k :: k in c.turns ==> k < i)
    requires HoldsAll(t, s, A[i]) && Turned(t, s, s', A[i], b)
    ensures Linked(t, d, A, s0, s', B[i := b]) && d.fits == |d.turns| && d.turns == c.turns + [i]
  {
    hide Follows, Turned, HoldsAll, Rising;
    FollowsMoreAt(t, c, B, i, b, s');
    d := c.(turns := c.turns + [i], fits := c.fits + 1, snaps := c.snaps + [s']);
    assert c.turns[..c.fits] == c.turns && d.turns[..d.fits] == d.turns && d.turns[d.fits..] == [];
    RisingMore(c.turns, i);
    RisingNone();
    forall m | 0 <= m < |d.turns|
      ensures HoldsAll(t, d.snaps[m], A[d.turns[m]])
    {
      if m < |c.turns| {
        assert d.turns[m] == c.turns[m] && d.snaps[m] == c.snaps[m];
      }
    }
  }

  lemma RisingNone()
    ensures Rising([])
  {
  }

  lemma FollowsMoreAt(t: Topology, c: Chain, B: seq<CpuAlloc>, i: nat, b: CpuAlloc, s: Snap)
    requires Follows(t, c, B) && i < |B| && i !in c.turns && |c.snaps| == |c.turns| + 1
    requires i < |c.sorted| && Turned(t, c.snaps[|c.turns|], s, c.sorted[i], b)
    ensures forall f: nat :: Follows(t, c.(turns := c.turns + [i], fits := f, snaps := c.snaps + [s]), B[i := b])
  {
    FollowsMore(t, c, B, i, b, s);
    hide Turned;
    forall f: nat
      ensures Follows(t, c.(turns := c.turns + [i], fits := f, snaps := c.snaps + [s]), B[i := b])
    {
    }
  }

  /** An allocation for which some group of its primary node has exactly as many free
      cores as it needs, when its turn comes, breaks no group afterwards. */
  lemma ExactTurn(t: Topology, s: Snap, s': Snap, a: CpuAlloc, b: CpuAlloc, h: nat)
    requires WellFormed(t) && Turned(t, s, s', a, b) && HoldsAll(t, s, a) && |a.cpus| > 0
    requires h in GroupsOf(t, {a.primaryNode as nat}) && h < |t.groups| && |FreeGroups(t, s)[h]| == |a.cpus|
    ensures b.quality == 0
    ensures exists g: nat :: g in GroupsOf(t, {a.primaryNode as nat}) && g < |t.groups| && Elements(b.cpus) == FreeGroups(t, s)[g]
  {
    hide WellFormed, GroupPlacement, NodePlacement, Elements;
    ExactFit(t, s, GroupsOf(t, {a.primaryNode as nat}), Elements(b.cpus), |a.cpus|, b.quality, h);
  }

  lemma PassFits(t: Topology, c: Chain, A: seq<CpuAlloc>, s0: Snap, s: Snap, s': Snap, B: seq<CpuAlloc>, b: CpuAlloc, skipped: seq<bool>, n: nat, i: nat) returns (d: Chain)
    requires FirstPass(t, c, A, s0, s, B, skipped, n, i) && i < |A| && A[i].jobid != 0 && !skipped[i]
    requires HoldsAll(t, s, A[i]) && Turned(t, s, s', A[i], b)
    ensures FirstPass(t, d, A, s0, s', B[i := b], skipped, n, i + 1)
  {
    hide Linked, Turned, HoldsAll, FreeIn;
    TurnedTakes(t, s, s', A[i], b);
    d := LinkedFits(t, c, A, s0, s, s', B, b, i);
    forall k | n <= k < i + 1 && skipped[k]
      ensures !HoldsAll(t, s', A[k])
    {
      StillNoRoom(t, s, s', A[k]);
    }
  }

  lemma RestBegins(t: Topology, c: Chain, A: seq<CpuAlloc>, s0: Snap, s: Snap, B: seq<CpuAlloc>, skipped: seq<bool>, n: nat)
    requires FirstPass(t, c, A, s0, s, B, skipped, n, |A|)
    ensures SecondPass(t, c, A, s0, s, B, skipped, n, n)
  {
    hide Linked, HoldsAll;
    assert c.turns[c.fits..] == [];
  }

  lemma RestRoom(t: Topology, c: Chain, A: seq<CpuAlloc>, s0: Snap, s: Snap, B: seq<CpuAlloc>, skipped: seq<bool>, n: nat, i: nat)
    requires SecondPass(t, c, A, s0, s, B, skipped, n, i) && i < |A| && skipped[i]
    ensures !HoldsAll(t, s, A[i])
  {
  }

  lemma RestPasses(t: Topology, c: Chain, A: seq<CpuAlloc>, s0: Snap, s: Snap, B: seq<CpuAlloc>, skipped: seq<bool>, n: nat, i: nat)
    requires SecondPass(t, c, A, s0, s, B, skipped, n, i) && i < |A| && !skipped[i]
    ensures SecondPass(t, c, A, s0, s, B, skipped, n, i + 1)
  {
    hide Linked, HoldsAll;
  }

  lemma LinkedRest(t: Topology, c: Chain, A: seq<CpuAlloc>, s0: Snap, s: Snap, s': Snap, B: seq<CpuAlloc>, b: CpuAlloc, i: nat) returns (d: Chain)
    requires Linked(t, c, A, s0, s, B) && i < |A| && i !in c.turns && (forall k :: k in c.turns[c.fits..] ==> k < i)
    requires !HoldsAll(t, s, A[i]) && Turned(t, s, s', A[i], b)
    ensures Linked(t, d, A, s0, s', B[i := b]) && d.fits == c.fits && d.turns == c.turns + [i] && c.fits <= |c.turns|
  {
    hide Follows, Turned, HoldsAll, Rising;
    FollowsMoreAt(t, c, B, i, b, s');
    d := c.(turns := c.turns + [i], snaps := c.snaps + [s']);
    assert d.turns[..d.fits] == c.turns[..c.fits] && d.turns[d.fits..] == c.turns[c.fits..] + [i];
    RisingMore(c.turns[c.fits..], i);
    forall m | 0 <= m < |d.turns|
      ensures m < d.fits <==> HoldsAll(t, d.snaps[m], A[d.turns[m]])
    {
      if m < |c.turns| {
        assert d.turns[m] == c.turns[m] && d.snaps[m] == c.snaps[m];
      }
    }
  }

  lemma RestMoves(t: Topology, c: Chain, A: seq<CpuAlloc>, s0: Snap, s: Snap, s': Snap, B: seq<CpuAlloc>, b: CpuAlloc, skipped: seq<bool>, n: nat, i: nat) returns (d: Chain)
    requires SecondPass(t, c, A, s0, s, B, skipped, n, i) && i < |A| && A[i].jobid != 0 && skipped[i] && Turned(t, s, s', A[i], b)
    ensures SecondPass(t, d, A, s0, s', B[i := b], skipped, n, i + 1)
  {
    hide Linked, Turned, HoldsAll, FreeIn;
    TurnedTakes(t, s, s', A[i], b);
    d := LinkedRest(t, c, A, s0, s, s', B, b, i);
    assert d.turns[d.fits..] == c.turns[c.fits..] + [i];
    forall k | i + 1 <= k < |A| && skipped[k]
      ensures !HoldsAll(t, s', A[k])
    {
      StillNoRoom(t, s, s', A[k]);
    }
  }

  /** After the restored allocations, before the first turn. */
  lemma UnbrokenFirst(t: Topology, A: seq<CpuAlloc>, s: Snap, n: nat)
    requires Rebuilding(t, A, A, s, Below(n)) && n <= |A|
    requires (forall k :: 0 <= k < n ==> A[k].quality == 0) && forall k :: n <= k < |A| ==> A[k].quality > 0
    ensures Consistent(t, s) && Booked(t, s.owner, A, Unbroken(A))
  {
    hide Booked, Consistent;
    assert Unbroken(A) == Below(n);
  }

  lemma PassesEnd(t: Topology, c: Chain, A: seq<CpuAlloc>, s0: Snap, s: Snap, B: seq<CpuAlloc>, skipped: seq<bool>, n: nat)
    requires SecondPass(t, c, A, s0, s, B, skipped, n, |A|)
    requires (forall k :: 0 <= k < n ==> A[k].quality == 0) && forall k :: n <= k < |A| ==> A[k].quality > 0
    requires forall i, j :: 0 <= i < j < |A| ==> DefragOrder(A[i], A[j])
    requires Consistent(t, s0) && Booked(t, s0.owner, A, Unbroken(A))
    ensures Rebuilt(t, c, A, B, s)
  {
    hide Follows, HoldsAll, Consistent, Booked, Rising, Unbroken;
  }

  lemma RebuiltFrom(t: Topology, c: Chain, before: seq<CpuAlloc>, sorted: seq<CpuAlloc>, B: seq<CpuAlloc>, s: Snap)
    requires Rebuilt(t, c, sorted, B, s) && multiset(before) == multiset(sorted)
    ensures Rebuilt(t, c, before, B, s)
  {
  }

  /** Without broken allocations there is nothing to do. */
  lemma NothingBroken(t: Topology, before: seq<CpuAlloc>, sorted: seq<CpuAlloc>, s: Snap) returns (c: Chain)
    requires multiset(before) == multiset(sorted) && forall k :: 0 <= k < |sorted| ==> sorted[k].quality == 0
    requires forall i, j :: 0 <= i < j < |sorted| ==> DefragOrder(sorted[i], sorted[j])
    requires Consistent(t, s) && Ledger(t, s.owner, sorted)
    ensures Rebuilt(t, c, before, sorted, s)
  {
    hide Consistent, Booked;
    c := Chain(sorted, [], 0, [s]);
    assert Unbroken(sorted) == Below(|sorted|);
  }
}
