/** The machine as tools/gen_topology.py describes it: core groups that partition
    the CPUs and NUMA nodes that partition the groups. */
module CpuTopology {
  import opened DisjointFamily

  datatype Group = Group(node: nat, cpus: seq<nat>)

  datatype Topology = Topology(
    groups: seq<Group>,
    nodes: seq<seq<nat>>,      // the group ids of each node
    nodeCores: seq<nat>,       // num_cores of each node
    maxOsCpu: nat,
    maxCoresPerGroup: nat)

  ghost predicate Distinct<T>(s: seq<T>) {
    forall i, j :: 0 <= i < j < |s| ==> s[i] != s[j]
  }

  ghost function Elements<T>(s: seq<T>): set<T> {
    set x | x in s
  }

  /** What the generator emits: every CPU in one group, every group in one node. */
  ghost predicate WellFormed(t: Topology) {
    && (forall g :: 0 <= g < |t.groups| ==>
          && t.groups[g].node < |t.nodes|
          && Distinct(t.groups[g].cpus)
          && g in t.nodes[t.groups[g].node])
    && (forall g, i :: 0 <= g < |t.groups| && 0 <= i < |t.groups[g].cpus| ==> t.groups[g].cpus[i] < t.maxOsCpu)
    && (forall g, h, c :: 0 <= g < h < |t.groups| && c in t.groups[g].cpus ==> c !in t.groups[h].cpus)
    && (forall n :: 0 <= n < |t.nodes| ==> Distinct(t.nodes[n]))
    && (forall n, i :: 0 <= n < |t.nodes| && 0 <= i < |t.nodes[n]| ==>
          t.nodes[n][i] < |t.groups| && t.groups[t.nodes[n][i]].node == n)
    && |t.nodes| < 31
  }

  ghost function AllCpus(t: Topology): set<nat> {
    set g, c | 0 <= g < |t.groups| && c in t.groups[g].cpus :: c
  }

  /** The CPUs nobody owns: owner 0. */
  ghost function Free(t: Topology, owner: seq<int>): set<nat> {
    set c | c in AllCpus(t) && c < |owner| && owner[c] == 0
  }

  /** The CPU set of each group, and of each node. */
  ghost function GroupSets(t: Topology): (sets: seq<set<nat>>)
    ensures |sets| == |t.groups|
    ensures forall g :: 0 <= g < |sets| ==> sets[g] == Elements(t.groups[g].cpus)
  {
    seq(|t.groups|, g requires 0 <= g < |t.groups| => Elements(t.groups[g].cpus))
  }

  ghost function NodeSets(t: Topology): (sets: seq<set<nat>>)
    ensures |sets| == |t.nodes|
    ensures forall n :: 0 <= n < |sets| ==> sets[n] == Union(GroupSets(t), Elements(t.nodes[n]))
  {
    seq(|t.nodes|, n requires 0 <= n < |t.nodes| => Union(GroupSets(t), Elements(t.nodes[n])))
  }

  /** num_cores of a node is the number of its CPUs. */
  ghost predicate CoresStated(t: Topology) {
    |t.nodeCores| == |t.nodes| && forall n :: 0 <= n < |t.nodes| ==> t.nodeCores[n] == |NodeSets(t)[n]|
  }

  lemma GroupsDisjoint(t: Topology)
    requires WellFormed(t)
    ensures Disjoint(GroupSets(t))
  {
  }

  lemma OneNode(t: Topology, m: nat, n: nat, c: nat)
    requires WellFormed(t) && m < |t.nodes| && n < |t.nodes|
    requires c in NodeSets(t)[m] && c in NodeSets(t)[n]
    ensures m == n
  {
    var gs := GroupSets(t);
    GroupsDisjoint(t);
    var g :| g in t.nodes[m] && g < |gs| && c in gs[g];
    var h :| h in t.nodes[n] && h < |gs| && c in gs[h];
  }

  lemma NodesDisjoint(t: Topology)
    requires WellFormed(t)
    ensures Disjoint(NodeSets(t))
  {
    forall m, n, c | 0 <= m < |t.nodes| && 0 <= n < |t.nodes| && c in NodeSets(t)[m] && c in NodeSets(t)[n]
      ensures m == n
    {
      OneNode(t, m, n, c);
    }
  }

  lemma GroupInNode(t: Topology, g: nat)
    requires WellFormed(t) && g < |t.groups|
    ensures t.groups[g].node < |t.nodes|
    ensures GroupSets(t)[g] <= NodeSets(t)[t.groups[g].node]
    ensures GroupSets(t)[g] <= AllCpus(t)
  {
    var n := t.groups[g].node;
    assert g in Elements(t.nodes[n]);
  }

  lemma GroupCpusKnown(t: Topology, g: nat)
    requires WellFormed(t) && g < |t.groups|
    ensures forall i :: 0 <= i < |t.groups[g].cpus| ==>
              t.groups[g].cpus[i] < t.maxOsCpu && t.groups[g].cpus[i] in AllCpus(t)
  {
    forall i | 0 <= i < |t.groups[g].cpus|
      ensures t.groups[g].cpus[i] in AllCpus(t)
    {
      assert t.groups[g].cpus[i] in t.groups[g].cpus;
    }
  }

  /** A group whose CPUs all have an owner has nothing free. */
  lemma NothingFree(t: Topology, g: nat, owner: seq<int>)
    requires WellFormed(t) && g < |t.groups| && |owner| == t.maxOsCpu
    ensures (forall i :: 0 <= i < |t.groups[g].cpus| ==> owner[t.groups[g].cpus[i]] != 0)
              ==> GroupSets(t)[g] * Free(t, owner) == {}
  {
    forall c | c in GroupSets(t)[g] * Free(t, owner)
      ensures exists i :: 0 <= i < |t.groups[g].cpus| && owner[t.groups[g].cpus[i]] == 0
    {
      var i :| 0 <= i < |t.groups[g].cpus| && t.groups[g].cpus[i] == c;
    }
  }

  ghost function GroupsOf(t: Topology, nodes: set<nat>): set<nat> {
    set n, g | n in nodes && n < |t.nodes| && g in t.nodes[n] :: g
  }

  lemma GroupHeldByNode(t: Topology, free: set<nat>, nodes: set<nat>, c: nat)
    requires WellFormed(t)
    requires c in Union(Cut(GroupSets(t), free), GroupsOf(t, nodes))
    ensures c in Union(Cut(NodeSets(t), free), nodes)
  {
    hide WellFormed;
    var gf, nf := Cut(GroupSets(t), free), Cut(NodeSets(t), free);
    var g :| g in GroupsOf(t, nodes) && g < |gf| && c in gf[g];
    var n :| n in nodes && n < |t.nodes| && g in t.nodes[n];
    assert g in Elements(t.nodes[n]) && c in GroupSets(t)[g];
    assert c in NodeSets(t)[n];
    assert c in nf[n];
  }

  lemma NodeHeldByGroup(t: Topology, free: set<nat>, nodes: set<nat>, c: nat)
    requires c in Union(Cut(NodeSets(t), free), nodes)
    ensures c in Union(Cut(GroupSets(t), free), GroupsOf(t, nodes))
  {
    var gf, nf := Cut(GroupSets(t), free), Cut(NodeSets(t), free);
    var n :| n in nodes && n < |nf| && c in nf[n];
    var g :| g in t.nodes[n] && g < |t.groups| && c in GroupSets(t)[g];
    assert c in gf[g];
  }

  /** The groups of some nodes hold exactly what the nodes hold. */
  lemma NodesHoldGroups(t: Topology, free: set<nat>, nodes: set<nat>)
    requires WellFormed(t)
    ensures Union(Cut(GroupSets(t), free), GroupsOf(t, nodes)) == Union(Cut(NodeSets(t), free), nodes)
  {
    hide WellFormed, Union;
    forall c: nat
      ensures c in Union(Cut(NodeSets(t), free), nodes) <==> c in Union(Cut(GroupSets(t), free), GroupsOf(t, nodes))
    {
      if c in Union(Cut(NodeSets(t), free), nodes) {
        NodeHeldByGroup(t, free, nodes, c);
      }
      if c in Union(Cut(GroupSets(t), free), GroupsOf(t, nodes)) {
        GroupHeldByNode(t, free, nodes, c);
      }
    }
  }

  /** All nodes together hold all free CPUs: the sum of the node counts is the
      number of free CPUs. */
  lemma NodesHoldAll(t: Topology, free: set<nat>, nodes: set<nat>)
    requires WellFormed(t) && free <= AllCpus(t)
    requires forall n :: n in nodes <==> 0 <= n < |t.nodes|
    ensures Union(Cut(NodeSets(t), free), nodes) == free
  {
    var nf := Cut(NodeSets(t), free);
    forall c | c in free
      ensures c in Union(nf, nodes)
    {
      var g :| 0 <= g < |t.groups| && c in t.groups[g].cpus;
      GroupInNode(t, g);
      assert c in nf[t.groups[g].node];
    }
  }

  /** The group of a CPU. */
  lemma HomeGroup(t: Topology, c: nat) returns (g: nat)
    requires WellFormed(t) && c in AllCpus(t)
    ensures g < |t.groups| && c in GroupSets(t)[g] && c < t.maxOsCpu
  {
    g :| 0 <= g < |t.groups| && c in t.groups[g].cpus;
    var i :| 0 <= i < |t.groups[g].cpus| && t.groups[g].cpus[i] == c;
  }

  /** Group and node sizes, when everything is free. */
  lemma AllFree(t: Topology)
    requires WellFormed(t)
    ensures forall g :: 0 <= g < |t.groups| ==> GroupSets(t)[g] * AllCpus(t) == Elements(t.groups[g].cpus)
    ensures forall n :: 0 <= n < |t.nodes| ==> NodeSets(t)[n] * AllCpus(t) == NodeSets(t)[n]
  {
  }
}
