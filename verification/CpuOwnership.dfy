/** Allocation records and the owner map they describe. */
module CpuOwnership {
  import opened DisjointFamily
  import opened CpuTopology
  import opened GreedyGroups

  /** struct CpuAlloc; `count` is |cpus|. The node bitmap is a set of node ids,
      which is what an int bitmap holds for fewer than 31 nodes. */
  datatype CpuAlloc = CpuAlloc(
    jobid: int,
    cpus: seq<nat>,
    primaryNode: int,
    memNodes: set<nat>,
    error: bool,
    quality: nat)

  /** What calloc leaves in a new record. */
  function NewAlloc(jobid: int): CpuAlloc {
    CpuAlloc(jobid, [], 0, {}, false, 0)
  }

  /** The owner map after the CPUs `T` were given the owner `v`. */
  ghost function Assign(o: seq<int>, T: set<nat>, v: int): (o': seq<int>)
    ensures |o'| == |o|
    ensures forall c :: 0 <= c < |o| ==> o'[c] == if c in T then v else o[c]
  {
    seq(|o|, c requires 0 <= c < |o| => if c in T then v else o[c])
  }

  lemma AssignTwice(o: seq<int>, T: set<nat>, U: set<nat>, v: int)
    ensures Assign(Assign(o, T, v), U, v) == Assign(o, T + U, v)
  {
  }

  /** Giving one more free CPU of the list to the job. */
  lemma GrabOne(t: Topology, o: seq<int>, T: set<nat>, v: int, cpus: seq<nat>, i: nat, a: CpuAlloc, b: CpuAlloc)
    requires v != 0 && i < |cpus| && cpus[i] < |o| && cpus[i] in AllCpus(t)
    requires Assign(o, T, v)[cpus[i]] == 0 && T <= Elements(cpus) * Free(t, o)
    requires Grew(a, b, T)
    ensures Assign(o, T, v)[cpus[i] := v] == Assign(o, T + {cpus[i]}, v)
    ensures T + {cpus[i]} <= Elements(cpus) * Free(t, o) && cpus[i] !in T
    ensures Grew(a, b.(cpus := b.cpus + [cpus[i]]), T + {cpus[i]})
  {
    assert cpus[i] !in T;
    assert cpus[i] in Free(t, o) && cpus[i] in Elements(cpus);
    GrewOne(a, b, T, cpus[i]);
  }

  lemma FreeAfterAssign(t: Topology, o: seq<int>, T: set<nat>, v: int)
    requires v != 0
    ensures Free(t, Assign(o, T, v)) == Free(t, o) - T
  {
  }

  /** The record `a` after it received the CPUs `T`. */
  ghost predicate Grew(a: CpuAlloc, b: CpuAlloc, T: set<nat>) {
    && b == a.(cpus := b.cpus, error := b.error, quality := b.quality)
    && Elements(b.cpus) == Elements(a.cpus) + T
    && |b.cpus| == |a.cpus| + |T|
  }

  lemma GrewMore(a: CpuAlloc, b: CpuAlloc, c: CpuAlloc, T: set<nat>, U: set<nat>)
    requires Grew(a, b, T) && Grew(b, c, U) && T !! U
    ensures Grew(a, c, T + U)
  {
  }

  lemma GrewOne(a: CpuAlloc, b: CpuAlloc, T: set<nat>, c: nat)
    requires Grew(a, b, T) && c !in T
    ensures Grew(a, b.(cpus := b.cpus + [c]), T + {c})
  {
    assert Elements(b.cpus + [c]) == Elements(b.cpus) + {c};
  }

  lemma ElementsWithin(ids: seq<nat>, n: nat)
    requires forall i :: 0 <= i < |ids| ==> ids[i] < n
    ensures Within(Elements(ids), n)
  {
  }

  lemma {:induction false} DistinctIfCounted<T>(s: seq<T>)
    requires |Elements(s)| == |s|
    ensures Distinct(s)
  {
    if s != [] {
      var r := s[..|s| - 1];
      var x := s[|s| - 1];
      assert Elements(s) == Elements(r) + {x};
      ElementsSize(r);
      DistinctIfCounted(r);
    }
  }

  lemma {:induction false} ElementsSize<T>(s: seq<T>)
    ensures |Elements(s)| <= |s|
    ensures Distinct(s) ==> |Elements(s)| == |s|
  {
    if s != [] {
      var r := s[..|s| - 1];
      var x := s[|s| - 1];
      assert Elements(s) == Elements(r) + {x};
      ElementsSize(r);
    }
  }

  function Min(a: int, b: int): int {
    if a <= b then a else b
  }

  lemma TakenIsMinimum(A: set<nat>, free: set<nat>, T: set<nat>, N: nat)
    requires T <= A * free && |T| <= N
    requires |T| < N ==> A * (free - T) == {}
    ensures |T| == Min(N, |A * free|)
  {
    SubsetSize(T, A * free);
    if |T| < N {
      assert A * free <= T by {
        forall c | c in A * free
          ensures c in T
        {
          assert c !in A * (free - T);
        }
      }
      SubsetSize(A * free, T);
    }
  }

  lemma TookEverything(A: set<nat>, T: set<nat>)
    requires T <= A && |T| >= |A|
    ensures T == A
  {
    SubsetSize(T, A);
    assert A == T + (A - T);
  }

  lemma LeftAfterTake(A: set<nat>, free: set<nat>, T: set<nat>)
    requires T <= A * free
    ensures |A * (free - T)| > 0 <==> T != A * free
  {
    assert A * (free - T) == A * free - T;
    SubsetSize(T, A * free);
    if |T| >= |A * free| {
      TookEverything(A * free, T);
    }
  }
}
