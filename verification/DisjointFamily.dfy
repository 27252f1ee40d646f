/** Families of pairwise disjoint finite sets, indexed by position.
    The free CPUs of the core groups form one such family, the free CPUs of the
    NUMA nodes another, and the CPUs of the live allocations a third, so that
    "how many cores do these groups hold" is the size of one union. */
module DisjointFamily {

  ghost predicate Disjoint(fam: seq<set<nat>>) {
    forall i, j :: 0 <= i < j < |fam| ==> fam[i] !! fam[j]
  }

  /** Everything held by the members of `fam` whose index is in `S`. */
  ghost function Union(fam: seq<set<nat>>, S: set<nat>): set<nat> {
    set i, c | i in S && i < |fam| && c in fam[i] :: c
  }

  ghost predicate Within(S: set<nat>, n: nat) {
    forall i :: i in S ==> i < n
  }

  /** The indices 0, ..., n - 1. */
  ghost function Below(n: nat): (S: set<nat>)
    ensures forall i :: i in S <==> 0 <= i < n
  {
    if n == 0 then {} else Below(n - 1) + {n - 1}
  }

  lemma SubsetSize<T>(A: set<T>, B: set<T>)
    requires A <= B
    ensures |A| <= |B|
    ensures |B - A| == |B| - |A|
  {
    assert B == A + (B - A);
  }

  lemma UnionAdd(fam: seq<set<nat>>, S: set<nat>, x: nat)
    requires Disjoint(fam) && x < |fam| && x !in S
    ensures Union(fam, S + {x}) == Union(fam, S) + fam[x]
    ensures Union(fam, S) !! fam[x]
    ensures |Union(fam, S + {x})| == |Union(fam, S)| + |fam[x]|
  {
    assert Union(fam, S + {x}) == Union(fam, S) + fam[x];
    assert Union(fam, S) !! fam[x];
  }

  lemma UnionRemove(fam: seq<set<nat>>, S: set<nat>, x: nat)
    requires Disjoint(fam) && x < |fam| && x in S
    ensures |Union(fam, S - {x})| == |Union(fam, S)| - |fam[x]|
  {
    UnionAdd(fam, S - {x}, x);
    assert S - {x} + {x} == S;
  }

  lemma UnionMonotone(fam: seq<set<nat>>, S: set<nat>, R: set<nat>)
    requires S <= R
    ensures Union(fam, S) <= Union(fam, R)
    ensures |Union(fam, S)| <= |Union(fam, R)|
  {
    SubsetSize(Union(fam, S), Union(fam, R));
  }

  lemma SomethingLeft(D: set<nat>, S: set<nat>, x: nat) returns (y: nat)
    requires |S| <= |D| && x in S && x !in D
    ensures y in D && y !in S
  {
    if D <= S {
      SubsetSize(D, S - {x});
    }
    y :| y in D && y !in S;
  }

  /** Swapping a member for one that is at least as large loses nothing. */
  lemma Exchange(fam: seq<set<nat>>, S: set<nat>, x: nat, y: nat)
    requires Disjoint(fam) && x < |fam| && y < |fam| && |fam[x]| <= |fam[y]|
    requires x in S && y !in S
    ensures |S - {x} + {y}| == |S|
    ensures |Union(fam, S)| <= |Union(fam, S - {x} + {y})|
  {
    UnionRemove(fam, S, x);
    UnionAdd(fam, S - {x}, y);
  }

  /** When every member of `D` is at least as large as every other member of the
      domain, no equally small selection holds more. */
  lemma {:induction false} LargestHoldMost(fam: seq<set<nat>>, dom: set<nat>, D: set<nat>, S: set<nat>)
    requires Disjoint(fam) && Within(dom, |fam|)
    requires D <= dom && S <= dom && |S| <= |D|
    requires forall d, h :: d in D && h in dom - D ==> |fam[h]| <= |fam[d]|
    ensures |Union(fam, S)| <= |Union(fam, D)|
    decreases |S - D|
  {
    if S - D == {} {
      UnionMonotone(fam, S, D);
    } else {
      var x :| x in S - D;
      var y := SomethingLeft(D, S, x);
      Exchange(fam, S, x, y);
      assert (S - {x} + {y}) - D == (S - D) - {x};
      LargestHoldMost(fam, dom, D, S - {x} + {y});
    }
  }

  /** If the |D| largest members hold less than `need`, then every selection
      that holds `need` has more than |D| members. */
  lemma MoreThanLargest(fam: seq<set<nat>>, dom: set<nat>, D: set<nat>, S: set<nat>, need: nat)
    requires Disjoint(fam) && Within(dom, |fam|)
    requires D <= dom && S <= dom
    requires forall d, h :: d in D && h in dom - D ==> |fam[h]| <= |fam[d]|
    requires |Union(fam, D)| < need <= |Union(fam, S)|
    ensures |S| >= |D| + 1
  {
    if |S| <= |D| {
      LargestHoldMost(fam, dom, D, S);
    }
  }

  /** How many members of `free` each of the sets holds. */
  ghost function Cards(sets: seq<set<nat>>, free: set<nat>): (counts: seq<int>)
    ensures |counts| == |sets|
  {
    seq(|sets|, i requires 0 <= i < |sets| => |sets[i] * free|)
  }

  lemma CardsAfterTake(sets: seq<set<nat>>, free: set<nat>, i: nat, taken: set<nat>)
    requires Disjoint(sets) && i < |sets|
    requires taken <= sets[i] * free
    ensures Cards(sets, free - taken) == Cards(sets, free)[i := Cards(sets, free)[i] - |taken|]
  {
    assert sets[i] * (free - taken) == sets[i] * free - taken;
    SubsetSize(taken, sets[i] * free);
    forall j | 0 <= j < |sets| && j != i
      ensures sets[j] * (free - taken) == sets[j] * free
    {
      assert sets[j] !! sets[i];
    }
  }

  /** Giving back is the inverse of taking. */
  lemma CardsAfterGive(sets: seq<set<nat>>, free: set<nat>, i: nat, c: nat)
    requires Disjoint(sets) && i < |sets|
    requires c in sets[i] && c !in free
    ensures Cards(sets, free + {c}) == Cards(sets, free)[i := Cards(sets, free)[i] + 1]
  {
    assert sets[i] * (free + {c}) == sets[i] * free + {c};
    forall j | 0 <= j < |sets| && j != i
      ensures sets[j] * (free + {c}) == sets[j] * free
    {
      assert sets[j] !! sets[i];
    }
  }

  ghost function Cut(sets: seq<set<nat>>, free: set<nat>): (fam: seq<set<nat>>)
    ensures |fam| == |sets|
    ensures forall i :: 0 <= i < |fam| ==> fam[i] == sets[i] * free
  {
    seq(|sets|, i requires 0 <= i < |sets| => sets[i] * free)
  }

  lemma CutDisjoint(sets: seq<set<nat>>, free: set<nat>)
    requires Disjoint(sets)
    ensures Disjoint(Cut(sets, free))
  {
    var fam := Cut(sets, free);
    forall i, j | 0 <= i < j < |fam|
      ensures fam[i] !! fam[j]
    {
      assert sets[i] !! sets[j];
    }
  }
}
