/** Choosing NUMA nodes by descending free count until enough cores are found. */
module NodeChoice {
  import opened DisjointFamily
  import opened CpuTopology
  import opened GreedyGroups

  /** `order` lists every node once, the fullest with free cores first. */
  ghost predicate Ranked(fam: seq<set<nat>>, order: seq<nat>) {
    && Distinct(order)
    && (forall i :: 0 <= i < |order| ==> order[i] < |fam|)
    && (forall n :: 0 <= n < |fam| ==> n in order)
    && forall i, j :: 0 <= i < j < |order| ==> |fam[order[j]]| <= |fam[order[i]]|
  }

  /** The first k nodes suffice, and the first k - 1 do not. */
  ghost predicate JustEnough(fam: seq<set<nat>>, order: seq<nat>, k: nat, N: nat) {
    && 0 < k <= |order|
    && |Union(fam, Elements(order[..k - 1]))| < N <= |Union(fam, Elements(order[..k]))|
  }

  lemma PrefixIsLargest(fam: seq<set<nat>>, order: seq<nat>, k: nat)
    requires Ranked(fam, order) && k <= |order|
    ensures Elements(order[..k]) <= Elements(order) && Within(Elements(order), |fam|)
    ensures forall d, h :: d in Elements(order[..k]) && h in Elements(order) - Elements(order[..k]) ==> |fam[h]| <= |fam[d]|
  {
    assert Within(Elements(order), |fam|);
    forall d, h | d in Elements(order[..k]) && h in Elements(order) - Elements(order[..k])
      ensures |fam[h]| <= |fam[d]|
    {
      var i :| 0 <= i < k && order[i] == d;
      var j :| 0 <= j < |order| && order[j] == h;
    }
  }

  lemma DistinctFromMultiset<T>(s: seq<T>, i: nat, j: nat)
    requires i < j < |s| && s[i] == s[j]
    ensures multiset(s)[s[i]] >= 2
  {
    assert s == s[..j] + [s[j]] + s[j + 1..];
    assert s[..j][i] in multiset(s[..j]);
  }

  /** Sorting the node ids by descending free count ranks the nodes. */
  lemma SortedIsRanked(fam: seq<set<nat>>, counts: seq<int>, ids: seq<nat>, order: seq<nat>)
    requires |ids| == |fam| == |counts| && (forall i :: 0 <= i < |ids| ==> ids[i] == i && counts[i] == |fam[i]|)
    requires multiset(order) == multiset(ids)
    requires forall i, j :: 0 <= i < j < |order| ==> Key(counts, order[j]) <= Key(counts, order[i])
    ensures Ranked(fam, order)
  {
    forall i | 0 <= i < |order|
      ensures order[i] < |fam|
    {
      assert order[i] in multiset(order);
      assert order[i] in ids;
    }
    forall n | 0 <= n < |fam|
      ensures n in order
    {
      assert ids[n] in multiset(ids);
      assert n in multiset(order);
    }
    forall i, j | 0 <= i < j < |order|
      ensures order[i] != order[j]
    {
      if order[i] == order[j] {
        DistinctFromMultiset(order, i, j);
        OnceInIds(ids, order[i]);
      }
    }
  }

  lemma {:induction false} OnceInIds(ids: seq<nat>, x: nat)
    requires forall i :: 0 <= i < |ids| ==> ids[i] == i
    ensures multiset(ids)[x] <= 1
    ensures x >= |ids| ==> multiset(ids)[x] == 0
  {
    if ids != [] {
      var n := |ids| - 1;
      assert ids == ids[..n] + [ids[n]];
      OnceInIds(ids[..n], x);
    }
  }

  /** free_count of node n. */
  function Key(counts: seq<int>, n: nat): int {
    if n < |counts| then counts[n] else 0
  }

  lemma {:induction false} DistinctSize<T>(s: seq<T>)
    requires Distinct(s)
    ensures |Elements(s)| == |s|
  {
    if s != [] {
      var r := s[..|s| - 1];
      DistinctSize(r);
      assert Elements(s) == Elements(r) + {s[|s| - 1]};
    }
  }

  /** Node minimality: whatever nodes hold N free cores, there are at least k. */
  lemma FewestNodes(fam: seq<set<nat>>, order: seq<nat>, k: nat, N: nat, S: set<nat>)
    requires Disjoint(fam) && Ranked(fam, order) && JustEnough(fam, order, k, N)
    requires Within(S, |fam|) && |Union(fam, S)| >= N
    ensures |S| >= k == |Elements(order[..k])|
  {
    hide Union;
    PrefixIsLargest(fam, order, k - 1);
    DistinctSize(order[..k - 1]);
    DistinctSize(order[..k]);
    MoreThanLargest(fam, Elements(order), Elements(order[..k - 1]), S, N);
  }

  lemma UntouchedNotNeeded(fam: seq<set<nat>>, M: set<nat>, T: set<nat>, n: nat)
    requires n < |fam| && T <= Union(fam, M) && fam[n] * T == {}
    ensures T <= Union(fam, M - {n})
    ensures |T| <= |Union(fam, M - {n})|
  {
    forall c | c in T
      ensures c in Union(fam, M - {n})
    {
      var i :| i in M && i < |fam| && c in fam[i];
      assert c !in fam[n] * T;
    }
    SubsetSize(T, Union(fam, M - {n}));
  }

  /** No superfluous node: N cores out of the chosen nodes touch all of them. */
  lemma EveryNodeUsed(fam: seq<set<nat>>, order: seq<nat>, k: nat, N: nat, T: set<nat>, n: nat)
    requires Disjoint(fam) && Ranked(fam, order) && JustEnough(fam, order, k, N)
    requires T <= Union(fam, Elements(order[..k])) && |T| >= N
    requires n in Elements(order[..k]) && n < |fam|
    ensures fam[n] * T != {}
  {
    hide Union, Ranked, Elements;
    var M := Elements(order[..k]);
    if fam[n] * T == {} {
      UntouchedNotNeeded(fam, M, T, n);
      PrefixWithin(fam, order, k);
      FewestNodes(fam, order, k, N, M - {n});
    }
  }

  lemma PrefixWithin(fam: seq<set<nat>>, order: seq<nat>, k: nat)
    requires Ranked(fam, order) && k <= |order|
    ensures Within(Elements(order[..k]), |fam|)
  {
  }

  /** The nodes that contribute a CPU are exactly the chosen ones. */
  lemma ChosenAreTouched(fam: seq<set<nat>>, order: seq<nat>, k: nat, N: nat, T: set<nat>)
    requires Disjoint(fam) && Ranked(fam, order) && JustEnough(fam, order, k, N)
    requires T <= Union(fam, Elements(order[..k])) && |T| >= N
    ensures Touched(fam, T) == Elements(order[..k])
  {
    hide Union;
    var M := Elements(order[..k]);
    PrefixIsLargest(fam, order, k);
    forall n | 0 <= n < |fam|
      ensures n in M <==> fam[n] * T != {}
    {
      if n in M {
        EveryNodeUsed(fam, order, k, N, T, n);
      } else {
        TouchedByUnion(fam, M, n);
      }
    }
  }

  /** The nodes with the most free cores. */
  ghost function Fullest(fam: seq<set<nat>>): set<nat> {
    set n | 0 <= n < |fam| && forall m :: 0 <= m < |fam| ==> |fam[m]| <= |fam[n]|
  }

  /** The first `ties` nodes of the ranking have as many free cores as the first. */
  ghost predicate Tied(fam: seq<set<nat>>, order: seq<nat>, ties: nat)
    requires forall i :: 0 <= i < |order| ==> order[i] < |fam|
  {
    && 0 < ties <= |order|
    && (forall i :: 0 <= i < ties ==> |fam[order[i]]| == |fam[order[0]]|)
    && (ties < |order| ==> |fam[order[ties]]| != |fam[order[0]]|)
  }

  lemma TiedAreFullest(fam: seq<set<nat>>, order: seq<nat>, ties: nat)
    requires Ranked(fam, order) && Tied(fam, order, ties)
    ensures Fullest(fam) == Elements(order[..ties]) && |Fullest(fam)| == ties
  {
    forall n | 0 <= n < |fam|
      ensures n in Fullest(fam) <==> n in order[..ties]
    {
      assert n in order;
      var i :| 0 <= i < |order| && order[i] == n;
      if i < ties {
        assert order[..ties][i] == n;
        forall m | 0 <= m < |fam|
          ensures |fam[m]| <= |fam[n]|
        {
          assert m in order;
          var j :| 0 <= j < |order| && order[j] == m;
          assert |fam[m]| <= |fam[order[0]]|;
        }
      } else {
        assert |fam[order[i]]| <= |fam[order[ties]]| < |fam[order[0]]|;
        assert n !in order[..ties];
      }
    }
    DistinctSize(order[..ties]);
    assert Fullest(fam) == Elements(order[..ties]);
  }

  /** m is the least number of nodes that together have N free cores. */
  ghost predicate NodesNeeded(fam: seq<set<nat>>, N: nat, m: nat) {
    && (exists S: set<nat> :: Within(S, |fam|) && |Union(fam, S)| >= N && |S| == m)
    && forall S: set<nat> :: Within(S, |fam|) && |Union(fam, S)| >= N ==> m <= |S|
  }

  lemma OneNeed(fam: seq<set<nat>>, N: nat, m: nat, n: nat)
    requires NodesNeeded(fam, N, m) && NodesNeeded(fam, N, n)
    ensures m == n
  {
  }

  /** primary_node of a cross-node allocation: none for large requests, else a
      fullest node; it lies among the chosen nodes exactly when the job id, modulo
      the number of fullest nodes, is below the number of nodes that are needed. */
  ghost predicate CrossPrimary(fam: seq<set<nat>>, N: nat, large: bool, jobid: int, p: int, nodes: set<nat>) {
    if large then p == -1
    else
      && p >= 0 && p in Fullest(fam) && |Fullest(fam)| > 0
      && NodesNeeded(fam, N, |nodes|)
      && forall m: nat :: NodesNeeded(fam, N, m) ==> (p in nodes <==> jobid % |Fullest(fam)| < m)
  }

  lemma PrefixIsNeeded(fam: seq<set<nat>>, order: seq<nat>, k: nat, N: nat)
    requires Disjoint(fam) && Ranked(fam, order) && JustEnough(fam, order, k, N)
    ensures NodesNeeded(fam, N, k) && |Elements(order[..k])| == k
  {
    hide Union;
    PrefixIsLargest(fam, order, k);
    FewestNodes(fam, order, k, N, Elements(order[..k]));
    assert Within(Elements(order[..k]), |fam|) && |Union(fam, Elements(order[..k]))| >= N;
    forall S: set<nat> | Within(S, |fam|) && |Union(fam, S)| >= N
      ensures k <= |S|
    {
      FewestNodes(fam, order, k, N, S);
    }
  }

  lemma PrimaryFromTies(fam: seq<set<nat>>, order: seq<nat>, ties: nat, jobid: int, k: nat, N: nat)
    requires Ranked(fam, order) && Tied(fam, order, ties) && Disjoint(fam) && JustEnough(fam, order, k, N)
    ensures CrossPrimary(fam, N, false, jobid, order[jobid % ties], Elements(order[..k]))
  {
    TiedAreFullest(fam, order, ties);
    PrefixIsNeeded(fam, order, k, N);
    forall m: nat | NodesNeeded(fam, N, m)
      ensures m == k
    {
      OneNeed(fam, N, m, k);
    }
    hide NodesNeeded;
    var j := jobid % ties;
    assert order[..ties][j] == order[j];
    DistinctSize(order[..k]);
    if j < k {
      assert order[..k][j] == order[j];
    }
  }

  /** Enough free cores overall, so some prefix of the ranking is just enough. */
  lemma PrefixJustEnough(fam: seq<set<nat>>, order: seq<nat>, k: nat, N: nat)
    requires k <= |order| && N > 0
    requires k > 0 ==> |Union(fam, Elements(order[..k - 1]))| < N
    requires |Union(fam, Elements(order[..k]))| >= N
    ensures JustEnough(fam, order, k, N)
  {
    assert Union(fam, {}) == {} && Elements(order[..0]) == {};
  }

  lemma PrefixGrows(fam: seq<set<nat>>, order: seq<nat>, i: nat)
    requires Disjoint(fam) && Ranked(fam, order) && i < |order|
    ensures Elements(order[..i + 1]) == Elements(order[..i]) + {order[i]}
    ensures |Union(fam, Elements(order[..i + 1]))| == |Union(fam, Elements(order[..i]))| + |fam[order[i]]|
  {
    hide Union;
    assert order[..i + 1] == order[..i] + [order[i]];
    assert order[i] !in order[..i];
    UnionAdd(fam, Elements(order[..i]), order[i]);
  }
}
