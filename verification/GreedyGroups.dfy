/** What picking groups largest-first, with a best fit at the end, achieves. */
module GreedyGroups {
  import opened DisjointFamily

  ghost function Touched(fam: seq<set<nat>>, T: set<nat>): set<nat> {
    set g | 0 <= g < |fam| && fam[g] * T != {}
  }

  /** The groups a selection `T` empties. */
  ghost predicate Drains(fam: seq<set<nat>>, T: set<nat>, D: set<nat>) {
    && Within(D, |fam|)
    && T == Union(fam, D)
    && forall d :: d in D ==> fam[d] != {}
  }

  /** Every group of `D` is at least as large as every other candidate. */
  ghost predicate LargestFirst(fam: seq<set<nat>>, ids: set<nat>, D: set<nat>)
    requires Within(ids, |fam|)
  {
    D <= ids && forall d, h :: d in D && h in ids - D ==> |fam[h]| <= |fam[d]|
  }

  /** A selection under way: T is what the groups of D held. */
  ghost predicate Selection(fam: seq<set<nat>>, ids: set<nat>, T: set<nat>, D: set<nat>) {
    Within(ids, |fam|) && Drains(fam, T, D) && LargestFirst(fam, ids, D)
  }

  /** A finished selection: the groups of `D` are emptied, largest first, and the
      part `P` still missing comes from the tightest group that can supply it. */
  ghost predicate Outcome(fam: seq<set<nat>>, ids: set<nat>, T: set<nat>, D: set<nat>, last: nat, P: set<nat>)
    requires Within(ids, |fam|)
  {
    && LargestFirst(fam, ids, D)
    && (forall d :: d in D ==> fam[d] != {})
    && last in ids && last !in D
    && P != {} && P <= fam[last]
    && T == Union(fam, D) + P
    && forall h :: h in ids - D && |fam[h]| >= |P| ==> |fam[last]| <= |fam[h]|
  }

  /** A selection that one candidate can supply lies in the tightest such candidate. */
  ghost predicate TightFit(fam: seq<set<nat>>, ids: set<nat>, T: set<nat>) {
    forall h: nat :: h in ids && h < |fam| && |fam[h]| >= |T| ==>
      exists g: nat :: g in ids && g < |fam| && T <= fam[g] && |fam[g]| <= |fam[h]|
  }

  lemma OutcomeTight(fam: seq<set<nat>>, ids: set<nat>, T: set<nat>, D: set<nat>, last: nat, P: set<nat>)
    requires Disjoint(fam) && Within(ids, |fam|) && Outcome(fam, ids, T, D, last, P)
    ensures TightFit(fam, ids, T)
  {
    forall h: nat | h in ids && h < |fam| && |fam[h]| >= |T|
      ensures exists g: nat :: g in ids && g < |fam| && T <= fam[g] && |fam[g]| <= |fam[h]|
    {
      OneSuffices(fam, ids, T, D, last, P, h);
      assert Union(fam, D) == {};
      assert T == P && h in ids - D;
      assert T <= fam[last];
    }
  }

  /** If one candidate can supply all of T, nothing was drained before it. */
  lemma OneSuffices(fam: seq<set<nat>>, ids: set<nat>, T: set<nat>, D: set<nat>, last: nat, P: set<nat>, h: nat)
    requires Disjoint(fam) && Within(ids, |fam|) && Outcome(fam, ids, T, D, last, P)
    requires h in ids && |fam[h]| >= |T|
    ensures D == {}
  {
    if d: nat :| d in D {
      DrainedIsPart(fam, ids, T, D, last, P, d);
      if h in D {
        DrainedIsPart(fam, ids, T, D, last, P, h);
      }
    }
  }

  lemma ExactMember(fam: seq<set<nat>>, ids: set<nat>, T: set<nat>, h: nat) returns (g: nat)
    requires TightFit(fam, ids, T) && h in ids && h < |fam| && |fam[h]| == |T|
    ensures g in ids && g < |fam| && T == fam[g]
  {
    g :| g in ids && g < |fam| && T <= fam[g] && |fam[g]| <= |fam[h]|;
    SubsetSize(T, fam[g]);
    assert fam[g] == T + (fam[g] - T);
  }

  lemma DrainedIsPart(fam: seq<set<nat>>, ids: set<nat>, T: set<nat>, D: set<nat>, last: nat, P: set<nat>, d: nat)
    requires Disjoint(fam) && Within(ids, |fam|) && Outcome(fam, ids, T, D, last, P) && d in D
    ensures |fam[d]| < |T|
  {
    TouchedByUnion(fam, D, last);
    TouchedByUnion(fam, D, d);
    assert fam[d] !! P;
    assert fam[d] + P <= T;
    SubsetSize(fam[d] + P, T);
    assert |fam[d] + P| == |fam[d]| + |P|;
  }

  lemma TouchedByUnion(fam: seq<set<nat>>, D: set<nat>, g: nat)
    requires Disjoint(fam) && g < |fam|
    ensures g in D ==> fam[g] * Union(fam, D) == fam[g]
    ensures g !in D ==> fam[g] !! Union(fam, D)
  {
    if g !in D {
      UnionAdd(fam, D, g);
    }
  }

  lemma TouchedByOutcome(fam: seq<set<nat>>, ids: set<nat>, T: set<nat>, D: set<nat>, last: nat, P: set<nat>, g: nat)
    requires Disjoint(fam) && Within(ids, |fam|) && Outcome(fam, ids, T, D, last, P) && g < |fam|
    ensures g in D ==> fam[g] != {} && fam[g] * T == fam[g]
    ensures fam[last] * T == P
    ensures g !in D && g != last ==> fam[g] * T == {}
  {
    TouchedByUnion(fam, D, g);
    TouchedByUnion(fam, D, last);
    if g !in D && g != last {
      assert fam[g] !! fam[last];
    }
  }

  lemma OutcomeTouches(fam: seq<set<nat>>, ids: set<nat>, T: set<nat>, D: set<nat>, last: nat, P: set<nat>)
    requires Disjoint(fam) && Within(ids, |fam|) && Outcome(fam, ids, T, D, last, P)
    ensures Touched(fam, T) == D + {last}
    ensures |T| == |Union(fam, D)| + |P|
  {
    hide Union;
    UnionAdd(fam, D, last);
    assert Union(fam, D) !! P;
    forall g | 0 <= g < |fam|
      ensures fam[g] * T != {} <==> g in D + {last}
    {
      TouchedByOutcome(fam, ids, T, D, last, P, g);
    }
    assert D <= ids && forall g :: g in ids ==> g < |fam|;
  }

  /** Greedy optimality: no selection of candidate groups that holds as many
      cores as were taken has fewer groups. */
  lemma FewestGroups(fam: seq<set<nat>>, ids: set<nat>, T: set<nat>, D: set<nat>, last: nat, P: set<nat>, S: set<nat>)
    requires Disjoint(fam) && Within(ids, |fam|) && Outcome(fam, ids, T, D, last, P)
    requires S <= ids && |Union(fam, S)| >= |T|
    ensures |Touched(fam, T)| <= |S|
  {
    OutcomeTouches(fam, ids, T, D, last, P);
    MoreThanLargest(fam, ids, D, S, |T|);
    assert |D + {last}| == |D| + 1;
  }

  /** Fragmentation: at most one touched group keeps free cores. */
  lemma AtMostOneFragment(fam: seq<set<nat>>, ids: set<nat>, T: set<nat>, D: set<nat>, last: nat, P: set<nat>)
    requires Disjoint(fam) && Within(ids, |fam|) && Outcome(fam, ids, T, D, last, P)
    ensures forall g :: g in Touched(fam, T) && fam[g] - T != {} ==> g == last
    ensures fam[last] - T == fam[last] - P
  {
    OutcomeTouches(fam, ids, T, D, last, P);
    TouchedByOutcome(fam, ids, T, D, last, P, last);
    forall g | g in D
      ensures fam[g] - T == {}
    {
      TouchedByOutcome(fam, ids, T, D, last, P, g);
    }
  }

  /** Emptying the largest remaining group keeps the drained groups the largest. */
  lemma DrainOneMore(fam: seq<set<nat>>, ids: set<nat>, T: set<nat>, D: set<nat>, g: nat)
    requires Disjoint(fam) && Within(ids, |fam|)
    requires Drains(fam, T, D) && LargestFirst(fam, ids, D)
    requires g in ids - D && fam[g] != {}
    requires forall h :: h in ids - D ==> |fam[h]| <= |fam[g]|
    ensures Drains(fam, T + fam[g], D + {g}) && LargestFirst(fam, ids, D + {g})
    ensures |T + fam[g]| == |T| + |fam[g]|
  {
    hide Union;
    UnionAdd(fam, D, g);
  }

  /** What is left of group h once the groups of D are drained. */
  lemma LeftAfterDrain(sets: seq<set<nat>>, free: set<nat>, T: set<nat>, D: set<nat>, h: nat)
    requires Disjoint(sets) && h < |sets| && Drains(Cut(sets, free), T, D)
    ensures sets[h] * (free - T) == if h in D then {} else Cut(sets, free)[h]
  {
    CutDisjoint(sets, free);
    TouchedByUnion(Cut(sets, free), D, h);
    assert sets[h] * (free - T) == Cut(sets, free)[h] - T;
  }

  lemma CountsAfterDrain(sets: seq<set<nat>>, free: set<nat>, T: set<nat>, D: set<nat>)
    requires Disjoint(sets) && Drains(Cut(sets, free), T, D)
    ensures forall h :: 0 <= h < |sets| ==>
              Cards(sets, free - T)[h] == if h in D then 0 else |Cut(sets, free)[h]|
  {
    forall h | 0 <= h < |sets|
      ensures Cards(sets, free - T)[h] == if h in D then 0 else |Cut(sets, free)[h]|
    {
      LeftAfterDrain(sets, free, T, D, h);
    }
  }

  /** Once nothing is left anywhere, everything has been taken. */
  lemma AllDrained(fam: seq<set<nat>>, ids: set<nat>, T: set<nat>, D: set<nat>)
    requires Disjoint(fam) && Within(ids, |fam|) && Drains(fam, T, D) && D <= ids
    requires forall h :: h in ids - D ==> fam[h] == {}
    ensures T == Union(fam, ids)
  {
  }
}
