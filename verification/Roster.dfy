/** Who is on the active and finished lists, by id. */
module Roster {
  import opened JobRecord
  import opened SlotBooks
  import opened DependencyLedger

  ghost predicate Below(s: seq<int>, next: int) {
    forall x :: x in s ==> x < next
  }

  /** Ids are handed out once, and a job depends on smaller ids only. */
  ghost predicate OnRoster(active: seq<Job>, finished: seq<Job>, next: int) {
    && 0 < next
    && DistinctIds(active) && DistinctIds(finished)
    && (forall i :: 0 <= i < |active| ==> active[i].id < next && Below(active[i].deps, active[i].id))
    && (forall i :: 0 <= i < |finished| ==> finished[i].id < next && (finished[i].state.Finished? || finished[i].state.Skipped?))
    && (forall i, k :: 0 <= i < |active| && 0 <= k < |finished| ==> active[i].id != finished[k].id)
  }

  lemma RosterFrom(s: seq<Job>, t: seq<Job>, finished: seq<Job>, next: int)
    requires OnRoster(s, finished, next) && LinksFrom(s, t) && DistinctIds(t)
    ensures OnRoster(t, finished, next)
  {
    hide Below;
    forall k | 0 <= k < |t|
      ensures t[k].id < next && Below(t[k].deps, t[k].id)
      ensures forall q :: 0 <= q < |finished| ==> t[k].id != finished[q].id
    {
      assert Among(s, t[k]);
      var i :| 0 <= i < |s| && SameLinks(s[i], t[k]);
    }
  }

  /** Every id mentioned in the ledger has been handed out. */
  ghost predicate NamesBelow(active: seq<Job>, finished: seq<Job>, book: Book, next: int) {
    && (forall i :: 0 <= i < |active| ==> Below(active[i].notify, next))
    && (forall i :: 0 <= i < |finished| ==> Below(finished[i].notify, next))
    && (forall d :: d in book.announced ==> d < next)
    && (forall id :: id in book.awaited ==> Below(book.awaited[id], next))
  }

  lemma NamesFrom(s: seq<Job>, t: seq<Job>, finished: seq<Job>, book: Book, next: int)
    requires NamesBelow(s, finished, book, next) && LinksFrom(s, t)
    ensures NamesBelow(t, finished, book, next)
  {
    hide Below;
    forall k | 0 <= k < |t|
      ensures Below(t[k].notify, next)
    {
      assert Among(s, t[k]);
      var i :| 0 <= i < |s| && SameLinks(s[i], t[k]);
    }
  }

  lemma BelowTimes(s: seq<int>, next: int)
    requires Below(s, next)
    ensures Times(s, next) == 0
  {
    assert next !in s;
  }

  lemma NothingMentioned(active: seq<Job>, finished: seq<Job>, book: Book, next: int)
    requires OnRoster(active, finished, next) && NamesBelow(active, finished, book, next)
    ensures Unmentioned(active, finished, book, next)
  {
    hide Below, Times;
    forall i | 0 <= i < |active|
      ensures Times(active[i].notify, next) == 0
    {
      BelowTimes(active[i].notify, next);
    }
    forall i | 0 <= i < |finished|
      ensures Times(finished[i].notify, next) == 0
    {
      BelowTimes(finished[i].notify, next);
    }
    forall i | 0 <= i < |active| && active[i].id in book.awaited
      ensures Times(book.awaited[active[i].id], next) == 0
    {
      BelowTimes(book.awaited[active[i].id], next);
    }
  }

  /** The ledger and the ids it may mention. */
  ghost predicate InBalance(active: seq<Job>, finished: seq<Job>, book: Book, next: int) {
    Balanced(active, finished, book) && NamesBelow(active, finished, book, next)
  }

  lemma InBalanceFrom(s: seq<Job>, t: seq<Job>, finished: seq<Job>, book: Book, next: int)
    requires InBalance(s, finished, book, next) && LinksFrom(s, t)
    ensures InBalance(t, finished, book, next)
  {
    hide Balanced, NamesBelow, LinksFrom;
    BalancedFrom(s, t, finished, book);
    NamesFrom(s, t, finished, book, next);
  }

  // ---------- facts that callers use without the definitions ----------

  lemma EmptyRoster(next: int)
    requires 0 < next
    ensures OnRoster([], [], next) && InBalance([], [], Book(map[], map[], map[]), next)
  {
  }

  lemma RosterBelow(active: seq<Job>, finished: seq<Job>, next: int)
    requires OnRoster(active, finished, next)
    ensures forall i :: 0 <= i < |active| ==> active[i].id < next
  {
  }

  lemma PositiveIds(active: seq<Job>, finished: seq<Job>, next: int)
    requires OnRoster(active, finished, next)
    ensures 0 < next
  {
  }
}
