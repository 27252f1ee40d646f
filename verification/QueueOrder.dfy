/** The order of the queue, kept twice: in memory as the vector of active jobs and
    on disk as the order_id column of the Jobs table. */
module QueueOrder {
  import opened Qsort

  ghost predicate Distinct<T>(s: seq<T>) {
    forall i, j :: 0 <= i < j < |s| ==> s[i] != s[j]
  }

  /** No two rows share an order_id. */
  ghost predicate Injective(rows: map<int, int>) {
    forall a, b :: a in rows && b in rows && a != b ==> rows[a] != rows[b]
  }

  /** The rows of the listed jobs exist and their order_id grows along the list. */
  ghost predicate Ascending(active: seq<int>, rows: map<int, int>) {
    && (forall i :: 0 <= i < |active| ==> active[i] in rows)
    && forall i, j :: 0 <= i < j < |active| ==> rows[active[i]] < rows[active[j]]
  }

  /** The table agrees with the vector. Rows of jobs that are not active may be
      left from an earlier server; they have their own places. */
  ghost predicate Mirrors(active: seq<int>, rows: map<int, int>) {
    Injective(rows) && Ascending(active, rows)
  }

  /** Rows that no active job accounts for. */
  ghost function Orphans(active: seq<int>, rows: map<int, int>): set<int> {
    rows.Keys - Members(active)
  }

  ghost function Members(s: seq<int>): set<int> {
    set id | id in s
  }

  /** Above (below) every order_id in use. */
  ghost predicate Above(rows: map<int, int>, m: int) {
    forall id :: id in rows ==> rows[id] < m
  }

  ghost predicate Under(rows: map<int, int>, m: int) {
    forall id :: id in rows ==> m < rows[id]
  }

  function RemoveAt<T>(s: seq<T>, i: nat): seq<T>
    requires i < |s|
  {
    s[..i] + s[i + 1..]
  }

  lemma AscendingIsDistinct(active: seq<int>, rows: map<int, int>)
    requires Ascending(active, rows)
    ensures Distinct(active)
  {
  }

  /** Appending a job whose order_id lies above all others. */
  lemma MirrorPush(active: seq<int>, rows: map<int, int>, id: int, m: int)
    requires Mirrors(active, rows) && id !in active && Above(rows, m)
    ensures Mirrors(active + [id], rows[id := m])
  {
    forall k | 0 <= k < |active|
      ensures rows[id := m][active[k]] == rows[active[k]] < m
    {
      var x := active[k];
      assert x in active && x in rows;
    }
  }

  /** Prepending a job whose order_id lies below all others. */
  lemma MirrorPrepend(active: seq<int>, rows: map<int, int>, id: int, m: int)
    requires Mirrors(active, rows) && id !in active && Under(rows, m)
    ensures Mirrors([id] + active, rows[id := m])
  {
    forall k | 0 <= k < |active|
      ensures rows[id := m][active[k]] == rows[active[k]] > m
    {
      var x := active[k];
      assert x in active && x in rows;
    }
  }

  lemma MirrorRemove(active: seq<int>, rows: map<int, int>, i: nat)
    requires Mirrors(active, rows) && i < |active|
    ensures Mirrors(RemoveAt(active, i), rows) && active[i] !in RemoveAt(active, i)
    ensures Mirrors(RemoveAt(active, i), rows - {active[i]})
  {
    var r := RemoveAt(active, i);
    forall k | 0 <= k < |r|
      ensures r[k] == active[if k < i then k else k + 1] && r[k] != active[i]
    {
    }
  }

  /** Moving a job only changes its own row. */
  lemma MirrorToBack(active: seq<int>, rows: map<int, int>, i: nat, m: int)
    requires Mirrors(active, rows) && i < |active| && Above(rows, m)
    ensures Mirrors(RemoveAt(active, i) + [active[i]], rows[active[i] := m])
  {
    hide Mirrors, RemoveAt;
    MirrorRemove(active, rows, i);
    MirrorPush(RemoveAt(active, i), rows, active[i], m);
  }

  lemma MirrorToFront(active: seq<int>, rows: map<int, int>, i: nat, m: int)
    requires Mirrors(active, rows) && i < |active| && Under(rows, m)
    ensures Mirrors([active[i]] + RemoveAt(active, i), rows[active[i] := m])
  {
    hide Mirrors, RemoveAt;
    MirrorRemove(active, rows, i);
    MirrorPrepend(RemoveAt(active, i), rows, active[i], m);
  }

  lemma MirrorSwap(active: seq<int>, rows: map<int, int>, i: nat, j: nat)
    requires Mirrors(active, rows) && i < |active| && j < |active|
    ensures Mirrors(active[i := active[j]][j := active[i]],
                    rows[active[i] := rows[active[j]]][active[j] := rows[active[i]]])
  {
    var a := active[i := active[j]][j := active[i]];
    var r := rows[active[i] := rows[active[j]]][active[j] := rows[active[i]]];
    forall k | 0 <= k < |a|
      ensures a[k] in r && r[a[k]] == rows[active[k]]
    {
      if k != i && k != j {
        assert active[k] != active[i] && active[k] != active[j] by { AscendingIsDistinct(active, rows); }
      }
    }
    SwapInjective(rows, active[i], active[j]);
  }

  lemma SwapInjective(rows: map<int, int>, x: int, y: int)
    requires Injective(rows) && x in rows && y in rows
    ensures Injective(rows[x := rows[y]][y := rows[x]])
  {
  }

  // ---------- reading the table back ----------

  /** The rows sorted by order_id can be listed in one way only. */
  lemma {:induction false} OneListing(a: seq<int>, b: seq<int>, rows: map<int, int>)
    requires Ascending(a, rows) && Ascending(b, rows)
    requires forall id :: id in a <==> id in b
    ensures a == b
  {
    if b != [] {
      var y := b[0];
      assert y in b && y in a;
    }
    if a != [] {
      var x := a[0];
      assert x in a && x in b;
      assert a[0] == b[0];
      TailsAgree(a, b, rows);
      OneListing(a[1..], b[1..], rows);
      assert a == [a[0]] + a[1..] && b == [b[0]] + b[1..];
    }
  }

  lemma TailsAgree(a: seq<int>, b: seq<int>, rows: map<int, int>)
    requires Ascending(a, rows) && Ascending(b, rows) && a != [] && b != [] && a[0] == b[0]
    requires forall id :: id in a <==> id in b
    ensures Ascending(a[1..], rows) && Ascending(b[1..], rows)
    ensures forall id :: id in a[1..] <==> id in b[1..]
  {
    AscendingIsDistinct(a, rows);
    AscendingIsDistinct(b, rows);
    forall id
      ensures id in a[1..] <==> id in b[1..]
    {
      assert id in a <==> id == a[0] || id in a[1..];
      assert id in b <==> id == b[0] || id in b[1..];
      assert a[0] !in a[1..] && b[0] !in b[1..];
    }
  }

  /** The jobs of `s` that are in `keep`, in the order of `s`. */
  function Filter(s: seq<int>, keep: set<int>): seq<int> {
    if s == [] then []
    else (if s[0] in keep then [s[0]] else []) + Filter(s[1..], keep)
  }

  lemma {:induction false} FilterMembers(s: seq<int>, keep: set<int>)
    ensures forall id :: id in Filter(s, keep) <==> id in s && id in keep
  {
    if s != [] {
      FilterMembers(s[1..], keep);
      assert s == [s[0]] + s[1..];
    }
  }

  lemma {:induction false} FilterAscending(s: seq<int>, keep: set<int>, rows: map<int, int>)
    requires Ascending(s, rows)
    ensures Ascending(Filter(s, keep), rows)
  {
    if s != [] {
      FilterAscending(s[1..], keep, rows);
      FilterMembers(s[1..], keep);
      var rest := Filter(s[1..], keep);
      forall k | 0 <= k < |rest|
        ensures rows[s[0]] < rows[rest[k]]
      {
        assert rest[k] in rest;
        var i :| 0 <= i < |s[1..]| && s[1..][i] == rest[k];
        assert s[i + 1] == rest[k];
      }
    }
  }

  lemma {:induction false} FilterAll(s: seq<int>, keep: set<int>)
    requires forall id :: id in s ==> id in keep
    ensures Filter(s, keep) == s
  {
    if s != [] {
      var x := s[0];
      assert x in s && forall id :: id in s[1..] ==> id in s;
      FilterAll(s[1..], keep);
      assert s == [s[0]] + s[1..];
    }
  }

  /** A sorted listing of all rows is the queue, with the orphan rows in between. */
  lemma ListingIsQueue(active: seq<int>, rows: map<int, int>, listing: seq<int>)
    requires Mirrors(active, rows) && Ascending(listing, rows) && forall id :: id in listing <==> id in rows
    ensures Filter(listing, Members(active)) == active
    ensures Orphans(active, rows) == {} ==> listing == active
  {
    var keep := Members(active);
    FilterMembers(listing, keep);
    FilterAscending(listing, keep, rows);
    forall id
      ensures id in Filter(listing, keep) <==> id in active
    {
      if id in active {
        var i :| 0 <= i < |active| && active[i] == id;
        assert id in rows;
      }
    }
    OneListing(Filter(listing, keep), active, rows);
    if Orphans(active, rows) == {} {
      assert forall id :: id in rows ==> id !in Orphans(active, rows);
      FilterAll(listing, keep);
    }
  }

  // ---------- the operations ----------

  /** The ids still to be handed out are unused. */
  ghost predicate IdsBelow(ids: set<int>, next: int) {
    forall id :: id in ids ==> id < next
  }

  lemma IdsBelowNext(ids: set<int>, next: int)
    requires IdsBelow(ids, next - 1)
    ensures IdsBelow(ids, next)
  {
  }

  datatype Op =
    | Submit
    | Refused
    | Rewrite(id: int)
    | Leave(id: int)
    | MoveToTop(id: int)
    | Exchange(id1: int, id2: int)
    | Relegate(id: int)
    | Expired(late: set<int>)
    | RestartServer(resumable: set<int>, dead: set<int>)

  lemma RowOf(active: seq<int>, rows: map<int, int>, i: nat)
    requires Mirrors(active, rows) && i < |active|
    ensures active[i] in rows
  {
  }

  lemma AppendOrphans(active: seq<int>, keys: set<int>, id: int)
    ensures keys + {id} - Members(active + [id]) <= keys - Members(active)
  {
  }

  lemma DropOrphans(before: seq<int>, after: seq<int>, oldRows: map<int, int>, rows: map<int, int>, id: int)
    requires rows.Keys == if id in before then oldRows.Keys - {id} else oldRows.Keys
    requires id !in before ==> after == before
    requires id in before ==> exists i :: 0 <= i < |before| && before[i] == id && after == RemoveAt(before, i)
    ensures Orphans(after, rows) <= Orphans(before, oldRows)
  {
    if id in before {
      var i :| 0 <= i < |before| && before[i] == id && after == RemoveAt(before, i);
      SplitAt(before, i);
    }
  }

  lemma SplitAt(s: seq<int>, i: nat)
    requires i < |s|
    ensures Members(s) == Members(RemoveAt(s, i)) + {s[i]}
  {
    assert s == s[..i] + [s[i]] + s[i + 1..];
  }

  lemma MoveOrphans(before: seq<int>, after: seq<int>, oldRows: map<int, int>, rows: map<int, int>, id: int)
    requires rows.Keys == oldRows.Keys
    requires id !in before ==> after == before
    requires id in before ==>
      exists i :: 0 <= i < |before| && before[i] == id
        && (after == [id] + RemoveAt(before, i) || after == RemoveAt(before, i) + [id])
    ensures Orphans(after, rows) == Orphans(before, oldRows)
  {
    if id in before {
      var i :| 0 <= i < |before| && before[i] == id
        && (after == [id] + RemoveAt(before, i) || after == RemoveAt(before, i) + [id]);
      SplitAt(before, i);
      assert Members(after) == Members(RemoveAt(before, i)) + {id};
    }
  }

  lemma SwapOrphans(before: seq<int>, after: seq<int>, oldRows: map<int, int>, rows: map<int, int>, id1: int, id2: int)
    requires rows.Keys == oldRows.Keys
    requires id1 !in before || id2 !in before ==> after == before
    requires id1 in before && id2 in before ==>
      exists i, j :: 0 <= i < |before| && 0 <= j < |before| && before[i] == id1 && before[j] == id2
        && after == before[i := id2][j := id1]
    ensures Orphans(after, rows) == Orphans(before, oldRows)
  {
    if id1 in before && id2 in before {
      var i, j :| 0 <= i < |before| && 0 <= j < |before| && before[i] == id1 && before[j] == id2
        && after == before[i := id2][j := id1];
      forall x
        ensures x in after <==> x in before
      {
        if x in before {
          var k :| 0 <= k < |before| && before[k] == x;
          assert after[if k == i then j else if k == j then i else k] == x;
        }
      }
      assert Members(after) == Members(before);
    }
  }

  lemma TimeOutOrphans(before: seq<int>, after: seq<int>, oldRows: map<int, int>, rows: map<int, int>, late: set<int>)
    requires rows.Keys == oldRows.Keys
    requires after == Filter(before, Members(before) - late) + Reversed(Filter(before, late))
    ensures Orphans(after, rows) == Orphans(before, oldRows)
  {
    hide Filter, Reversed;
    FilterMembers(before, Members(before) - late);
    FilterMembers(before, late);
    ReversedMembers(Filter(before, late));
    forall id
      ensures id in after <==> id in before
    {
      assert id in before <==> id in Members(before);
    }
    assert Members(after) == Members(before);
  }

  lemma {:induction false} ReversedMembers(s: seq<int>)
    ensures forall id :: id in Reversed(s) <==> id in s
  {
    if s != [] {
      ReversedMembers(s[1..]);
      assert s == [s[0]] + s[1..];
    }
  }

  class Store {
    var active: seq<int>          // ids of active_jobs, in order
    var rows: map<int, int>       // Jobs table: jobid to order_id
    var jobids: int               // next id, stored beside the table

    ghost predicate Valid()
      reads this
    {
      Mirrors(active, rows) && IdsBelow(rows.Keys, jobids)
    }

    constructor (firstId: int)
      ensures Valid() && active == [] && rows == map[]
    {
      active, rows, jobids := [], map[], firstId;
    }

    /** findjob_idx. */
    method FindJob(id: int) returns (i: int)
      ensures i == -1 <==> id !in active
      ensures i != -1 ==> 0 <= i < |active| && active[i] == id
    {
      for k := 0 to |active|
        invariant id !in active[..k]
      {
        if active[k] == id {
          return k;
        }
      }
      return -1;
    }

    /** edit_DB: a job keeps its order_id, a new one goes behind all others. */
    method EditRow(id: int)
      modifies this`rows
      ensures if id in old(rows) then rows == old(rows)
              else rows.Keys == old(rows).Keys + {id} && Above(old(rows), rows[id]) && rows == old(rows)[id := rows[id]]
    {
      if id !in rows {
        rows := ToBottom(rows, id);
      }
    }

    /** s_newjob: the job joins the vector and the table. */
    method Enqueue() returns (id: int)
      requires Valid()
      modifies this
      ensures Valid() && id == old(jobids) && jobids == id + 1 && id !in old(rows)
      ensures active == old(active) + [id] && rows.Keys == old(rows).Keys + {id}
    {
      ghost var before := rows;
      id := jobids;
      jobids := jobids + 1;
      active := active + [id];
      EditRow(id);
      MirrorPush(old(active), before, id, rows[id]);
    }

    /** job_finished, s_remove_job of an active job, s_delete_job. */
    method Drop(id: int)
      requires Valid()
      modifies this
      ensures Valid() && rows.Keys == (if id in old(active) then old(rows).Keys - {id} else old(rows).Keys)
      ensures id !in old(active) ==> active == old(active)
      ensures id in old(active) ==>
        exists i :: 0 <= i < |old(active)| && old(active)[i] == id && active == RemoveAt(old(active), i)
    {
      var i := FindJob(id);
      if i >= 0 {
        MirrorRemove(active, rows, i);
        active := active[..i] + active[i + 1..];
        rows := rows - {id};
      }
    }

    /** s_move_urgent: to the front; an unknown id, also -1, changes nothing. */
    method Urgent(id: int)
      requires Valid()
      modifies this
      ensures Valid() && rows.Keys == old(rows).Keys
      ensures id !in old(active) ==> active == old(active)
      ensures id in old(active) ==>
        exists i :: 0 <= i < |old(active)| && old(active)[i] == id && active == [id] + RemoveAt(old(active), i)
    {
      var i := FindJob(id);
      if i >= 0 {
        var r := ToTop(rows, id);
        MirrorToFront(active, rows, i, r[id]);
        active, rows := [id] + (active[..i] + active[i + 1..]), r;
      }
    }

    /** s_requeue_job: to the back. */
    method Requeue(id: int)
      requires Valid()
      modifies this
      ensures Valid() && rows.Keys == old(rows).Keys
      ensures id !in old(active) ==> active == old(active)
      ensures id in old(active) ==>
        exists i :: 0 <= i < |old(active)| && old(active)[i] == id && active == RemoveAt(old(active), i) + [id]
    {
      var i := FindJob(id);
      if i >= 0 {
        var r := ToBottom(rows, id);
        MirrorToBack(active, rows, i, r[id]);
        active, rows := (active[..i] + active[i + 1..]) + [id], r;
      }
    }

    /** s_swap_jobs. */
    method Swap(id1: int, id2: int)
      requires Valid()
      modifies this
      ensures Valid() && rows.Keys == old(rows).Keys
      ensures id1 !in old(active) || id2 !in old(active) ==> active == old(active)
      ensures id1 in old(active) && id2 in old(active) ==>
        exists i, j :: 0 <= i < |old(active)| && 0 <= j < |old(active)| && old(active)[i] == id1 && old(active)[j] == id2
          && active == old(active)[i := id2][j := id1]
    {
      var i := FindJob(id1);
      var j := FindJob(id2);
      if i >= 0 && j >= 0 {
        MirrorSwap(active, rows, i, j);
        active := active[i := id2][j := id1];
        rows := SwapRows(rows, id1, id2);
      }
    }

    /** SELECT jobid FROM Jobs ORDER BY order_id. */
    method ReadJobIds() returns (ids: seq<int>)
      requires Valid()
      ensures Ascending(ids, rows) && forall id :: id in ids <==> id in rows
      ensures Filter(ids, Members(active)) == active
      ensures Orphans(active, rows) == {} ==> ids == active
    {
      var listing := AllKeys();
      var table := rows;
      ids := Sort(listing, (a: int, b: int) => OrderOf(table, a) <= OrderOf(table, b));
      SortedListing(rows, listing, ids);
      ListingIsQueue(active, rows, ids);
    }

    /** First half of s_check_timeout: take the late jobs out, from the back. */
    method TakeOut(late: set<int>) returns (out: seq<int>)
      requires Valid()
      modifies this`active
      ensures Waiting(active, rows, out)
      ensures active == Filter(old(active), Members(old(active)) - late)
      ensures out == Reversed(Filter(old(active), late))
    {
      hide Mirrors, Members, RemoveAt, Filter, Reversed, Waiting;
      ghost var A := active;
      ghost var keep := Members(A) - late;
      out := [];
      var i := |active|;
      NoneWaiting(active, rows, late);
      while i > 0
        invariant 0 <= i <= |A|
        invariant Waiting(active, rows, out)
        invariant active == A[..i] + Filter(A[i..], keep)
        invariant out == Reversed(Filter(A[i..], late))
      {
        i := i - 1;
        ScanBack(A, i, late);
        var id := active[i];
        if id in late {
          OneMoreWaiting(active, rows, i, out);
          RemoveMiddle(A, i, Filter(A[i + 1..], keep));
          active := active[..i] + active[i + 1..];
          out := out + [id];
        }
      }
      assert A[0..] == A;
    }

    /** Second half: append them, each below all others in the table. */
    method Append(out: seq<int>)
      requires Waiting(active, rows, out) && IdsBelow(rows.Keys, jobids)
      modifies this`active, this`rows
      ensures Valid() && rows.Keys == old(rows).Keys && active == old(active) + out
    {
      hide Mirrors;
      for k := 0 to |out|
        invariant Waiting(active, rows, out[k..]) && rows.Keys == old(rows).Keys
        invariant active == old(active) + out[..k]
      {
        var r := ToBottom(rows, out[k]);
        OneFewerWaiting(active, rows, out, k, r[out[k]]);
        active, rows := active + [out[k]], r;
      }
    }

    /** s_check_timeout. */
    method TimeOut(late: set<int>)
      requires Valid()
      modifies this
      ensures Valid() && rows.Keys == old(rows).Keys
      ensures active == Filter(old(active), Members(old(active)) - late) + Reversed(Filter(old(active), late))
    {
      hide Mirrors;
      var out := TakeOut(late);
      Append(out);
    }

    /** s_read_sqlite: jobs that can be resumed are loaded in table order; rows of
        jobs that died are deleted; other rows stay behind without a job. */
    method Restart(resumable: set<int>, dead: set<int>)
      requires Valid()
      modifies this`active, this`rows
      ensures Valid()
      ensures Members(active) == (old(rows).Keys - dead) * resumable
      ensures Orphans(active, rows) == old(rows).Keys - dead - resumable
    {
      hide Members, Ascending, Filter, Orphans;
      var ids := ReadJobIds();
      ghost var table, keep := rows, resumable - dead;
      active := [];
      RestartBegins(ids, table, keep, dead);
      for k := 0 to |ids|
        invariant rows == table - (Members(ids[..k]) * dead)
        invariant active == Filter(ids[..k], keep)
      {
        RestartStep(ids, k, table, keep, dead);
        var id := ids[k];
        if id in dead {
          rows := rows - {id};
        } else if id in resumable {
          active := active + [id];
        }
      }
      assert ids[..|ids|] == ids;
      RestartEnds(ids, table, rows, active, resumable, dead);
    }

    /** Any request that touches the order. */
    method Serve(op: Op)
      requires Valid()
      modifies this
      ensures Valid()
      ensures !op.RestartServer? ==> Orphans(active, rows) <= Orphans(old(active), old(rows))
    {
      hide Mirrors, IdsBelow;
      match op
      case Submit =>
        var id := Enqueue();
        AppendOrphans(old(active), old(rows).Keys, id);
      case Refused =>
        jobids := jobids + 1;
        IdsBelowNext(rows.Keys, jobids);
      case Rewrite(id) =>
        var i := FindJob(id);
        if i >= 0 {
          EditRow(id);
          RowOf(old(active), old(rows), i);
        }
      case Leave(id) =>
        Drop(id);
        DropOrphans(old(active), active, old(rows), rows, id);
      case MoveToTop(id) =>
        Urgent(id);
        MoveOrphans(old(active), active, old(rows), rows, id);
      case Exchange(id1, id2) =>
        Swap(id1, id2);
        SwapOrphans(old(active), active, old(rows), rows, id1, id2);
      case Relegate(id) =>
        Requeue(id);
        MoveOrphans(old(active), active, old(rows), rows, id);
      case Expired(late) =>
        TimeOut(late);
        TimeOutOrphans(old(active), active, old(rows), rows, late);
      case RestartServer(resumable, dead) =>
        Restart(resumable, dead);
    }

    /** After every run the table read back lists the queue. */
    method Run(ops: seq<Op>) returns (ids: seq<int>)
      requires Valid()
      modifies this
      ensures Valid() && Ascending(ids, rows) && forall id :: id in ids <==> id in rows
      ensures Filter(ids, Members(active)) == active
      ensures Orphans(old(active), old(rows)) == {} && (forall op :: op in ops ==> !op.RestartServer?) ==> ids == active
    {
      hide Mirrors, IdsBelow, Ascending, Filter, Orphans;
      for k := 0 to |ops|
        invariant Valid()
        invariant (forall op :: op in ops[..k] ==> !op.RestartServer?) ==>
                    Orphans(active, rows) <= Orphans(old(active), old(rows))
      {
        Serve(ops[k]);
        assert ops[k] in ops[..k + 1] && forall op :: op in ops[..k] ==> op in ops[..k + 1];
      }
      assert ops[..|ops|] == ops;
      ids := ReadJobIds();
    }

    /** The rows in whatever order the table yields them. */
    method AllKeys() returns (ids: seq<int>)
      ensures Distinct(ids) && forall id :: id in ids <==> id in rows
    {
      ids := [];
      var left: set<int> := rows.Keys;
      while left != {}
        invariant left <= rows.Keys && Distinct(ids)
        invariant forall id :: id in ids <==> id in rows && id !in left
        decreases left
      {
        var id := Pick(left);
        ids, left := ids + [id], left - {id};
      }
    }
  }

  function Reversed(s: seq<int>): seq<int> {
    if s == [] then [] else Reversed(s[1..]) + [s[0]]
  }

  /** One step of the backward scan. */
  lemma ScanBack(A: seq<int>, i: nat, late: set<int>)
    requires i < |A|
    ensures A[..i + 1] == A[..i] + [A[i]]
    ensures Filter(A[i..], Members(A) - late) ==
            (if A[i] in late then [] else [A[i]]) + Filter(A[i + 1..], Members(A) - late)
    ensures Reversed(Filter(A[i..], late)) == Reversed(Filter(A[i + 1..], late)) + (if A[i] in late then [A[i]] else [])
  {
    assert A[i..][1..] == A[i + 1..];
    var x := A[i];
    assert x in Members(A);
    if x in late {
      assert Filter(A[i..], late)[1..] == Filter(A[i + 1..], late);
    } else {
      assert Filter(A[i..], late) == Filter(A[i + 1..], late);
    }
  }

  /** Jobs taken out of the vector that still have their rows. */
  ghost predicate Waiting(active: seq<int>, rows: map<int, int>, out: seq<int>) {
    && Mirrors(active, rows)
    && Distinct(out)
    && forall k :: 0 <= k < |out| ==> out[k] !in active && out[k] in rows
  }

  lemma NoneWaiting(active: seq<int>, rows: map<int, int>, late: set<int>)
    requires Mirrors(active, rows)
    ensures Waiting(active, rows, [])
    ensures active[..|active|] + Filter(active[|active|..], Members(active) - late) == active
    ensures Reversed(Filter(active[|active|..], late)) == []
  {
  }

  lemma RemoveMiddle(A: seq<int>, i: nat, rest: seq<int>)
    requires i < |A|
    ensures var a := A[..i + 1] + rest; a[..i] + a[i + 1..] == A[..i] + rest
  {
  }

  lemma OneMoreWaiting(active: seq<int>, rows: map<int, int>, i: nat, out: seq<int>)
    requires Waiting(active, rows, out) && i < |active|
    ensures Waiting(active[..i] + active[i + 1..], rows, out + [active[i]])
  {
    MirrorRemove(active, rows, i);
    var r := RemoveAt(active, i);
    forall k | 0 <= k < |out|
      ensures out[k] !in r && out[k] != active[i]
    {
      var x := out[k];
      assert x !in active;
      assert forall j :: 0 <= j < |r| ==> r[j] == active[if j < i then j else j + 1];
    }
  }

  lemma OneFewerWaiting(active: seq<int>, rows: map<int, int>, out: seq<int>, k: nat, m: int)
    requires k < |out| && Waiting(active, rows, out[k..]) && Above(rows, m)
    ensures out[k] in rows && Waiting(active + [out[k]], rows[out[k] := m], out[k + 1..])
  {
    var left := out[k..];
    assert left[0] == out[k] && left[1..] == out[k + 1..];
    MirrorPush(active, rows, out[k], m);
    forall j | 0 <= j < |left[1..]|
      ensures left[1..][j] !in active + [out[k]]
    {
      assert left[1..][j] == left[j + 1];
    }
  }

  lemma RestartBegins(ids: seq<int>, table: map<int, int>, keep: set<int>, dead: set<int>)
    ensures table == table - (Members(ids[..0]) * dead)
    ensures Filter(ids[..0], keep) == []
  {
  }

  lemma RestartStep(ids: seq<int>, k: nat, table: map<int, int>, keep: set<int>, dead: set<int>)
    requires k < |ids|
    ensures table - (Members(ids[..k + 1]) * dead) ==
            if ids[k] in dead then table - (Members(ids[..k]) * dead) - {ids[k]} else table - (Members(ids[..k]) * dead)
    ensures Filter(ids[..k + 1], keep) == Filter(ids[..k], keep) + if ids[k] in keep then [ids[k]] else []
  {
    hide Filter;
    var id := ids[k];
    FilterSnoc(ids[..k], id, keep);
    assert ids[..k + 1] == ids[..k] + [id];
    assert Members(ids[..k + 1]) == Members(ids[..k]) + {id};
  }

  lemma RestartEnds(ids: seq<int>, table: map<int, int>, rows: map<int, int>, active: seq<int>, resumable: set<int>, dead: set<int>)
    requires Injective(table) && Ascending(ids, table) && forall id :: id in ids <==> id in table
    requires rows == table - (Members(ids) * dead) && active == Filter(ids, resumable - dead)
    ensures Mirrors(active, rows) && rows.Keys <= table.Keys
    ensures Members(active) == (table.Keys - dead) * resumable
    ensures Orphans(active, rows) == table.Keys - dead - resumable
  {
    hide Filter, Ascending, Mirrors;
    FilterMembers(ids, resumable - dead);
    forall id
      ensures id in Members(ids) <==> id in table.Keys
    {
      assert id in ids <==> id in table;
    }
    assert Members(ids) == table.Keys;
    forall id
      ensures id in Members(active) <==> id in table && id in resumable && id !in dead
    {
    }
    LoadedInOrder(ids, table, rows, resumable - dead);
  }

  lemma {:induction false} FilterSnoc(s: seq<int>, x: int, keep: set<int>)
    ensures Filter(s + [x], keep) == Filter(s, keep) + if x in keep then [x] else []
  {
    if s != [] {
      FilterSnoc(s[1..], x, keep);
      assert (s + [x])[1..] == s[1..] + [x];
    }
  }

  lemma LoadedInOrder(ids: seq<int>, table: map<int, int>, rows: map<int, int>, keep: set<int>)
    requires Ascending(ids, table) && Injective(rows)
    requires forall id :: id in rows ==> id in table && rows[id] == table[id]
    requires forall id :: id in ids && id in keep ==> id in rows
    ensures Mirrors(Filter(ids, keep), rows)
  {
    FilterAscending(ids, keep, table);
    FilterMembers(ids, keep);
    var a := Filter(ids, keep);
    forall i | 0 <= i < |a|
      ensures a[i] in rows && rows[a[i]] == table[a[i]]
    {
      var x := a[i];
      assert x in a;
    }
  }

  /** SELECT MAX(order_id): 0 on an empty table. */
  method MaxOrderId(rows: map<int, int>) returns (m: int)
    ensures rows == map[] ==> m == 0
    ensures Above(rows, m + 1)
  {
    m := 0;
    var left: set<int>, first := rows.Keys, true;
    while left != {}
      invariant left <= rows.Keys && (first <==> left == rows.Keys)
      invariant first ==> m == 0
      invariant forall id :: id in rows && id !in left ==> rows[id] <= m
      decreases left
    {
      var id := Pick(left);
      if first || rows[id] > m {
        m := rows[id];
      }
      first, left := false, left - {id};
    }
  }

  /** SELECT MIN(order_id): 0 on an empty table. */
  method MinOrderId(rows: map<int, int>) returns (m: int)
    ensures rows == map[] ==> m == 0
    ensures Under(rows, m - 1)
  {
    m := 0;
    var left: set<int>, first := rows.Keys, true;
    while left != {}
      invariant left <= rows.Keys && (first <==> left == rows.Keys)
      invariant first ==> m == 0
      invariant forall id :: id in rows && id !in left ==> m <= rows[id]
      decreases left
    {
      var id := Pick(left);
      if first || rows[id] < m {
        m := rows[id];
      }
      first, left := false, left - {id};
    }
  }

  /** A row goes behind all others; a job that has none gets one there. */
  method ToBottom(rows: map<int, int>, id: int) returns (r: map<int, int>)
    ensures id in r && r == rows[id := r[id]] && Above(rows, r[id])
  {
    var m := MaxOrderId(rows);
    r := rows[id := m + 1];
  }

  /** movetop_DB. */
  method ToTop(rows: map<int, int>, id: int) returns (r: map<int, int>)
    ensures id in r && r == rows[id := r[id]] && Under(rows, r[id])
  {
    var m := MinOrderId(rows);
    r := rows[id := m - 1];
  }

  /** swap_DB. */
  function SwapRows(rows: map<int, int>, id1: int, id2: int): map<int, int>
    requires id1 in rows && id2 in rows
  {
    rows[id1 := rows[id2]][id2 := rows[id1]]
  }

  /** The next row of an unordered scan. */
  method Pick<T(==)>(s: set<T>) returns (x: T)
    requires s != {}
    ensures x in s
  {
    x :| x in s;
  }

  function OrderOf(rows: map<int, int>, id: int): int {
    if id in rows then rows[id] else 0
  }

  lemma SortedListing(rows: map<int, int>, listing: seq<int>, ids: seq<int>)
    requires Injective(rows) && Distinct(listing) && forall id :: id in listing <==> id in rows
    requires multiset(ids) == multiset(listing)
    requires forall i, j :: 0 <= i < j < |ids| ==> OrderOf(rows, ids[i]) <= OrderOf(rows, ids[j])
    ensures Ascending(ids, rows) && forall id :: id in ids <==> id in rows
  {
    forall id
      ensures id in ids <==> id in rows
    {
      assert id in ids <==> id in multiset(ids);
      assert id in listing <==> id in multiset(listing);
    }
    PermutedDistinct(listing, ids);
  }

  lemma {:induction false} OnceEach(s: seq<int>, x: int)
    requires Distinct(s)
    ensures multiset(s)[x] <= 1
  {
    if s != [] {
      var r := s[..|s| - 1];
      OnceEach(r, x);
      assert s == r + [s[|s| - 1]];
      if x == s[|s| - 1] {
        assert x !in r;
      }
    }
  }

  lemma PermutedDistinct(s: seq<int>, r: seq<int>)
    requires Distinct(s) && multiset(s) == multiset(r)
    ensures Distinct(r)
  {
    forall i, j | 0 <= i < j < |r|
      ensures r[i] != r[j]
    {
      OnceEach(s, r[i]);
      assert r == r[..j] + [r[j]] + r[j + 1..];
      assert r[..j][i] in multiset(r[..j]);
    }
  }
}
