/** The Jobs table beside the vector of active jobs. */
module JobTable {
  import opened JobRecord
  import opened SlotBooks
  import opened Requests
  import opened QueueOrder

  function Ids(s: seq<Job>): seq<int> {
    seq(|s|, k requires 0 <= k < |s| => s[k].id)
  }

  /** The table lists the active jobs in their order. Beside their rows there are at
      most those of `orphans`, and no row has an id that is still to be handed out. */
  ghost predicate Filed(s: seq<Job>, table: map<int, int>, orphans: set<int>, next: int) {
    && Mirrors(Ids(s), table) && IdsBelow(table.Keys, next)
    && table.Keys <= Members(Ids(s)) + orphans
  }

  lemma KnownIsListed(s: seq<Job>, id: int)
    ensures id in Ids(s) <==> Known(s, id)
  {
    if Known(s, id) {
      var k :| 0 <= k < |s| && s[k].id == id;
      assert Ids(s)[k] == id;
    }
  }

  lemma NothingFiled(orphans: set<int>, next: int)
    ensures Filed([], map[], orphans, next)
  {
  }

  lemma FiledEdited(s: seq<Job>, t: seq<Job>, table: map<int, int>, orphans: set<int>, next: int)
    requires Filed(s, table, orphans, next) && |s| == |t| && forall k :: 0 <= k < |s| ==> t[k].id == s[k].id
    ensures Filed(t, table, orphans, next)
  {
    assert Ids(t) == Ids(s);
  }

  lemma FiledNext(s: seq<Job>, table: map<int, int>, orphans: set<int>, next: int)
    requires Filed(s, table, orphans, next)
    ensures Filed(s, table, orphans, next + 1)
  {
  }

  lemma FiledLater(s: seq<Job>, table: map<int, int>, orphans: set<int>, next: int, later: int)
    requires Filed(s, table, orphans, next) && next <= later
    ensures Filed(s, table, orphans, later)
  {
  }

  lemma RowKnown(s: seq<Job>, table: map<int, int>, orphans: set<int>, next: int, i: nat)
    requires Filed(s, table, orphans, next) && i < |s|
    ensures s[i].id in table && s[i].id < next
  {
    assert Ids(s)[i] in table.Keys;
  }

  lemma IdsSame(s: seq<Job>, t: seq<Job>)
    requires |s| == |t| && forall k :: 0 <= k < |s| ==> t[k].id == s[k].id
    ensures Ids(t) == Ids(s)
  {
  }

  lemma IdsMore(s: seq<Job>, y: Job)
    ensures Ids(s + [y]) == Ids(s) + [y.id]
  {
  }

  lemma IdsWithout(s: seq<Job>, i: nat)
    requires i < |s|
    ensures Ids(s[..i] + s[i + 1..]) == RemoveAt(Ids(s), i)
    ensures Members(Ids(s)) == Members(Ids(s[..i] + s[i + 1..])) + {s[i].id}
  {
    SplitAt(Ids(s), i);
  }

  /** Job i leaves the vector and its row stays. */
  lemma FiledDetached(s: seq<Job>, i: nat, table: map<int, int>, orphans: set<int>, next: int)
    requires Filed(s, table, orphans, next) && i < |s|
    ensures Filed(s[..i] + s[i + 1..], table, orphans + {s[i].id}, next)
  {
    hide Mirrors, RemoveAt, Members;
    MirrorRemove(Ids(s), table, i);
    IdsWithout(s, i);
  }

  /** Job i leaves the vector and the table. */
  lemma FiledLeft(s: seq<Job>, i: nat, table: map<int, int>, orphans: set<int>, next: int)
    requires Filed(s, table, orphans, next) && i < |s|
    ensures Filed(s[..i] + s[i + 1..], table - {s[i].id}, orphans, next)
  {
    hide Mirrors, RemoveAt, Members;
    MirrorRemove(Ids(s), table, i);
    IdsWithout(s, i);
  }

  /** The row of a job that is not active goes. */
  lemma FiledWithout(s: seq<Job>, id: int, table: map<int, int>, orphans: set<int>, next: int)
    requires Filed(s, table, orphans, next) && !Known(s, id)
    ensures Filed(s, table - {id}, orphans, next)
  {
    forall k | 0 <= k < |s|
      ensures Ids(s)[k] in table - {id}
    {
      assert Ids(s)[k] in table && s[k].id != id;
    }
  }

  /** A job joins behind the others. */
  lemma FiledJoined(s: seq<Job>, y: Job, table: map<int, int>, orphans: set<int>, next: int, m: int)
    requires Filed(s, table, orphans, next) && !Known(s, y.id) && y.id < next && Above(table, m)
    ensures Filed(s + [y], table[y.id := m], orphans, next)
  {
    assert Ids(s + [y]) == Ids(s) + [y.id];
    KnownIsListed(s, y.id);
    MirrorPush(Ids(s), table, y.id, m);
  }

  lemma FiledToBack(s: seq<Job>, i: nat, table: map<int, int>, orphans: set<int>, next: int, m: int)
    requires Filed(s, table, orphans, next) && i < |s| && Above(table, m)
    ensures Filed((s[..i] + s[i + 1..]) + [s[i]], table[s[i].id := m], orphans, next)
  {
    hide Mirrors, RemoveAt;
    var r := s[..i] + s[i + 1..];
    RowKnown(s, table, orphans, next, i);
    MirrorToBack(Ids(s), table, i, m);
    IdsWithout(s, i);
    assert Ids(r + [s[i]]) == Ids(r) + [s[i].id];
  }

  lemma FiledToFront(s: seq<Job>, i: nat, table: map<int, int>, orphans: set<int>, next: int, m: int)
    requires Filed(s, table, orphans, next) && i < |s| && Under(table, m)
    ensures Filed([s[i]] + (s[..i] + s[i + 1..]), table[s[i].id := m], orphans, next)
  {
    hide Mirrors, RemoveAt;
    var r := s[..i] + s[i + 1..];
    RowKnown(s, table, orphans, next, i);
    MirrorToFront(Ids(s), table, i, m);
    IdsWithout(s, i);
    assert Ids([s[i]] + r) == [s[i].id] + Ids(r);
  }

  lemma FiledSwapped(s: seq<Job>, i: nat, j: nat, table: map<int, int>, orphans: set<int>, next: int)
    requires Filed(s, table, orphans, next) && i < |s| && j < |s|
    ensures s[i].id in table && s[j].id in table
    ensures Filed(s[i := s[j]][j := s[i]], table[s[i].id := table[s[j].id]][s[j].id := table[s[i].id]], orphans, next)
  {
    hide Mirrors;
    var t := s[i := s[j]][j := s[i]];
    RowKnown(s, table, orphans, next, i);
    RowKnown(s, table, orphans, next, j);
    MirrorSwap(Ids(s), table, i, j);
    assert Ids(t) == Ids(s)[i := Ids(s)[j]][j := Ids(s)[i]];
    forall x | x in Ids(s)
      ensures x in Ids(t)
    {
      var k :| 0 <= k < |s| && Ids(s)[k] == x;
      assert Ids(t)[if k == i then j else if k == j then i else k] == x;
    }
  }

  /** Jobs taken out of the vector have come back. */
  lemma FiledAgain(s: seq<Job>, t: seq<Job>, table: map<int, int>, after: map<int, int>, orphans: set<int>, more: set<int>, next: int)
    requires Filed(s, table, orphans, next) && Filed(t, after, more, next) && after.Keys == table.Keys
    requires forall k :: 0 <= k < |s| ==> Known(t, s[k].id)
    ensures Filed(t, after, orphans, next)
  {
    forall x | x in Ids(s)
      ensures x in Ids(t)
    {
      var k :| 0 <= k < |s| && Ids(s)[k] == x;
      assert Known(t, s[k].id);
      var q :| 0 <= q < |t| && t[q].id == x;
      assert Ids(t)[q] == x;
    }
  }

  /** Jobs that have a row. */
  ghost predicate InTable(s: seq<Job>, table: map<int, int>) {
    forall k :: 0 <= k < |s| ==> s[k].id in table
  }

  lemma MoreInTable(s: seq<Job>, y: Job, table: map<int, int>)
    requires InTable(s, table) && y.id in table
    ensures InTable(s + [y], table)
  {
  }

  lemma NoneInTable(table: map<int, int>)
    ensures InTable([], table)
  {
  }

  lemma TableBelow(s: seq<Job>, out: seq<Job>, table: map<int, int>, orphans: set<int>, next: int)
    requires Filed(s, table, orphans, next) && InTable(out, table)
    ensures forall k :: 0 <= k < |out| ==> out[k].id < next
  {
  }

  lemma SameRows(out: seq<Job>, before: map<int, int>, after: map<int, int>)
    requires InTable(out, before) && after.Keys == before.Keys + Members(Ids(out))
    ensures after.Keys == before.Keys
  {
    forall id | id in Ids(out)
      ensures id in before
    {
      var k :| 0 <= k < |out| && Ids(out)[k] == id;
      assert out[k].id in before;
    }
  }

  /** The next job to be put back is not among those that are there. */
  lemma NextOut(s: seq<Job>, out: seq<Job>, k: nat)
    requires DistinctIds(s + out) && k < |out|
    ensures !Known(s + out[..k], out[k].id)
    ensures Members(Ids(out[..k + 1])) == Members(Ids(out[..k])) + {out[k].id}
  {
    assert (s + out)[|s| + k] == out[k];
    forall q | 0 <= q < |s| + k
      ensures (s + out[..k])[q].id != out[k].id
    {
      assert (s + out)[q] == (s + out[..k])[q];
    }
    assert Ids(out[..k + 1]) == Ids(out[..k]) + [out[k].id];
  }

  // ---------- the order after time-outs ----------

  function LateIds(s: seq<Job>, now: int): set<int> {
    set k | 0 <= k < |s| && TimedOut(s[k], now) :: s[k].id
  }

  /** Late jobs go behind the others, the last of them first. */
  ghost predicate InTurn(s: seq<Job>, t: seq<Job>, now: int) {
    Ids(t) == Filter(Ids(s), Members(Ids(s)) - LateIds(s, now)) + Reversed(Filter(Ids(s), LateIds(s, now)))
  }

  /** The scan has come down to i. */
  ghost predicate Parted(s: seq<Job>, t: seq<Job>, out: seq<Job>, i: nat, now: int) {
    && i <= |s|
    && Ids(t) == Ids(s)[..i] + Filter(Ids(s)[i..], Members(Ids(s)) - LateIds(s, now))
    && Ids(out) == Reversed(Filter(Ids(s)[i..], LateIds(s, now)))
  }

  lemma PartBegins(s: seq<Job>, now: int)
    ensures Parted(s, s, [], |s|, now)
  {
    assert Ids(s)[..|s|] == Ids(s) && Ids(s)[|s|..] == [];
  }

  lemma LateIs(s: seq<Job>, i: nat, now: int)
    requires DistinctIds(s) && i < |s|
    ensures s[i].id in LateIds(s, now) <==> TimedOut(s[i], now)
  {
    hide TimedOut;
  }

  lemma PartOn(s: seq<Job>, t: seq<Job>, out: seq<Job>, i: nat, now: int)
    requires Parted(s, t, out, i + 1, now) && DistinctIds(s) && i < |s| && !TimedOut(s[i], now)
    ensures Parted(s, t, out, i, now)
  {
    hide Filter, Reversed, Members, LateIds, TimedOut;
    LateIs(s, i, now);
    ScanBack(Ids(s), i, LateIds(s, now));
  }

  lemma PartLate(s: seq<Job>, t: seq<Job>, out: seq<Job>, i: nat, now: int, r: seq<Job>, more: seq<Job>)
    requires Parted(s, t, out, i + 1, now) && DistinctIds(s) && i < |s| && i < |t| && TimedOut(s[i], now)
    requires Ids(r) == RemoveAt(Ids(t), i) && Ids(more) == Ids(out) + [s[i].id]
    ensures Parted(s, r, more, i, now)
  {
    hide Filter, Reversed, Members, LateIds, TimedOut;
    LateIs(s, i, now);
    ScanBack(Ids(s), i, LateIds(s, now));
    RemoveMiddle(Ids(s), i, Filter(Ids(s)[i + 1..], Members(Ids(s)) - LateIds(s, now)));
  }

  lemma PartEnds(s: seq<Job>, t: seq<Job>, out: seq<Job>, now: int)
    requires Parted(s, t, out, 0, now)
    ensures InTurn(s, t + out, now)
  {
    assert Ids(s)[0..] == Ids(s) && Ids(t + out) == Ids(t) + Ids(out);
  }

  // ---------- the table read back ----------

  /** However the rows are listed by their order_id, the active jobs come in the
      order of the vector, and without orphans nothing else does. */
  ghost predicate ReadsBack(s: seq<Job>, table: map<int, int>, orphans: set<int>) {
    forall listing :: Ascending(listing, table) && (forall id :: id in listing <==> id in table) ==>
      Filter(listing, Members(Ids(s))) == Ids(s) && (orphans == {} ==> listing == Ids(s))
  }

  lemma TableIsQueue(s: seq<Job>, table: map<int, int>, orphans: set<int>, next: int)
    requires Filed(s, table, orphans, next)
    ensures ReadsBack(s, table, orphans)
  {
    forall listing | Ascending(listing, table) && forall id :: id in listing <==> id in table
      ensures Filter(listing, Members(Ids(s))) == Ids(s) && (orphans == {} ==> listing == Ids(s))
    {
      ListingIsQueue(Ids(s), table, listing);
    }
  }

  /** The rows as a new server reads them. */
  ghost predicate Listed(rows: seq<Job>, table: map<int, int>, next: int) {
    && Injective(table) && Ascending(Ids(rows), table)
    && (forall id :: id in table ==> id in Ids(rows)) && IdsBelow(table.Keys, next)
  }

  /** A started job whose process has gone: its row is deleted. */
  predicate Gone(j: Job, env: Env) {
    j.state.Running? && !Alive(env, j.pid)
  }

  function GoneIds(rows: seq<Job>, env: Env): set<int> {
    set k | 0 <= k < |rows| && Gone(rows[k], env) :: rows[k].id
  }

  lemma NothingLoaded(rows: seq<Job>, env: Env)
    ensures Loaded(rows[..0], env) == [] && GoneIds(rows[..0], env) == {}
  {
  }

  lemma GoneStep(rows: seq<Job>, k: nat, env: Env)
    requires k < |rows|
    ensures GoneIds(rows[..k + 1], env) == GoneIds(rows[..k], env) + if Gone(rows[k], env) then {rows[k].id} else {}
  {
    assert forall q :: 0 <= q < k ==> rows[..k + 1][q] == rows[..k][q] == rows[q];
  }

  /** A row that can be taken up again. */
  ghost predicate Stays(rows: seq<Job>, env: Env, id: int) {
    exists q :: 0 <= q < |rows| && rows[q].id == id && !Gone(rows[q], env)
  }

  lemma {:induction false} LoadedStays(rows: seq<Job>, env: Env)
    ensures forall k :: 0 <= k < |Loaded(rows, env)| ==> Stays(rows, env, Loaded(rows, env)[k].id)
    decreases |rows|
  {
    if rows != [] {
      var n := |rows| - 1;
      LoadedStays(rows[..n], env);
      RestoredUser(rows[n], env);
      forall k | 0 <= k < |Loaded(rows, env)|
        ensures Stays(rows, env, Loaded(rows, env)[k].id)
      {
        if k < |Loaded(rows[..n], env)| {
          var q :| 0 <= q < n && rows[..n][q].id == Loaded(rows, env)[k].id && !Gone(rows[..n][q], env);
          assert rows[q] == rows[..n][q];
        } else {
          assert rows[n].id == Loaded(rows, env)[k].id;
        }
      }
    }
  }

  /** The jobs taken up stand in table order. */
  lemma {:induction false} LoadedListed(rows: seq<Job>, env: Env, table: map<int, int>)
    requires Ascending(Ids(rows), table)
    ensures Ascending(Ids(Loaded(rows, env)), table)
    decreases |rows|
  {
    if rows != [] {
      var n := |rows| - 1;
      var t, r := Loaded(rows[..n], env), Restored(rows[n], env);
      assert Ids(rows[..n]) == Ids(rows)[..n];
      LoadedListed(rows[..n], env, table);
      assert Loaded(rows, env) == t + if r.Some? then [r.job] else [];
      if r.Some? {
        RestoredUser(rows[n], env);
        assert Ids(rows)[n] == rows[n].id && Ids(t + [r.job]) == Ids(t) + [rows[n].id];
        LoadedStays(rows[..n], env);
        hide Loaded;
        forall k | 0 <= k < |t|
          ensures table[Ids(t)[k]] < table[rows[n].id]
        {
          assert Stays(rows[..n], env, t[k].id);
          var q :| 0 <= q < n && rows[..n][q].id == t[k].id;
          assert Ids(rows)[q] == t[k].id;
        }
      } else {
        assert t + [] == t;
      }
    }
  }

  lemma StaysListed(rows: seq<Job>, env: Env, id: int, table: map<int, int>)
    requires Ascending(Ids(rows), table) && Stays(rows, env, id)
    ensures id !in GoneIds(rows, env)
  {
    AscendingIsDistinct(Ids(rows), table);
    var q :| 0 <= q < |rows| && rows[q].id == id && !Gone(rows[q], env);
    assert forall p :: 0 <= p < |rows| ==> Ids(rows)[p] == rows[p].id;
  }

  /** What a new server takes up agrees with what it leaves in the table. */
  lemma FiledLoaded(rows: seq<Job>, env: Env, table: map<int, int>, next: int)
    requires Listed(rows, table, next)
    ensures var t, left := Loaded(rows, env), table - GoneIds(rows, env);
      Filed(t, left, left.Keys - Members(Ids(t)), next)
  {
    var t, left := Loaded(rows, env), table - GoneIds(rows, env);
    LoadedListed(rows, env, table);
    LoadedStays(rows, env);
    hide Loaded, Stays, GoneIds;
    forall k | 0 <= k < |t|
      ensures Ids(t)[k] in left
    {
      assert Ids(t)[k] in table;
      StaysListed(rows, env, t[k].id, table);
    }
  }

  /** The jobs on both lists stand in the same order. */
  ghost predicate InOrder(s: seq<Job>, t: seq<Job>) {
    Filter(Ids(t), Members(Ids(s))) == Filter(Ids(s), Members(Ids(t)))
  }

  /** The queue survives a crash: the jobs that are taken up again stand in the order
      in which the vector of the server before had them. */
  lemma OrderSurvives(s: seq<Job>, rows: seq<Job>, env: Env, table: map<int, int>, orphans: set<int>, next: int, stored: int)
    requires Filed(s, table, orphans, next) && Listed(rows, table, stored)
    ensures InOrder(s, Loaded(rows, env))
  {
    var t := Loaded(rows, env);
    var a, b := Filter(Ids(t), Members(Ids(s))), Filter(Ids(s), Members(Ids(t)));
    LoadedListed(rows, env, table);
    hide Filter;
    FilterAscending(Ids(t), Members(Ids(s)), table);
    FilterAscending(Ids(s), Members(Ids(t)), table);
    FilterMembers(Ids(t), Members(Ids(s)));
    FilterMembers(Ids(s), Members(Ids(t)));
    OneListing(a, b, table);
  }
}
