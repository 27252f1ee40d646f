/** Where the error level that a job inherits from its dependencies comes from. */
module DependencyLedger {
  import opened JobRecord

  /** What was known when a job was enqueued and what its dependencies have
      announced. `base` is the amount fixed at enqueue, `awaited` lists the
      dependencies that were still active then, `announced` holds what each job
      has announced when it ended. */
  datatype Book = Book(base: map<int, int>, awaited: map<int, seq<int>>, announced: map<int, int>)

  function Announced(announced: map<int, int>, d: int): int {
    if d in announced then announced[d] else 0
  }

  /** The sum over the awaited dependencies of what they have announced. */
  function Owed(ds: seq<int>, announced: map<int, int>): int {
    if ds == [] then 0 else Owed(ds[..|ds| - 1], announced) + Announced(announced, ds[|ds| - 1])
  }

  function Times(s: seq<int>, x: int): nat {
    multiset(s)[x]
  }

  /** The inherited error level is the amount at enqueue plus what awaited
      dependencies announced since. */
  ghost predicate Settled(j: Job, book: Book) {
    && j.id in book.base && j.id in book.awaited
    && j.depErr == book.base[j.id] + Owed(book.awaited[j.id], book.announced)
  }

  /** `d` will notify `j` once for each time `j` awaits it. */
  ghost predicate Linked(d: Job, j: Job, book: Book) {
    j.id in book.awaited ==> Times(d.notify, j.id) == Times(book.awaited[j.id], d.id)
  }

  ghost predicate Balanced(active: seq<Job>, finished: seq<Job>, book: Book) {
    && (forall i :: 0 <= i < |active| ==> Settled(active[i], book))
    && (forall i, k :: 0 <= i < |active| && 0 <= k < |active| ==> Linked(active[i], active[k], book))
    && (forall i, k :: 0 <= i < |finished| && 0 <= k < |active| ==> Linked(finished[i], active[k], book))
    && (forall i :: 0 <= i < |active| ==> active[i].id !in book.announced)
    && (forall i :: 0 <= i < |finished| ==>
          finished[i].id in book.announced && book.announced[finished[i].id] == Abs(finished[i].err))
  }

  predicate SameLinks(x: Job, y: Job) {
    x.id == y.id && x.deps == y.deps && x.notify == y.notify && x.depErr == y.depErr
  }

  ghost predicate Among(s: seq<Job>, y: Job) {
    exists i :: 0 <= i < |s| && SameLinks(s[i], y)
  }

  /** Every job of `t` is one of `s`, up to what the ledger does not look at. */
  ghost predicate LinksFrom(s: seq<Job>, t: seq<Job>) {
    forall k :: 0 <= k < |t| ==> Among(s, t[k])
  }

  lemma LinksStill(s: seq<Job>)
    ensures LinksFrom(s, s)
  {
    forall k | 0 <= k < |s|
      ensures Among(s, s[k])
    {
      assert SameLinks(s[k], s[k]);
    }
  }

  lemma LinksTwice(s: seq<Job>, t: seq<Job>, r: seq<Job>)
    requires LinksFrom(s, t) && LinksFrom(t, r)
    ensures LinksFrom(s, r)
  {
    forall k | 0 <= k < |r|
      ensures Among(s, r[k])
    {
      assert Among(t, r[k]);
      var q :| 0 <= q < |t| && SameLinks(t[q], r[k]);
      assert Among(s, t[q]);
      var i :| 0 <= i < |s| && SameLinks(s[i], t[q]);
      assert SameLinks(s[i], r[k]);
    }
  }

  lemma LinksReplaced(s: seq<Job>, i: nat, y: Job)
    requires i < |s| && SameLinks(s[i], y)
    ensures LinksFrom(s, s[i := y])
  {
    var t := s[i := y];
    forall k | 0 <= k < |t|
      ensures Among(s, t[k])
    {
      assert SameLinks(s[k], t[k]);
    }
  }

  lemma LinksRemoved(s: seq<Job>, i: nat)
    requires i < |s|
    ensures LinksFrom(s, s[..i] + s[i + 1..])
  {
    var t := s[..i] + s[i + 1..];
    forall k | 0 <= k < |t|
      ensures Among(s, t[k])
    {
      assert SameLinks(s[if k < i then k else k + 1], t[k]);
    }
  }

  lemma LinksReordered(s: seq<Job>, t: seq<Job>)
    requires forall k :: 0 <= k < |t| ==> t[k] in s
    ensures LinksFrom(s, t)
  {
    forall k | 0 <= k < |t|
      ensures Among(s, t[k])
    {
      var q :| 0 <= q < |s| && s[q] == t[k];
      assert SameLinks(s[q], t[k]);
    }
  }

  lemma LinkedSame(d: Job, j: Job, d': Job, j': Job, book: Book)
    requires SameLinks(d, d') && SameLinks(j, j') && Linked(d, j, book)
    ensures Linked(d', j', book)
  {
  }

  /** The ledger does not see other fields, the order, or jobs that left. */
  lemma BalancedFrom(s: seq<Job>, t: seq<Job>, finished: seq<Job>, book: Book)
    requires Balanced(s, finished, book) && LinksFrom(s, t)
    ensures Balanced(t, finished, book)
  {
    hide Linked, Owed;
    forall k | 0 <= k < |t|
      ensures Settled(t[k], book) && t[k].id !in book.announced
    {
      assert Among(s, t[k]);
      var i :| 0 <= i < |s| && SameLinks(s[i], t[k]);
      assert Settled(s[i], book);
    }
    forall i, k | 0 <= i < |t| && 0 <= k < |t|
      ensures Linked(t[i], t[k], book)
    {
      assert Among(s, t[i]) && Among(s, t[k]);
      var p :| 0 <= p < |s| && SameLinks(s[p], t[i]);
      var q :| 0 <= q < |s| && SameLinks(s[q], t[k]);
      LinkedSame(s[p], s[q], t[i], t[k], book);
    }
    forall i, k | 0 <= i < |finished| && 0 <= k < |t|
      ensures Linked(finished[i], t[k], book)
    {
      assert Among(s, t[k]);
      var q :| 0 <= q < |s| && SameLinks(s[q], t[k]);
      LinkedSame(finished[i], s[q], finished[i], t[k], book);
    }
  }

  // ---------- a job ends ----------

  /** notify_errorlevel: every job named in the list, once per mention. */
  function Notified(s: seq<Job>, notify: seq<int>, e: int): seq<Job> {
    seq(|s|, i requires 0 <= i < |s| => s[i].(depErr := s[i].depErr + Times(notify, s[i].id) * e))
  }

  lemma TimesNone(x: int)
    ensures Times([], x) == 0
  {
  }

  lemma TimesSnoc(s: seq<int>, x: int)
    requires s != []
    ensures Times(s, x) == Times(s[..|s| - 1], x) + if s[|s| - 1] == x then 1 else 0
  {
    assert s == s[..|s| - 1] + [s[|s| - 1]];
  }

  lemma {:induction false} OwedMore(ds: seq<int>, announced: map<int, int>, d: int, e: int)
    ensures Owed(ds, announced[d := Announced(announced, d) + e]) == Owed(ds, announced) + Times(ds, d) * e
  {
    hide Times;
    if ds == [] {
      TimesNone(d);
    } else {
      var r := ds[..|ds| - 1];
      OwedMore(r, announced, d, e);
      TimesSnoc(ds, d);
      assert (Times(r, d) + 1) * e == Times(r, d) * e + e;
    }
  }

  /** The book after `d` announced `e`. */
  function Announce(book: Book, d: int, e: int): Book {
    book.(announced := book.announced[d := Announced(book.announced, d) + e])
  }

  lemma SettledMore(j: Job, book: Book, d: Job, e: int)
    requires Settled(j, book) && Linked(d, j, book)
    ensures Settled(j.(depErr := j.depErr + Times(d.notify, j.id) * e), Announce(book, d.id, e))
  {
    hide Times, Owed;
    OwedMore(book.awaited[j.id], book.announced, d.id, e);
  }

  /** Announcing keeps the equation for every job other than the announcer. */
  lemma AnnouncedKeeps(s: seq<Job>, t: seq<Job>, d: Job, e: int, book: Book)
    requires t == Notified(s, d.notify, e)
    requires forall k :: 0 <= k < |s| ==> Settled(s[k], book) && Linked(d, s[k], book)
    ensures forall k :: 0 <= k < |t| ==> Settled(t[k], Announce(book, d.id, e))
  {
    hide Settled, Linked, Times;
    forall k | 0 <= k < |t|
      ensures Settled(t[k], Announce(book, d.id, e))
    {
      SettledMore(s[k], book, d, e);
    }
  }

  /** `y` is in the list, up to its own inherited error level. */
  ghost predicate KeptIn(f: seq<Job>, y: Job) {
    exists q :: 0 <= q < |f| && f[q].id == y.id && f[q].notify == y.notify && f[q].err == y.err
  }

  /** Who notifies whom after job i left. */
  lemma EndLinks(s: seq<Job>, i: nat, f: seq<Job>, book: Book, after: Book, t: seq<Job>, g: seq<Job>, y: Job)
    requires Balanced(s, f, book) && i < |s| && after.awaited == book.awaited
    requires |t| == |s| - 1 && y.id == s[i].id && y.notify == s[i].notify
    requires forall k :: 0 <= k < |t| ==> SameNames(s[if k < i then k else k + 1], t[k])
    requires forall k :: 0 <= k < |g| ==> g[k] == y || KeptIn(f, g[k])
    ensures forall a, k :: 0 <= a < |t| && 0 <= k < |t| ==> Linked(t[a], t[k], after)
    ensures forall a, k :: 0 <= a < |g| && 0 <= k < |t| ==> Linked(g[a], t[k], after)
  {
    hide Linked, Settled;
    forall a, k | 0 <= a < |t| && 0 <= k < |t|
      ensures Linked(t[a], t[k], after)
    {
      LinkedEdited(s[if a < i then a else a + 1], s[if k < i then k else k + 1], t[a], t[k], book, after);
    }
    forall a, k | 0 <= a < |g| && 0 <= k < |t|
      ensures Linked(g[a], t[k], after)
    {
      var j := s[if k < i then k else k + 1];
      if g[a] == y {
        LinkedEdited(s[i], j, y, t[k], book, after);
      } else {
        assert KeptIn(f, g[a]);
        var q :| 0 <= q < |f| && f[q].id == g[a].id && f[q].notify == g[a].notify && f[q].err == g[a].err;
        LinkedEdited(f[q], j, g[a], t[k], book, after);
      }
    }
  }

  predicate SameNames(x: Job, y: Job) {
    x.id == y.id && x.notify == y.notify
  }

  /** Job i ends with error level `err` and is kept in the finished list, whose
      oldest entries may be dropped. */
  lemma EndKeeps(s: seq<Job>, i: nat, f: seq<Job>, err: int, book: Book, t: seq<Job>, g: seq<Job>, y: Job)
    requires Balanced(s, f, book) && i < |s| && forall k :: 0 <= k < |s| && k != i ==> s[k].id != s[i].id
    requires t == Notified(s, s[i].notify, Abs(err))[..i] + Notified(s, s[i].notify, Abs(err))[i + 1..]
    requires y.id == s[i].id && y.notify == s[i].notify && y.err == err
    requires forall k :: 0 <= k < |g| ==> g[k] == y || KeptIn(f, g[k])
    ensures Balanced(t, g, Announce(book, s[i].id, Abs(err)))
  {
    var e := Abs(err);
    var u := Notified(s, s[i].notify, e);
    var after := Announce(book, s[i].id, e);
    AnnouncedKeeps(s, u, s[i], e, book);
    hide Owed, Times, Linked, Settled;
    forall k | 0 <= k < |t|
      ensures t[k] == u[if k < i then k else k + 1] && t[k].id != s[i].id
      ensures Settled(t[k], after) && t[k].id !in after.announced
    {
    }
    EndLinks(s, i, f, book, after, t, g, y);
    forall a | 0 <= a < |g|
      ensures g[a].id in after.announced && after.announced[g[a].id] == Abs(g[a].err)
    {
      assert s[i].id !in book.announced;
    }
  }

  lemma LinkedEdited(d: Job, j: Job, d': Job, j': Job, book: Book, after: Book)
    requires Linked(d, j, book) && d.id == d'.id && d.notify == d'.notify && j.id == j'.id && after.awaited == book.awaited
    ensures Linked(d', j', after)
  {
  }

  /** A job is removed from the finished list. It announces once more, as a
      failure with error level -1. */
  lemma ForgetKeeps(s: seq<Job>, f: seq<Job>, k: nat, book: Book)
    requires Balanced(s, f, book) && k < |f| && forall q :: 0 <= q < |f| && q != k ==> f[q].id != f[k].id
    requires forall i :: 0 <= i < |s| ==> s[i].id != f[k].id
    ensures Balanced(Notified(s, f[k].notify, 1), f[..k] + f[k + 1..], Announce(book, f[k].id, 1))
  {
    var t := Notified(s, f[k].notify, 1);
    var g := f[..k] + f[k + 1..];
    var after := Announce(book, f[k].id, 1);
    AnnouncedKeeps(s, t, f[k], 1, book);
    hide Owed, Times, Linked, Settled;
    forall a, b | 0 <= a < |t| && 0 <= b < |t|
      ensures Linked(t[a], t[b], after)
    {
      LinkedEdited(s[a], s[b], t[a], t[b], book, after);
    }
    forall a | 0 <= a < |g|
      ensures g[a] == f[if a < k then a else a + 1] && g[a].id != f[k].id
    {
    }
    forall a, b | 0 <= a < |g| && 0 <= b < |t|
      ensures Linked(g[a], t[b], after)
    {
      LinkedEdited(f[if a < k then a else a + 1], s[b], g[a], t[b], book, after);
    }
  }

  // ---------- a job is enqueued ----------

  /** No id from `next` on has been mentioned. */
  ghost predicate Unmentioned(active: seq<Job>, finished: seq<Job>, book: Book, next: int) {
    && (forall i :: 0 <= i < |active| ==> active[i].id < next && Times(active[i].notify, next) == 0)
    && (forall i :: 0 <= i < |finished| ==> Times(finished[i].notify, next) == 0)
    && next !in book.announced
    && forall i :: 0 <= i < |active| && active[i].id in book.awaited ==> Times(book.awaited[active[i].id], next) == 0
  }

  function Opened(book: Book, id: int): Book {
    book.(base := book.base[id := 0], awaited := book.awaited[id := []])
  }

  /** The new job joins with nothing inherited and nothing awaited. */
  lemma EnqueueKeeps(s: seq<Job>, f: seq<Job>, book: Book, y: Job)
    requires Balanced(s, f, book) && Unmentioned(s, f, book, y.id) && y.notify == [] && y.depErr == 0
    ensures Balanced(s + [y], f, Opened(book, y.id))
  {
    var t, after := s + [y], Opened(book, y.id);
    TimesNone(y.id);
    forall k | 0 <= k < |t|
      ensures Settled(t[k], after)
    {
      if k < |s| {
        assert Settled(s[k], book);
      }
    }
    forall a, k | 0 <= a < |t| && 0 <= k < |t|
      ensures Linked(t[a], t[k], after)
    {
      EnqueueLinked(s, f, book, y, a, k);
    }
    forall a, k | 0 <= a < |f| && 0 <= k < |t|
      ensures Linked(f[a], t[k], after)
    {
      if k < |s| {
        assert Linked(f[a], s[k], book);
      }
    }
    hide Owed, Times, Linked, Settled;
  }

  lemma EnqueueLinked(s: seq<Job>, f: seq<Job>, book: Book, y: Job, a: nat, k: nat)
    requires Balanced(s, f, book) && Unmentioned(s, f, book, y.id) && y.notify == []
    requires a <= |s| && k <= |s|
    ensures Linked((s + [y])[a], (s + [y])[k], Opened(book, y.id))
  {
    hide Owed, Settled;
    if a < |s| && k < |s| {
      assert Linked(s[a], s[k], book);
    }
  }

  function Awaiting(book: Book, id: int, d: int): Book {
    if id in book.awaited then book.(awaited := book.awaited[id := book.awaited[id] + [d]]) else book
  }

  lemma TimesMore(s: seq<int>, y: int, x: int)
    ensures Times(s + [y], x) == Times(s, x) + if y == x then 1 else 0
  {
  }

  lemma OwedMoreAwaited(ds: seq<int>, announced: map<int, int>, d: int)
    requires d !in announced
    ensures Owed(ds + [d], announced) == Owed(ds, announced)
  {
    assert (ds + [d])[..|ds|] == ds;
  }

  /** Job p now awaits the active job i, which will notify it. */
  lemma AwaitKeeps(s: seq<Job>, f: seq<Job>, book: Book, i: nat, p: nat)
    requires Balanced(s, f, book) && i < |s| && p < |s| && i != p
    requires forall k, q :: 0 <= k < q < |s| ==> s[k].id != s[q].id
    requires forall q :: 0 <= q < |f| ==> f[q].id != s[i].id
    ensures Balanced(s[i := s[i].(notify := s[i].notify + [s[p].id])], f, Awaiting(book, s[p].id, s[i].id))
  {
    var t, after := s[i := s[i].(notify := s[i].notify + [s[p].id])], Awaiting(book, s[p].id, s[i].id);
    forall k | 0 <= k < |t|
      ensures Settled(t[k], after)
    {
      assert Settled(s[k], book);
      OwedMoreAwaited(book.awaited[s[k].id], book.announced, s[i].id);
    }
    forall a, k | 0 <= a < |t| && 0 <= k < |t|
      ensures Linked(t[a], t[k], after)
    {
      AwaitLinked(s, f, book, i, p, a, k);
    }
    forall a, k | 0 <= a < |f| && 0 <= k < |t|
      ensures Linked(f[a], t[k], after)
    {
      assert Linked(f[a], s[k], book);
      TimesMore(book.awaited[s[k].id], s[i].id, f[a].id);
    }
    hide Owed, Times, Linked, Settled;
  }

  lemma AwaitLinked(s: seq<Job>, f: seq<Job>, book: Book, i: nat, p: nat, a: nat, k: nat)
    requires Balanced(s, f, book) && i < |s| && p < |s| && i != p && a < |s| && k < |s|
    requires forall k, q :: 0 <= k < q < |s| ==> s[k].id != s[q].id
    ensures Linked(s[i := s[i].(notify := s[i].notify + [s[p].id])][a], s[i := s[i].(notify := s[i].notify + [s[p].id])][k],
                   Awaiting(book, s[p].id, s[i].id))
  {
    assert Linked(s[a], s[k], book) && Settled(s[k], book);
    hide Balanced, Times, Settled;
    TimesMore(s[i].notify, s[p].id, s[k].id);
    TimesMore(book.awaited[s[k].id], s[i].id, s[a].id);
  }

  function Raised(book: Book, id: int, e: int): Book {
    if id in book.base then book.(base := book.base[id := book.base[id] + e]) else book
  }

  /** Job p inherits `e` at once. */
  lemma BaseKeeps(s: seq<Job>, f: seq<Job>, book: Book, p: nat, e: int)
    requires Balanced(s, f, book) && p < |s| && forall k :: 0 <= k < |s| && k != p ==> s[k].id != s[p].id
    ensures Balanced(s[p := s[p].(depErr := s[p].depErr + e)], f, Raised(book, s[p].id, e))
  {
    var t, after := s[p := s[p].(depErr := s[p].depErr + e)], Raised(book, s[p].id, e);
    hide Owed, Times;
    forall k | 0 <= k < |t|
      ensures Settled(t[k], after)
    {
      assert Settled(s[k], book);
    }
    hide Linked, Settled;
    forall a, k | 0 <= a < |t| && 0 <= k < |t|
      ensures Linked(t[a], t[k], after)
    {
      LinkedEdited(s[a], s[k], t[a], t[k], book, after);
    }
    forall a, k | 0 <= a < |f| && 0 <= k < |t|
      ensures Linked(f[a], t[k], after)
    {
      LinkedEdited(f[a], s[k], f[a], t[k], book, after);
    }
  }

  // ---------- a whole run ----------

  /** A job has announced an error level. */
  datatype Ending = Ending(id: int, amount: int)

  function AnnouncedBy(announced: map<int, int>, ends: seq<Ending>): map<int, int> {
    if ends == [] then announced
    else
      var m, e := AnnouncedBy(announced, ends[..|ends| - 1]), ends[|ends| - 1];
      m[e.id := Announced(m, e.id) + e.amount]
  }

  /** The book grows by these announcements. What was fixed for the ids handed out
      before stays fixed. */
  ghost predicate Grows(a: Book, b: Book, ends: seq<Ending>, next: int) {
    && b.announced == AnnouncedBy(a.announced, ends)
    && (forall id :: id in a.base && id < next ==> id in b.base && b.base[id] == a.base[id])
    && (forall id :: id in a.awaited && id < next ==> id in b.awaited && b.awaited[id] == a.awaited[id])
  }

  lemma GrowsStill(a: Book, next: int)
    ensures Grows(a, a, [], next)
  {
  }

  lemma GrowsOne(a: Book, d: int, e: int, next: int)
    ensures Grows(a, Announce(a, d, e), [Ending(d, e)], next)
  {
    var ends := [Ending(d, e)];
    assert ends[..0] == [];
    assert AnnouncedBy(a.announced, ends[..|ends| - 1]) == a.announced;
  }

  lemma {:induction false} AnnouncedTwice(m: map<int, int>, e: seq<Ending>, f: seq<Ending>)
    ensures AnnouncedBy(AnnouncedBy(m, e), f) == AnnouncedBy(m, e + f)
    decreases |f|
  {
    if f == [] {
      assert e + f == e;
    } else {
      var g := f[..|f| - 1];
      AnnouncedTwice(m, e, g);
      assert (e + f)[..|e + f| - 1] == e + g && (e + f)[|e + f| - 1] == f[|f| - 1];
    }
  }

  lemma GrowsTwice(a: Book, b: Book, c: Book, e: seq<Ending>, f: seq<Ending>, next: int, later: int)
    requires Grows(a, b, e, next) && Grows(b, c, f, later) && next <= later
    ensures Grows(a, c, e + f, next)
  {
    hide AnnouncedBy;
    AnnouncedTwice(a.announced, e, f);
  }

  /** What a list of dependencies announced, counted once per mention. */
  function OwedAll(ds: seq<int>, ends: seq<Ending>): int {
    if ends == [] then 0 else OwedAll(ds, ends[..|ends| - 1]) + Times(ds, ends[|ends| - 1].id) * ends[|ends| - 1].amount
  }

  lemma {:induction false} OwedGrows(ds: seq<int>, announced: map<int, int>, ends: seq<Ending>)
    ensures Owed(ds, AnnouncedBy(announced, ends)) == Owed(ds, announced) + OwedAll(ds, ends)
    decreases |ends|
  {
    hide Owed, Times;
    if ends != [] {
      var g, e := ends[..|ends| - 1], ends[|ends| - 1];
      OwedGrows(ds, announced, g);
      OwedMore(ds, AnnouncedBy(announced, g), e.id, e.amount);
    }
  }

  /** Over every run the error level that a job inherits grows by exactly what the
      dependencies it awaits have announced in that run. */
  lemma Inherits(s: seq<Job>, f: seq<Job>, book: Book, t: seq<Job>, g: seq<Job>, after: Book, ends: seq<Ending>, next: int, i: nat, k: nat)
    requires Balanced(s, f, book) && Balanced(t, g, after) && Grows(book, after, ends, next)
    requires i < |s| && k < |t| && s[i].id == t[k].id && s[i].id < next
    ensures s[i].id in book.awaited && t[k].depErr - s[i].depErr == OwedAll(book.awaited[s[i].id], ends)
  {
    hide Linked, Times, Owed, OwedAll, AnnouncedBy;
    assert Settled(s[i], book) && Settled(t[k], after);
    OwedGrows(book.awaited[s[i].id], book.announced, ends);
  }

  /** The list of the active or finished job `d`. */
  ghost predicate ListOf(s: seq<Job>, f: seq<Job>, d: int, notify: seq<int>) {
    || (exists i :: 0 <= i < |s| && s[i].id == d && s[i].notify == notify)
    || (exists k :: 0 <= k < |f| && f[k].id == d && f[k].notify == notify)
  }

  /** What the job `id` is told when these jobs end, once for each time their lists
      name it. */
  function ToldBy(lists: seq<seq<int>>, ends: seq<Ending>, id: int): int
    requires |lists| == |ends|
  {
    if ends == [] then 0
    else
      var n := |ends| - 1;
      ToldBy(lists[..n], ends[..n], id) + Times(lists[n], id) * ends[n].amount
  }

  /** In terms of the lists alone: while a request is served, a job inherits what
      the jobs that end announce to it. */
  lemma {:induction false} OwedIsTold(s: seq<Job>, f: seq<Job>, book: Book, ends: seq<Ending>, lists: seq<seq<int>>, i: nat)
    requires Balanced(s, f, book) && i < |s| && s[i].id in book.awaited && |lists| == |ends|
    requires forall k :: 0 <= k < |ends| ==> ListOf(s, f, ends[k].id, lists[k])
    ensures OwedAll(book.awaited[s[i].id], ends) == ToldBy(lists, ends, s[i].id)
    decreases |ends|
  {
    if ends != [] {
      var n := |ends| - 1;
      ListMatches(s, f, book, ends[n].id, lists[n], i);
      hide Balanced, ListOf, Times;
      assert forall k :: 0 <= k < n ==> ends[..n][k] == ends[k] && lists[..n][k] == lists[k];
      OwedIsTold(s, f, book, ends[..n], lists[..n], i);
    }
  }

  lemma ListMatches(s: seq<Job>, f: seq<Job>, book: Book, d: int, notify: seq<int>, i: nat)
    requires Balanced(s, f, book) && i < |s| && s[i].id in book.awaited && ListOf(s, f, d, notify)
    ensures Times(book.awaited[s[i].id], d) == Times(notify, s[i].id)
  {
    hide Times, Settled;
    if k :| 0 <= k < |s| && s[k].id == d && s[k].notify == notify {
      assert Linked(s[k], s[i], book);
    } else {
      var k :| 0 <= k < |f| && f[k].id == d && f[k].notify == notify;
      assert Linked(f[k], s[i], book);
    }
  }
}
