/** The growable vector of vec.c, which keeps a sequence. */
module Vec {
  import opened Wrappers

  /** SIZE_MAX. */
  const SizeMax: nat := 0xFFFF_FFFF_FFFF_FFFF

  function Inserted<T>(s: seq<T>, i: nat, x: T): seq<T>
    requires i <= |s|
  {
    s[..i] + [x] + s[i..]
  }

  function Removed<T>(s: seq<T>, i: nat): seq<T>
    requires i < |s|
  {
    s[..i] + s[i + 1..]
  }

  /** Removing undoes inserting. */
  lemma RemoveInserted<T>(s: seq<T>, i: nat, x: T)
    requires i <= |s|
    ensures Inserted(s, i, x)[i] == x && Removed(Inserted(s, i, x), i) == s
  {
    var t := Inserted(s, i, x);
    assert t[..i] == s[..i] && t[i + 1..] == s[i..];
    assert s[..i] + s[i..] == s;
  }

  /** Inserting undoes removing. */
  lemma InsertRemoved<T>(s: seq<T>, i: nat)
    requires i < |s|
    ensures Inserted(Removed(s, i), i, s[i]) == s
  {
    var t := Removed(s, i);
    assert t[..i] == s[..i] && t[i..] == s[i + 1..];
    assert s == s[..i] + [s[i]] + s[i + 1..];
  }

  class Vector<T(0)> {
    var data: array<T>
    var size: nat

    ghost predicate Valid()
      reads this
    {
      size <= data.Length && 0 < data.Length <= SizeMax
    }

    ghost function Contents(): seq<T>
      requires Valid()
      reads this, data
    {
      data[..size]
    }

    constructor ()
      ensures Valid() && fresh(data) && Contents() == [] && data.Length == 8
    {
      data := new T[8];
      size := 0;
    }

    /** vec_reserve: the capacity only grows. */
    method Reserve(cap: nat)
      requires Valid() && cap <= SizeMax
      modifies this`data
      ensures Valid() && Contents() == old(Contents()) && (data == old(data) || fresh(data))
      ensures data.Length == if cap <= old(data.Length) then old(data.Length) else cap
    {
      if cap <= data.Length {
        return;
      }
      var grown := new T[cap];
      forall k | 0 <= k < size {
        grown[k] := data[k];
      }
      data := grown;
    }

    /** Room for one more; the capacity doubles, unless it cannot. */
    method Grow() returns (ok: bool)
      requires Valid()
      modifies this`data
      ensures Valid() && Contents() == old(Contents()) && (data == old(data) || fresh(data))
      ensures ok <==> size < old(data.Length) || old(data.Length) <= SizeMax / 2
      ensures ok ==> size < data.Length
      ensures data.Length == if ok && size >= old(data.Length) then 2 * old(data.Length) else old(data.Length)
    {
      if size < data.Length {
        return true;
      }
      if data.Length > SizeMax / 2 {
        return false;
      }
      Reserve(data.Length * 2);
      return true;
    }

    method Push(x: T) returns (ok: bool)
      requires Valid()
      modifies this, data
      ensures Valid() && (data == old(data) || fresh(data))
      ensures ok <==> old(size < data.Length) || old(data.Length) <= SizeMax / 2
      ensures Contents() == if ok then old(Contents()) + [x] else old(Contents())
    {
      ok := Grow();
      if ok {
        data[size] := x;
        size := size + 1;
      }
    }

    method Pop() returns (r: Option<T>)
      requires Valid()
      modifies this`size
      ensures Valid()
      ensures r.None? <==> old(Contents()) == []
      ensures r.None? ==> Contents() == []
      ensures r.Some? ==> old(Contents()) == Contents() + [r.value]
    {
      if size == 0 {
        return None;
      }
      size := size - 1;
      return Some(data[size]);
    }

    method Get(i: nat) returns (r: Option<T>)
      requires Valid()
      ensures r == if i < |Contents()| then Some(Contents()[i]) else None
    {
      return if i < size then Some(data[i]) else None;
    }

    /** vec_set gives the element that was there. */
    method Set(i: nat, x: T) returns (r: Option<T>)
      requires Valid()
      modifies data
      ensures r == if i < |old(Contents())| then Some(old(Contents())[i]) else None
      ensures Contents() == if i < |old(Contents())| then old(Contents())[i := x] else old(Contents())
    {
      if i >= size {
        return None;
      }
      r := Some(data[i]);
      data[i] := x;
    }

    /** vec_insert: the elements from i on move up by one. */
    method Insert(i: nat, x: T) returns (ok: bool)
      requires Valid()
      modifies this, data
      ensures Valid() && (data == old(data) || fresh(data))
      ensures ok <==> i <= old(size) && (old(size < data.Length) || old(data.Length) <= SizeMax / 2)
      ensures ok ==> Contents() == Inserted(old(Contents()), i, x)
      ensures !ok ==> Contents() == old(Contents())
    {
      if i > size {
        return false;
      }
      ghost var s := Contents();
      ok := Grow();
      if !ok {
        return;
      }
      ghost var d := data;
      var k := size;
      while k > i
        invariant i <= k <= size && data == d && size == |s|
        invariant forall q :: 0 <= q < k ==> data[q] == s[q]
        invariant forall q :: k < q <= size ==> data[q] == s[q - 1]
      {
        data[k] := data[k - 1];
        k := k - 1;
      }
      data[i] := x;
      size := size + 1;
      assert forall q :: 0 <= q < size ==> data[q] == Inserted(s, i, x)[q];
    }

    /** vec_remove: the elements behind i move down by one. */
    method Remove(i: nat) returns (r: Option<T>)
      requires Valid()
      modifies this`size, data
      ensures Valid()
      ensures r == if i < |old(Contents())| then Some(old(Contents())[i]) else None
      ensures Contents() == if i < |old(Contents())| then Removed(old(Contents()), i) else old(Contents())
    {
      if i >= size {
        return None;
      }
      ghost var s := Contents();
      r := Some(data[i]);
      var k := i;
      while k + 1 < size
        invariant i <= k < size && size == |s|
        invariant forall q :: 0 <= q < i ==> data[q] == s[q]
        invariant forall q :: i <= q < k ==> data[q] == s[q + 1]
        invariant forall q :: k < q < size ==> data[q] == s[q]
      {
        data[k] := data[k + 1];
        k := k + 1;
      }
      size := size - 1;
      assert forall q :: 0 <= q < size ==> data[q] == Removed(s, i)[q];
    }

    method Clear()
      requires Valid()
      modifies this`size
      ensures Valid() && Contents() == []
    {
      size := 0;
    }
  }
}
