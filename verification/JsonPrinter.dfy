/** The printer of cJSON.c over its growing buffer. */
module JsonPrinter {
  import opened JsonText
  import opened Numerals

  /** INT_MAX, the size limit of the buffer. */
  const MaxSize: nat := 0x7FFF_FFFF

  /** From position o on the buffer holds `t`; what is before o has been kept. */
  ghost predicate Laid(was: seq<char>, now: seq<char>, o: nat, t: string) {
    && o <= |was| && o + |t| <= |now|
    && now[..o] == was[..o] && now[o..o + |t|] == t
  }

  /** The same, closed by a NUL. */
  ghost predicate Wrote(was: seq<char>, now: seq<char>, o: nat, t: string) {
    Laid(was, now, o, t) && o + |t| < |now| && now[o + |t|] == '\0'
  }

  lemma LaidMore(a: seq<char>, b: seq<char>, c: seq<char>, o: nat, s: string, t: string)
    requires Laid(a, b, o, s) && Laid(b, c, o + |s|, t)
    ensures Laid(a, c, o, s + t)
  {
    assert c[..o] == c[..o + |s|][..o] == b[..o + |s|][..o] == b[..o];
    assert c[o..o + |s|] == c[..o + |s|][o..] == b[..o + |s|][o..] == s;
    assert c[o..o + |s + t|] == c[o..o + |s|] + c[o + |s|..o + |s| + |t|];
  }

  lemma WroteMore(a: seq<char>, b: seq<char>, c: seq<char>, o: nat, s: string, t: string)
    requires Laid(a, b, o, s) && Wrote(b, c, o + |s|, t)
    ensures Wrote(a, c, o, s + t)
  {
    hide Laid;
    LaidMore(a, b, c, o, s, t);
  }

  lemma LaidNothing(b: seq<char>, c: seq<char>, o: nat)
    requires o <= |b| && o <= |c| && forall k :: 0 <= k < o ==> c[k] == b[k]
    ensures Laid(b, c, o, "")
  {
  }

  class PrintBuffer {
    var buffer: array<char>
    var offset: nat

    ghost predicate Valid()
      reads this
    {
      offset < buffer.Length <= MaxSize
    }

    constructor ()
      ensures Valid() && offset == 0 && fresh(buffer)
    {
      buffer := new char[256];
      offset := 0;
    }

    /** ensure: room for `needed` bytes and one more behind the offset. */
    method Ensure(needed: nat) returns (ok: bool)
      requires Valid()
      modifies this`buffer
      ensures Valid() && (buffer == old(buffer) || fresh(buffer))
      ensures ok <==> offset + needed + 1 <= MaxSize
      ensures ok ==> offset + needed + 1 <= buffer.Length
      ensures old(buffer.Length) <= buffer.Length && forall k :: 0 <= k < old(buffer.Length) ==> buffer[k] == old(buffer[k])
    {
      if needed > MaxSize {
        return false;
      }
      var size := needed + offset + 1;
      if size <= buffer.Length {
        return true;
      }
      if size > MaxSize / 2 {
        if size > MaxSize {
          return false;
        }
        size := MaxSize;
      } else {
        size := size * 2;
      }
      var grown := new char[size];
      forall k | 0 <= k < buffer.Length {
        grown[k] := buffer[k];
      }
      buffer := grown;
      return true;
    }

    /** Bytes copied to a position. */
    method Copy(pos: nat, t: string)
      requires pos + |t| <= buffer.Length
      modifies buffer
      ensures forall k :: 0 <= k < buffer.Length ==> buffer[k] == if pos <= k < pos + |t| then t[k - pos] else old(buffer[k])
      ensures Laid(old(buffer[..]), buffer[..], pos, t)
    {
      for i := 0 to |t|
        invariant forall k :: 0 <= k < buffer.Length ==> buffer[k] == if pos <= k < pos + i then t[k - pos] else old(buffer[k])
      {
        buffer[pos + i] := t[i];
      }
      assert buffer[..][pos..pos + |t|] == t;
    }

    /** Room is made and `t` is written with a NUL; the offset stays. */
    method Put(t: string) returns (ok: bool)
      requires Valid()
      modifies this`buffer, buffer
      ensures Valid() && (buffer == old(buffer) || fresh(buffer))
      ensures ok <==> offset + |t| + 2 <= MaxSize
      ensures ok ==> Wrote(old(buffer[..]), buffer[..], offset, t)
    {
      ghost var b := buffer[..];
      ok := Ensure(|t| + 1);
      if ok {
        ghost var c := buffer[..];
        LaidNothing(b, c, offset);
        Copy(offset, t + "\0");
        LaidMore(b, c, buffer[..], offset, "", t + "\0");
        Closing(b, buffer[..], offset, t);
      }
    }

    /** update_offset: the offset moves to the NUL. */
    method UpdateOffset(ghost end: nat)
      requires offset <= end < buffer.Length && buffer[end] == '\0' && forall k :: offset <= k < end ==> buffer[k] != '\0'
      modifies this`offset
      ensures offset == end
    {
      while buffer[offset] != '\0'
        invariant offset <= end
        decreases end - offset
      {
        offset := offset + 1;
      }
    }

    /** The counting loop of print_string_ptr. */
    static method CountExtra(s: string) returns (n: nat)
      ensures n == ExtraIn(s)
    {
      n := 0;
      for i := 0 to |s|
        invariant n == ExtraIn(s[..i])
      {
        ExtraSnoc(s, i);
        n := n + Extra(s[i]);
      }
      assert s[..|s|] == s;
    }

    /** One byte in escaped form at a position. */
    method PutEscape(pos: nat, c: char) returns (next: nat)
      requires pos + |Escape(c)| <= buffer.Length
      modifies buffer
      ensures next == pos + |Escape(c)| && Laid(old(buffer[..]), buffer[..], pos, Escape(c))
    {
      if c > '\U{1F}' && c != '\"' && c != '\\' {
        Copy(pos, [c]);
        next := pos + 1;
      } else {
        var t := Escape(c);
        Copy(pos, t);
        next := pos + |t|;
      }
    }

    /** The copying loop of print_string_ptr, used when something is escaped. */
    method PutEscaped(s: string) returns (pos: nat)
      requires offset + 1 + |Escaped(s)| <= buffer.Length
      modifies buffer
      ensures pos == offset + 1 + |Escaped(s)| && Laid(old(buffer[..]), buffer[..], offset, "\"" + Escaped(s))
    {
      hide Escape, Escaped, Laid;
      ghost var b := buffer[..];
      Copy(offset, "\"");
      pos := offset + 1;
      NothingEscaped(s);
      for i := 0 to |s|
        invariant pos == offset + 1 + |Escaped(s[..i])|
        invariant Laid(b, buffer[..], offset, "\"" + Escaped(s[..i]))
      {
        ghost var c := buffer[..];
        EscapedSnoc(s, i);
        pos := PutEscape(pos, s[i]);
        LaidMore(b, c, buffer[..], offset, "\"" + Escaped(s[..i]), Escape(s[i]));
        assert "\"" + Escaped(s[..i + 1]) == "\"" + Escaped(s[..i]) + Escape(s[i]);
      }
      assert s[..|s|] == s;
    }

    /** print_string_ptr: the room made beforehand is exactly what is used. */
    method PrintString(s: string) returns (ok: bool)
      requires Valid()
      modifies this`buffer, buffer
      ensures Valid() && (buffer == old(buffer) || fresh(buffer))
      ensures ok <==> offset + |Quoted(s)| + 2 <= MaxSize
      ensures ok ==> Wrote(old(buffer[..]), buffer[..], offset, Quoted(s))
    {
      hide Escaped, Laid;
      var extra := CountExtra(s);
      EscapedLength(s);
      var length := |s| + extra;
      ghost var b := buffer[..];
      ok := Ensure(length + 3);
      if !ok {
        return;
      }
      ghost var c := buffer[..];
      LaidNothing(b, c, offset);
      if extra == 0 {
        NothingToEscape(s);
        Copy(offset, "\"" + s);
      } else {
        var pos := PutEscaped(s);
        assert pos == offset + length + 1;
      }
      ghost var d := buffer[..];
      Copy(offset + length + 1, "\"\0");
      QuotedLaid(b, c, d, buffer[..], offset, s);
    }

    /** One byte without a NUL; the offset moves behind it. */
    method PutBare(c: char, room: nat) returns (ok: bool)
      requires Valid() && room >= 1
      modifies this, buffer
      ensures Valid() && (buffer == old(buffer) || fresh(buffer))
      ensures ok <==> old(offset) + room + 1 <= MaxSize
      ensures ok ==> offset == old(offset) + 1 && Laid(old(buffer[..]), buffer[..], old(offset), [c])
    {
      ghost var b := buffer[..];
      ok := Ensure(room);
      if ok {
        ghost var d := buffer[..];
        LaidNothing(b, d, offset);
        Copy(offset, [c]);
        LaidMore(b, d, buffer[..], offset, "", [c]);
        assert "" + [c] == [c];
        offset := offset + 1;
      }
    }

    /** Text without a NUL in it is written and the offset moved behind it. */
    method Settle(ghost was: seq<char>, ghost o: nat, ghost t: string)
      requires Valid() && Wrote(was, buffer[..], o, t) && o <= offset <= o + |t| && Visible(t)
      modifies this`offset
      ensures Valid() && offset == o + |t|
    {
      VisibleRun(was, buffer[..], o, t);
      UpdateOffset(o + |t|);
    }

    /** print_value. It fails only when the buffer would outgrow its limit. */
    method PrintValue(v: Json) returns (ok: bool)
      requires Valid() && Representable(v)
      modifies this, buffer
      ensures Valid() && (buffer == old(buffer) || fresh(buffer))
      ensures ok <==> old(offset) + |Print(v)| + 2 <= MaxSize
      ensures ok ==> Wrote(old(buffer[..]), buffer[..], old(offset), Print(v)) && old(offset) <= offset <= old(offset) + |Print(v)|
      decreases v, 1
    {
      hide Wrote, Quoted, PrintItems, PrintMembers, Decimal;
      match v
      case Null => ok := Put("null");
      case False => ok := Put("false");
      case True => ok := Put("true");
      case Number(n) =>
        ok := Put(Decimal(n));
        if ok {
          offset := offset + |Decimal(n)|;
          WroteInside(old(buffer[..]), buffer[..], old(offset), Decimal(n));
        }
      case Text(s) => ok := PrintString(s);
      case Array(items) => ok := PrintArray(items);
      case Object(members) => ok := PrintObject(members);
    }

    /** print_value followed by update_offset, behind text already laid. */
    method PrintNext(v: Json, ghost was: seq<char>, ghost o: nat, ghost t: string) returns (ok: bool)
      requires Valid() && Representable(v) && Laid(was, buffer[..], o, t) && offset == o + |t|
      modifies this, buffer
      ensures Valid() && (buffer == old(buffer) || fresh(buffer))
      ensures ok <==> o + |t| + |Print(v)| + 2 <= MaxSize
      ensures ok ==> Laid(was, buffer[..], o, t + Print(v)) && offset == o + |t| + |Print(v)|
      decreases v, 2
    {
      hide Print, Laid, Wrote, Representable, Visible;
      ghost var b := buffer[..];
      ok := PrintValue(v);
      if ok {
        PrintVisible(v);
        Settle(b, o + |t|, Print(v));
        WroteLaid(b, buffer[..], o + |t|, Print(v));
        LaidMore(was, b, buffer[..], o, t, Print(v));
      }
    }

    /** The comma between elements. */
    method PutComma(ghost was: seq<char>, ghost o: nat, ghost t: string) returns (ok: bool)
      requires Valid() && Laid(was, buffer[..], o, t) && offset == o + |t|
      modifies this, buffer
      ensures Valid() && (buffer == old(buffer) || fresh(buffer))
      ensures ok <==> o + |t| + 3 <= MaxSize
      ensures ok ==> Laid(was, buffer[..], o, t + ",") && offset == o + |t| + 1
    {
      hide Laid, Wrote;
      ghost var b := buffer[..];
      ok := Put(",");
      if ok {
        WroteInside(b, buffer[..], offset, ",");
        WroteLaid(b, buffer[..], offset, ",");
        LaidMore(was, b, buffer[..], o, t, ",");
        offset := offset + 1;
      }
    }

    /** print_array. */
    method PrintArray(items: seq<Json>) returns (ok: bool)
      requires Valid() && Representable(Array(items))
      modifies this, buffer
      ensures Valid() && (buffer == old(buffer) || fresh(buffer))
      ensures ok <==> old(offset) + |Print(Array(items))| + 2 <= MaxSize
      ensures ok ==> Wrote(old(buffer[..]), buffer[..], old(offset), Print(Array(items)))
      ensures ok ==> old(offset) <= offset <= old(offset) + |Print(Array(items))|
      decreases items, 2
    {
      hide Laid, Wrote, PrintItems, Print, CString;
      ghost var b, o, t := buffer[..], offset, "[";
      ghost var whole := PrintItems(items);
      ArrayText(items);
      ok := PutBare('[', 1);
      if !ok {
        return;
      }
      AllItemsLeft(items);
      var i := 0;
      while i < |items|
        invariant Valid() && (buffer == old(buffer) || fresh(buffer)) && 0 <= i <= |items|
        invariant Laid(b, buffer[..], o, t) && offset == o + |t|
        invariant t + PrintItems(items[i..]) == "[" + whole
      {
        ItemsLeft(items, i);
        ghost var left := PrintItems(items[i..]);
        ok := PrintNext(items[i], b, o, t);
        if !ok {
          return;
        }
        ghost var p := Print(items[i]);
        if i + 1 < |items| {
          ItemsFollow(items, i);
          ok := PutComma(b, o, t + p);
          if !ok {
            return;
          }
          Shifted(t, p, ",", PrintItems(items[i + 1..]));
          t := t + p + ",";
        } else {
          Shifted(t, p, "", PrintItems(items[i + 1..]));
          t := t + p;
        }
        i := i + 1;
      }
      assert t == "[" + whole by { NothingLeft(items, t, whole); }
      ghost var c := buffer[..];
      ok := Put("]");
      if ok {
        WroteMore(b, c, buffer[..], o, t, "]");
      }
    }

    /** The name of a member and the colon. */
    method PrintKey(key: string, ghost was: seq<char>, ghost o: nat, ghost t: string) returns (ok: bool)
      requires Valid() && CString(key) && Laid(was, buffer[..], o, t) && offset == o + |t|
      modifies this, buffer
      ensures Valid() && (buffer == old(buffer) || fresh(buffer))
      ensures o + |t| + |Quoted(key)| + 3 <= MaxSize ==> ok
      ensures ok ==> o + |t| + |Quoted(key)| + 2 <= MaxSize
      ensures ok ==> Laid(was, buffer[..], o, t + (Quoted(key) + ":")) && offset == o + |t| + |Quoted(key)| + 1
    {
      hide Quoted, Laid, Wrote, Visible, CString;
      ghost var b, q := buffer[..], Quoted(key);
      ok := PrintString(key);
      if ok {
        QuotedVisible(key);
        Settle(b, o + |t|, q);
        WroteLaid(b, buffer[..], o + |t|, q);
        LaidMore(was, b, buffer[..], o, t, q);
        b := buffer[..];
        ok := PutBare(':', 1);
        if ok {
          LaidMore(was, b, buffer[..], o, t + q, ":");
          assert t + q + ":" == t + (q + ":");
        }
      }
    }

    /** One member: name, colon, value. */
    method PrintPair(m: Member, ghost was: seq<char>, ghost o: nat, ghost t: string) returns (ok: bool)
      requires Valid() && CString(m.key) && Representable(m.value) && Laid(was, buffer[..], o, t) && offset == o + |t|
      modifies this, buffer
      ensures Valid() && (buffer == old(buffer) || fresh(buffer))
      ensures ok <==> o + |t| + |PrintMember(m)| + 2 <= MaxSize
      ensures ok ==> Laid(was, buffer[..], o, t + PrintMember(m)) && offset == o + |t| + |PrintMember(m)|
      decreases m, 3
    {
      hide Quoted, Laid, Print, CString, Representable, Visible;
      PrintVisible(m.value);
      ghost var k := Quoted(m.key) + ":";
      ok := PrintKey(m.key, was, o, t);
      if ok {
        ok := PrintNext(m.value, was, o, t + k);
        assert t + k + Print(m.value) == t + PrintMember(m);
      }
    }

    /** print_object. */
    method PrintObject(members: seq<Member>) returns (ok: bool)
      requires Valid() && Representable(Object(members))
      modifies this, buffer
      ensures Valid() && (buffer == old(buffer) || fresh(buffer))
      ensures ok <==> old(offset) + |Print(Object(members))| + 2 <= MaxSize
      ensures ok ==> Wrote(old(buffer[..]), buffer[..], old(offset), Print(Object(members)))
      ensures ok ==> old(offset) <= offset <= old(offset) + |Print(Object(members))|
      decreases members, 2
    {
      hide Laid, Wrote, PrintMembers, PrintMember, Print, CString;
      ghost var b, o, t := buffer[..], offset, "{";
      ghost var whole := PrintMembers(members);
      ObjectText(members);
      ok := PutBare('{', 2);
      if !ok {
        return;
      }
      AllMembersLeft(members);
      var i := 0;
      while i < |members|
        invariant Valid() && (buffer == old(buffer) || fresh(buffer)) && 0 <= i <= |members|
        invariant Laid(b, buffer[..], o, t) && offset == o + |t|
        invariant t + PrintMembers(members[i..]) == "{" + whole
      {
        MembersLeft(members, i);
        ghost var left := PrintMembers(members[i..]);
        ok := PrintPair(members[i], b, o, t);
        if !ok {
          return;
        }
        ghost var p := PrintMember(members[i]);
        if i + 1 < |members| {
          MembersFollow(members, i);
          ok := PutComma(b, o, t + p);
          if !ok {
            return;
          }
          Shifted(t, p, ",", PrintMembers(members[i + 1..]));
          t := t + p + ",";
        } else {
          Shifted(t, p, "", PrintMembers(members[i + 1..]));
          t := t + p;
        }
        i := i + 1;
      }
      assert t == "{" + whole by { NoMemberLeft(members, t, whole); }
      ghost var c := buffer[..];
      ok := Put("}");
      if ok {
        WroteMore(b, c, buffer[..], o, t, "}");
      }
    }
  }

  lemma AllMembersLeft(members: seq<Member>)
    ensures "{" + PrintMembers(members[0..]) == "{" + PrintMembers(members)
  {
    assert members[0..] == members;
  }

  lemma MembersLeft(members: seq<Member>, i: nat)
    requires i < |members|
    ensures PrintMembers(members[i..]) ==
            if i + 1 == |members| then PrintMember(members[i]) else PrintMember(members[i]) + "," + PrintMembers(members[i + 1..])
    ensures i + 1 == |members| ==> PrintMembers(members[i + 1..]) == ""
  {
    assert members[i..][0] == members[i] && members[i..][1..] == members[i + 1..];
    hide PrintMember;
  }

  lemma MembersFollow(members: seq<Member>, i: nat)
    requires i + 1 < |members| && Representable(Object(members))
    ensures |PrintMembers(members[i + 1..])| > 0
  {
    assert CString(members[i + 1].key) && Representable(members[i + 1].value);
    MemberVisible(members[i + 1]);
    MembersLeft(members, i + 1);
  }

  lemma NoMemberLeft(members: seq<Member>, t: string, whole: string)
    requires t + PrintMembers(members[|members|..]) == "{" + whole
    ensures t == "{" + whole
  {
    assert members[|members|..] == [];
    assert t + "" == t;
  }

  /** cJSON_PrintUnformatted: the text, or nothing when it would be too long. */
  method PrintDocument(v: Json) returns (ok: bool, text: string)
    requires Representable(v)
    ensures ok <==> |Print(v)| + 2 <= MaxSize
    ensures ok ==> text == Print(v)
  {
    hide Print, Visible;
    var p := new PrintBuffer();
    ghost var b := p.buffer[..];
    text := "";
    ok := p.PrintValue(v);
    if ok {
      PrintVisible(v);
      p.Settle(b, 0, Print(v));
      text := p.buffer[..p.offset];
      assert p.buffer[..][0..0 + |Print(v)|] == Print(v);
    }
  }

  lemma VisibleRun(was: seq<char>, now: seq<char>, o: nat, t: string)
    requires Wrote(was, now, o, t) && Visible(t)
    ensures o + |t| < |now| && now[o + |t|] == '\0' && forall k :: o <= k < o + |t| ==> now[k] != '\0'
  {
    forall k | o <= k < o + |t|
      ensures now[k] != '\0'
    {
      assert now[o..o + |t|][k - o] == now[k];
    }
  }

  lemma WroteInside(was: seq<char>, now: seq<char>, o: nat, t: string)
    requires Wrote(was, now, o, t)
    ensures o + |t| < |now|
  {
  }

  lemma WroteLaid(was: seq<char>, now: seq<char>, o: nat, t: string)
    requires Wrote(was, now, o, t)
    ensures Laid(was, now, o, t)
  {
  }

  lemma ArrayText(items: seq<Json>)
    ensures Print(Array(items)) == "[" + PrintItems(items) + "]"
  {
  }

  lemma ObjectText(members: seq<Member>)
    ensures Print(Object(members)) == "{" + PrintMembers(members) + "}"
  {
  }

  lemma AllItemsLeft(items: seq<Json>)
    ensures "[" + PrintItems(items[0..]) == "[" + PrintItems(items)
  {
    assert items[0..] == items;
  }

  /** The text of the elements from i on. */
  lemma ItemsLeft(items: seq<Json>, i: nat)
    requires i < |items|
    ensures PrintItems(items[i..]) ==
            if i + 1 == |items| then Print(items[i]) else Print(items[i]) + "," + PrintItems(items[i + 1..])
    ensures i + 1 == |items| ==> PrintItems(items[i + 1..]) == ""
  {
    assert items[i..][0] == items[i] && items[i..][1..] == items[i + 1..];
    hide Print;
  }

  /** Something comes behind a comma. */
  lemma ItemsFollow(items: seq<Json>, i: nat)
    requires i + 1 < |items| && Representable(Array(items))
    ensures |PrintItems(items[i + 1..])| > 0
  {
    assert Representable(items[i + 1]);
    PrintVisible(items[i + 1]);
    ItemsLeft(items, i + 1);
  }

  lemma Shifted(t: string, p: string, comma: string, rest: string)
    ensures t + p + comma + rest == t + (p + comma + rest)
  {
  }

  lemma NothingLeft(items: seq<Json>, t: string, whole: string)
    requires t + PrintItems(items[|items|..]) == "[" + whole
    ensures t == "[" + whole
  {
    assert items[|items|..] == [];
    assert t + "" == t;
  }

  lemma ExtraSnoc(s: string, i: nat)
    requires i < |s|
    ensures ExtraIn(s[..i + 1]) == ExtraIn(s[..i]) + Extra(s[i])
  {
    assert s[..i + 1] == s[..i] + [s[i]];
    ExtraAppend(s[..i], [s[i]]);
    assert [s[i]][1..] == "";
    assert ExtraIn([s[i]]) == Extra(s[i]) + ExtraIn([s[i]][1..]);
  }

  lemma EscapedSnoc(s: string, i: nat)
    requires i < |s|
    ensures Escaped(s[..i + 1]) == Escaped(s[..i]) + Escape(s[i])
    ensures |Escaped(s[..i])| + |Escape(s[i])| <= |Escaped(s)|
  {
    hide Escape;
    assert s[..i + 1] == s[..i] + [s[i]];
    EscapedAppend(s[..i], [s[i]]);
    assert [s[i]][1..] == "";
    assert Escaped([s[i]]) == Escape(s[i]) + Escaped([s[i]][1..]);
    assert s == s[..i + 1] + s[i + 1..];
    EscapedAppend(s[..i + 1], s[i + 1..]);
  }

  lemma NothingEscaped(s: string)
    ensures Escaped(s[..0]) == "" && "\"" + Escaped(s[..0]) == "\""
  {
  }

  /** Without special bytes the escaped form is the string itself. */
  lemma {:induction false} NothingToEscape(s: string)
    requires ExtraIn(s) == 0
    ensures Escaped(s) == s
  {
    if s != [] {
      NothingToEscape(s[1..]);
      assert s == [s[0]] + s[1..];
    }
  }

  lemma QuotedLaid(b: seq<char>, c: seq<char>, d: seq<char>, e: seq<char>, o: nat, s: string)
    requires Laid(b, c, o, "") && Laid(c, d, o, "\"" + Escaped(s)) && Laid(d, e, o + |Escaped(s)| + 1, "\"\0")
    ensures Wrote(b, e, o, Quoted(s))
  {
    hide Escaped;
    LaidMore(b, c, d, o, "", "\"" + Escaped(s));
    assert "" + ("\"" + Escaped(s)) == "\"" + Escaped(s);
    LaidMore(b, d, e, o, "\"" + Escaped(s), "\"\0");
    assert "\"" + Escaped(s) + "\"\0" == "" + (Quoted(s) + "\0");
    hide Laid, Quoted;
    Closing(b, e, o, Quoted(s));
  }

  lemma Closing(b: seq<char>, c: seq<char>, o: nat, t: string)
    requires Laid(b, c, o, "" + (t + "\0"))
    ensures Wrote(b, c, o, t)
  {
    assert "" + (t + "\0") == t + "\0";
    assert c[o..o + |t| + 1][..|t|] == t && c[o..o + |t| + 1][|t|] == '\0';
    assert c[o..o + |t|] == c[o..o + |t| + 1][..|t|];
  }
}
