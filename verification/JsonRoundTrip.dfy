/** Parsing what was printed gives the value back. */
module JsonRoundTrip {
  import opened JsonText
  import opened Numerals
  import opened Wrappers
  import opened JsonGrammar

  lemma StartsSplit(C: string, o: nat, s: string, t: string)
    requires Starts(C, o, s + t)
    ensures Starts(C, o, s) && Starts(C, o + |s|, t)
  {
    assert C[o..o + |s + t|][..|s|] == s;
    assert C[o..o + |s + t|][|s|..] == t;
    assert C[o..o + |s|] == C[o..o + |s + t|][..|s|];
    assert C[o + |s|..o + |s| + |t|] == C[o..o + |s + t|][|s|..];
  }

  lemma StartsAt(C: string, o: nat, t: string, k: nat)
    requires Starts(C, o, t) && k < |t|
    ensures o + k < |C| && C[o + k] == t[k]
  {
    assert C[o..o + |t|][k] == C[o + k];
  }

  lemma SkipNothing(C: string, o: nat)
    requires o < |C| && C[o] > ' '
    ensures Skip(C, o) == o
  {
  }

  // ---------- strings ----------

  lemma EscapeEnd(C: string, i: nat, c: char)
    requires c < '\U{100}' && Starts(C, i, Escape(c))
    ensures i + |Escape(c)| <= |C| && StringEnd(C, i) == StringEnd(C, i + |Escape(c)|)
  {
    var t := Escape(c);
    StartsAt(C, i, t, 0);
    if |t| == 2 {
      StartsAt(C, i, t, 1);
    } else if |t| == 6 {
      EscapeLong(C, i, c);
    }
  }

  /** The six bytes of a long escape. */
  lemma EscapeLong(C: string, i: nat, c: char)
    requires |Escape(c)| == 6 && Starts(C, i, Escape(c))
    ensures i + 6 <= |C| && C[i] == '\\' && C[i + 1] == 'u' && C[i + 2] == '0' && C[i + 3] == '0'
    ensures C[i + 4] == HexDigit(c as int / 16) && C[i + 5] == HexDigit(c as int % 16)
    ensures StringEnd(C, i) == StringEnd(C, i + 6)
  {
    var t := Escape(c);
    StartsAt(C, i, t, 0);
    StartsAt(C, i, t, 1);
    StartsAt(C, i, t, 2);
    StartsAt(C, i, t, 3);
    StartsAt(C, i, t, 4);
    StartsAt(C, i, t, 5);
    StringEndHex(C, i);
  }

  lemma StringEndHex(C: string, i: nat)
    requires i + 6 <= |C| && C[i] == '\\'
    requires forall k :: i + 2 <= k < i + 6 ==> C[k] != '\\' && C[k] != '\"'
    ensures StringEnd(C, i) == StringEnd(C, i + 6)
  {
    assert StringEnd(C, i + 2) == StringEnd(C, i + 3);
    assert StringEnd(C, i + 3) == StringEnd(C, i + 4);
    assert StringEnd(C, i + 4) == StringEnd(C, i + 5);
    assert StringEnd(C, i + 5) == StringEnd(C, i + 6);
  }

  /** The scan for the closing quote runs over an escaped string. */
  lemma {:induction false} EndOfEscaped(C: string, i: nat, s: string)
    requires CString(s) && Starts(C, i, Escaped(s))
    ensures StringEnd(C, i) == StringEnd(C, i + |Escaped(s)|)
    decreases |s|
  {
    hide Escape, StringEnd;
    if s != [] {
      StartsSplit(C, i, Escape(s[0]), Escaped(s[1..]));
      EscapeEnd(C, i, s[0]);
      EndOfEscaped(C, i + |Escape(s[0])|, s[1..]);
    }
  }

  lemma HexRound(c: char)
    requires c < ' '
    ensures HexValue(HexDigit(c as int / 16)) == Some(c as int / 16)
    ensures HexValue(HexDigit(c as int % 16)) == Some(c as int % 16)
  {
  }

  /** One escaped byte is read back as that byte. */
  lemma UnescapeEscape(C: string, i: nat, e: nat, c: char)
    requires '\0' < c < '\U{100}' && Starts(C, i, Escape(c)) && i + |Escape(c)| <= e < |C|
    ensures UnescapeOne(C, i, e) == Some(([c], |Escape(c)|))
  {
    var t := Escape(c);
    StartsAt(C, i, t, 0);
    if |t| == 2 {
      StartsAt(C, i, t, 1);
    } else if |t| == 6 {
      EscapeLong(C, i, c);
      HexRound(c);
      assert Hex4(C, i + 2) == c as int;
      assert Utf8(c as int) == [c];
    }
  }

  lemma {:induction false} UnescapeEscaped(C: string, i: nat, e: nat, s: string)
    requires CString(s) && Starts(C, i, Escaped(s)) && i + |Escaped(s)| == e < |C|
    ensures Unescape(C, i, e) == Some(s)
    decreases |s|
  {
    hide Escape, UnescapeOne;
    if s != [] {
      EscapeVisible(s[0]);
      StartsSplit(C, i, Escape(s[0]), Escaped(s[1..]));
      UnescapeEscape(C, i, e, s[0]);
      UnescapeEscaped(C, i + |Escape(s[0])|, e, s[1..]);
      assert s == [s[0]] + s[1..];
    }
  }

  lemma StringRound(C: string, o: nat, s: string)
    requires CString(s) && Starts(C, o, Quoted(s))
    ensures StringAt(C, o) == Got(s, o + |Quoted(s)|)
  {
    hide Escaped, Unescape;
    assert Quoted(s) == "\"" + (Escaped(s) + "\"");
    StartsSplit(C, o, "\"", Escaped(s) + "\"");
    StartsSplit(C, o + 1, Escaped(s), "\"");
    StartsAt(C, o, "\"", 0);
    StartsAt(C, o + 1 + |Escaped(s)|, "\"", 0);
    EndOfEscaped(C, o + 1, s);
    UnescapeEscaped(C, o + 1, o + 1 + |Escaped(s)|, s);
  }

  // ---------- numbers ----------

  lemma {:induction false} DigitsRun(C: string, i: nat, t: string)
    requires Starts(C, i, t) && forall k :: 0 <= k < |t| ==> IsDigit(t[k])
    requires i + |t| < |C| ==> !IsDigit(C[i + |t|])
    ensures DigitsEnd(C, i) == i + |t|
    decreases |t|
  {
    if t != [] {
      assert t == t[..1] + t[1..];
      StartsSplit(C, i, t[..1], t[1..]);
      StartsAt(C, i, t, 0);
      DigitsRun(C, i + 1, t[1..]);
    }
  }

  /** What can follow a printed value. */
  predicate Delimits(C: string, o: nat) {
    o < |C| && (C[o] == '\0' || C[o] == ',' || C[o] == ']' || C[o] == '}')
  }

  lemma IntDigits(n: nat)
    requires n <= 0x8000_0000
    ensures |Digits(n)| <= 10
  {
    assert Power10(3) == 1000;
    assert Power10(6) == 1_000_000;
    assert Power10(9) == 1_000_000_000;
    assert Power10(10) == 10_000_000_000;
    DigitsShort(n, 10);
  }

  lemma NoDigitDelimits(C: string, o: nat)
    requires Delimits(C, o)
    ensures !IsDigit(C[o])
  {
  }

  /** Digits that are followed by a delimiter. */
  lemma DigitsRound(C: string, i: nat, m: nat)
    requires m <= 0x8000_0000 && Starts(C, i, Digits(m)) && Delimits(C, i + |Digits(m)|)
    ensures i < |C| && IsDigit(C[i]) && 0 < |Digits(m)| <= 10
    ensures DigitsEnd(C, i) == i + |Digits(m)| && Denoted(C[i..i + |Digits(m)|]) == m
  {
    hide Digits, Denoted, DigitsEnd, IsDigit;
    DigitsDenote(m);
    IntDigits(m);
    StartsAt(C, i, Digits(m), 0);
    NoDigitDelimits(C, i + |Digits(m)|);
    DigitsRun(C, i, Digits(m));
  }

  /** A run of at most ten digits before a delimiter, with its sign. */
  lemma NumberIs(C: string, o: nat, i: nat, e: nat, n: int)
    requires o < |C| && i == (if C[o] == '-' then o + 1 else o) && i <= |C| && e <= i + 10
    requires i < e == DigitsEnd(C, i) && Delimits(C, e) && CInt(n)
    requires n == if C[o] == '-' then 0 - Denoted(C[i..e]) else Denoted(C[i..e])
    ensures NumberAt(C, o) == Got(n, e)
  {
    hide Denoted, DigitsEnd;
  }

  lemma NumberRound(C: string, o: nat, n: int)
    requires CInt(n) && Starts(C, o, Decimal(n)) && Delimits(C, o + |Decimal(n)|)
    ensures o < |C| && NumberAt(C, o) == Got(n, o + |Decimal(n)|)
  {
    hide Digits, Denoted, DigitsEnd, Starts, NumberAt, Delimits;
    if n < 0 {
      StartsSplit(C, o, "-", Digits(-n));
      StartsAt(C, o, "-", 0);
      DigitsRound(C, o + 1, -n);
      NumberIs(C, o, o + 1, o + 1 + |Digits(-n)|, n);
    } else {
      DigitsRound(C, o, n);
      NumberIs(C, o, o, o + |Digits(n)|, n);
    }
  }

  // ---------- values ----------

  lemma Literal(C: string, o: nat, t: string, u: string)
    requires Starts(C, o, t) && |t| > 0 && |u| > 0 && t[0] != u[0]
    ensures !Starts(C, o, u)
  {
    StartsAt(C, o, t, 0);
    FirstByte(C, o, u);
  }

  lemma FirstByte(C: string, o: nat, u: string)
    requires |u| > 0
    ensures Starts(C, o, u) ==> o < |C| && C[o] == u[0]
  {
    if Starts(C, o, u) {
      StartsAt(C, o, u, 0);
    }
  }

  /** What parsing a printed value must give: the value itself, unless it is
      nested too deeply for where it stands. */
  ghost function Expected(v: Json, o: nat, d: nat): Parsed<Json> {
    if d + Depth(v) <= Limit then Got(v, o + |Print(v)|) else Failed
  }

  /** No literal name and no other kind of value begins like this one. */
  lemma KindOf(C: string, o: nat, v: Json)
    requires Representable(v) && Starts(C, o, Print(v)) && !v.Null? && !v.False? && !v.True?
    ensures o < |C| && Begins(v, C[o]) && C[o] > ' '
    ensures !Starts(C, o, "null") && !Starts(C, o, "false") && !Starts(C, o, "true")
  {
    PrintVisible(v);
    StartsAt(C, o, Print(v), 0);
    hide Print, Representable;
    Literal(C, o, Print(v), "null");
    Literal(C, o, Print(v), "false");
    Literal(C, o, Print(v), "true");
  }

  lemma LiteralRound(C: string, o: nat, d: nat, v: Json, t: string)
    requires v.Null? || v.False? || v.True?
    requires t == Print(v) && Starts(C, o, t)
    ensures ValueAt(C, o, d) == Got(v, o + |t|) && Depth(v) == 0
  {
    if v.False? {
      Literal(C, o, t, "null");
      assert t == "false" && |t| == 5;
    }
    if v.True? {
      Literal(C, o, t, "null");
      Literal(C, o, t, "false");
      assert t == "true" && |t| == 4;
    }
  }

  lemma {:induction false} ValueRound(C: string, o: nat, d: nat, v: Json)
    requires Representable(v) && Starts(C, o, Print(v)) && Delimits(C, o + |Print(v)|) && d <= Limit
    ensures ValueAt(C, o, d) == Expected(v, o, d)
    decreases v, 0
  {
    match v
    case Null => LiteralRound(C, o, d, v, "null");
    case False => LiteralRound(C, o, d, v, "false");
    case True => LiteralRound(C, o, d, v, "true");
    case Number(n) =>
      KindOf(C, o, v);
      NumberRound(C, o, n);
    case Text(s) =>
      KindOf(C, o, v);
      StringRound(C, o, s);
    case Array(items) =>
      KindOf(C, o, v);
      ArrayRound(C, o, d, items);
    case Object(members) =>
      KindOf(C, o, v);
      ObjectRound(C, o, d, members);
  }

  /** A closed bracket around nothing. */
  lemma {:induction false} ArrayRound(C: string, o: nat, d: nat, items: seq<Json>)
    requires Representable(Array(items)) && Starts(C, o, Print(Array(items))) && d <= Limit
    ensures o < |C| && ArrayAt(C, o, d) == Expected(Array(items), o, d)
    decreases items, 2
  {
    hide ItemsAt, Print, PrintItems, Starts, Skip;
    ArrayParts(C, o, items);
    if items == [] {
      assert PrintItems(items) + "]" == "]";
      StartsAt(C, o + 1, "]", 0);
      SkipNothing(C, o + 1);
    } else if d < Limit {
      ItemsRound(C, o + 1, d + 1, items);
      ItemsBegin(C, o + 1, items);
      SkipNothing(C, o + 1);
    }
  }

  lemma ArrayParts(C: string, o: nat, items: seq<Json>)
    requires Starts(C, o, Print(Array(items)))
    ensures o < |C| && C[o] == '[' && Starts(C, o + 1, PrintItems(items) + "]")
    ensures |Print(Array(items))| == |PrintItems(items)| + 2 && (items == [] ==> PrintItems(items) == "")
  {
    assert Print(Array(items)) == "[" + (PrintItems(items) + "]");
    hide Print, PrintItems, Starts;
    StartsSplit(C, o, "[", PrintItems(items) + "]");
    StartsAt(C, o, "[", 0);
  }

  lemma ObjectParts(C: string, o: nat, members: seq<Member>)
    requires Starts(C, o, Print(Object(members)))
    ensures o < |C| && C[o] == '{' && Starts(C, o + 1, PrintMembers(members) + "}")
    ensures |Print(Object(members))| == |PrintMembers(members)| + 2 && (members == [] ==> PrintMembers(members) == "")
  {
    assert Print(Object(members)) == "{" + (PrintMembers(members) + "}");
    hide Print, PrintMembers, Starts;
    StartsSplit(C, o, "{", PrintMembers(members) + "}");
    StartsAt(C, o, "{", 0);
  }

  lemma Regroup(a: string, b: string, c: string, d: string)
    ensures (a + b + c) + d == a + (b + (c + d))
  {
  }

  /** What follows the first element. */
  function ItemsRest(items: seq<Json>): string
    requires items != []
  {
    if |items| == 1 then "]" else "," + (PrintItems(items[1..]) + "]")
  }

  lemma ItemsText(items: seq<Json>)
    requires items != []
    ensures PrintItems(items) + "]" == Print(items[0]) + ItemsRest(items)
    ensures |PrintItems(items)| == |Print(items[0])| + if |items| == 1 then 0 else 1 + |PrintItems(items[1..])|
  {
    if |items| > 1 {
      Regroup(Print(items[0]), ",", PrintItems(items[1..]), "]");
    }
    hide Print;
  }

  function MembersRest(members: seq<Member>): string
    requires members != []
  {
    if |members| == 1 then "}" else "," + (PrintMembers(members[1..]) + "}")
  }

  lemma MembersText(members: seq<Member>)
    requires members != []
    ensures PrintMembers(members) + "}" == PrintMember(members[0]) + MembersRest(members)
    ensures |PrintMembers(members)| == |PrintMember(members[0])| + if |members| == 1 then 0 else 1 + |PrintMembers(members[1..])|
  {
    if |members| > 1 {
      Regroup(PrintMember(members[0]), ",", PrintMembers(members[1..]), "}");
    }
    hide PrintMember;
  }

  lemma ItemsBegin(C: string, o: nat, items: seq<Json>)
    requires items != [] && Representable(items[0]) && Starts(C, o, PrintItems(items) + "]")
    ensures o < |C| && C[o] > ' ' && C[o] != ']' && Starts(C, o, Print(items[0]))
    ensures |items| == 1 ==> Sees(C, o + |Print(items[0])|, ']')
    ensures |items| > 1 ==> Sees(C, o + |Print(items[0])|, ',') && Starts(C, o + |Print(items[0])| + 1, PrintItems(items[1..]) + "]")
    ensures |PrintItems(items)| == |Print(items[0])| + if |items| == 1 then 0 else 1 + |PrintItems(items[1..])|
  {
    hide Print, PrintItems, Representable, Starts, Visible;
    var p, rest := Print(items[0]), ItemsRest(items);
    PrintVisible(items[0]);
    ItemsText(items);
    StartsSplit(C, o, p, rest);
    StartsAt(C, o, p, 0);
    StartsAt(C, o + |p|, rest, 0);
    if |items| > 1 {
      StartsSplit(C, o + |p|, ",", PrintItems(items[1..]) + "]");
    }
  }

  lemma {:induction false} ItemsRound(C: string, o: nat, d: nat, items: seq<Json>)
    requires d <= Limit && items != [] && (forall i :: 0 <= i < |items| ==> Representable(items[i])) && Starts(C, o, PrintItems(items) + "]")
    ensures ItemsAt(C, o, d) == if d + DeepestItem(items) <= Limit then Got(items, o + |PrintItems(items)| + 1) else Failed
    decreases items, 1
  {
    hide ValueAt, Representable, Print, PrintItems, Skip, Depth;
    var p := Print(items[0]);
    ItemsBegin(C, o, items);
    SkipNothing(C, o);
    ValueRound(C, o, d, items[0]);
    SkipNothing(C, o + |p|);
    if |items| == 1 {
      assert items == [items[0]];
    } else {
      ItemsRound(C, o + |p| + 1, d, items[1..]);
      assert items == [items[0]] + items[1..];
    }
  }

  lemma {:induction false} ObjectRound(C: string, o: nat, d: nat, members: seq<Member>)
    requires Representable(Object(members)) && Starts(C, o, Print(Object(members))) && d <= Limit
    ensures o < |C| && ObjectAt(C, o, d) == Expected(Object(members), o, d)
    decreases members, 2
  {
    hide MembersAt, Print, PrintMembers, Starts, Skip;
    ObjectParts(C, o, members);
    if members == [] {
      assert PrintMembers(members) + "}" == "}";
      StartsAt(C, o + 1, "}", 0);
      SkipNothing(C, o + 1);
    } else if d < Limit {
      MembersRound(C, o + 1, d + 1, members);
      MembersBegin(C, o + 1, members);
      SkipNothing(C, o + 1);
    }
  }

  lemma MembersBegin(C: string, o: nat, members: seq<Member>)
    requires members != [] && CString(members[0].key) && Representable(members[0].value) && Starts(C, o, PrintMembers(members) + "}")
    ensures o < |C| && C[o] > ' ' && C[o] != '}' && Starts(C, o, PrintMember(members[0]))
    ensures |members| == 1 ==> Sees(C, o + |PrintMember(members[0])|, '}')
    ensures |members| > 1 ==> Sees(C, o + |PrintMember(members[0])|, ',')
    ensures |members| > 1 ==> Starts(C, o + |PrintMember(members[0])| + 1, PrintMembers(members[1..]) + "}")
    ensures |PrintMembers(members)| == |PrintMember(members[0])| + if |members| == 1 then 0 else 1 + |PrintMembers(members[1..])|
  {
    hide PrintMember, PrintMembers, Representable, Starts, Quoted, CString, Visible;
    var p, rest := PrintMember(members[0]), MembersRest(members);
    MemberVisible(members[0]);
    MembersText(members);
    StartsSplit(C, o, p, rest);
    StartsAt(C, o, p, 0);
    StartsAt(C, o + |p|, rest, 0);
    if |members| > 1 {
      StartsSplit(C, o + |p|, ",", PrintMembers(members[1..]) + "}");
    }
  }

  /** A name, a colon and a value. */
  lemma {:induction false} MemberRound(C: string, o: nat, d: nat, m: Member)
    requires d <= Limit && CString(m.key) && Representable(m.value) && Starts(C, o, PrintMember(m)) && Delimits(C, o + |PrintMember(m)|)
    ensures MemberAt(C, o, d) == if d + Depth(m.value) <= Limit then Got(m, o + |PrintMember(m)|) else Failed
    decreases m, 1
  {
    hide ValueAt, Representable, Print, Depth, Quoted, StringAt, Starts, PrintMember, CString;
    var n := o + |Quoted(m.key)|;
    MemberParts(C, o, m);
    StringRound(C, o, m.key);
    SkipNothing(C, o);
    SkipNothing(C, n);
    SkipNothing(C, n + 1);
    hide Skip;
    ValueRound(C, n + 1, d, m.value);
  }

  lemma MemberParts(C: string, o: nat, m: Member)
    requires CString(m.key) && Representable(m.value) && Starts(C, o, PrintMember(m))
    ensures var n := o + |Quoted(m.key)|;
      && Starts(C, o, Quoted(m.key)) && o < |C| && C[o] == '\"' && Sees(C, n, ':')
      && Starts(C, n + 1, Print(m.value)) && n + 1 < |C| && C[n + 1] > ' '
      && n + 1 + |Print(m.value)| == o + |PrintMember(m)|
  {
    hide Representable, Print, Quoted, Starts, CString, Visible;
    var k := Quoted(m.key);
    QuotedVisible(m.key);
    PrintVisible(m.value);
    assert PrintMember(m) == k + (":" + Print(m.value));
    hide PrintMember;
    StartsSplit(C, o, k, ":" + Print(m.value));
    StartsSplit(C, o + |k|, ":", Print(m.value));
    StartsAt(C, o, k, 0);
    StartsAt(C, o + |k|, ":", 0);
    StartsAt(C, o + |k| + 1, Print(m.value), 0);
    BeginsVisible(m.value, C[o + |k| + 1]);
  }

  lemma BeginsVisible(v: Json, c: char)
    requires Begins(v, c)
    ensures c > ' '
  {
  }

  lemma {:induction false} MembersRound(C: string, o: nat, d: nat, members: seq<Member>)
    requires d <= Limit && members != [] && Starts(C, o, PrintMembers(members) + "}")
    requires forall i :: 0 <= i < |members| ==> CString(members[i].key) && Representable(members[i].value)
    ensures MembersAt(C, o, d) == if d + DeepestMember(members) <= Limit then Got(members, o + |PrintMembers(members)| + 1) else Failed
    decreases members, 1
  {
    hide MemberAt, Representable, PrintMember, PrintMembers, Skip, Depth;
    var p := PrintMember(members[0]);
    MembersBegin(C, o, members);
    MemberRound(C, o, d, members[0]);
    SkipNothing(C, o + |p|);
    if |members| == 1 {
      assert members == [members[0]];
    } else {
      MembersRound(C, o + |p| + 1, d, members[1..]);
      assert members == [members[0]] + members[1..];
    }
  }

  // ---------- whole texts ----------

  /** Where parsing begins: after a byte order mark and white space. */
  function Begin(C: string): nat {
    Skip(C, if |C| > 4 && C[..3] == "\U{EF}\U{BB}\U{BF}" then 3 else 0)
  }

  /** cJSON_Parse: the buffer is the text with its NUL. */
  function Parse(text: string): Parsed<Json> {
    ValueAt(text + "\0", Begin(text + "\0"), 0)
  }

  /** Parsing the printed text of a value gives the value, all of it, exactly when
      it is not nested deeper than the limit. */
  lemma RoundTrip(v: Json)
    requires Representable(v)
    ensures Parse(Print(v)) == if Depth(v) <= Limit then Got(v, |Print(v)|) else Failed
  {
    var C := Print(v) + "\0";
    PrintVisible(v);
    BeginsVisible(v, C[0]);
    hide Print, Representable, Visible, ValueAt;
    SkipNothing(C, 0);
    assert |C| > 4 ==> C[..3][0] == C[0];
    assert Begin(C) == 0;
    assert C[0..|Print(v)|] == Print(v);
    ValueRound(C, 0, 0, v);
  }

  /** Two values with the same text are the same. */
  lemma PrintInjective(v: Json, w: Json)
    requires Representable(v) && Representable(w) && Print(v) == Print(w) && Depth(v) <= Limit
    ensures v == w
  {
    RoundTrip(v);
    RoundTrip(w);
  }
}
