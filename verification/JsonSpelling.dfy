/** Which texts stand for a value, said without the parser, and that the parser
    of cJSON accepts exactly these. */
module JsonSpelling {
  import opened JsonText
  import opened Numerals
  import opened Wrappers
  import opened JsonGrammar
  import opened JsonRoundTrip

  // ---------- the grammar ----------

  /** White space from o up to the visible byte at a. */
  ghost predicate Gap(C: string, o: nat, a: nat) {
    && o <= a < |C| && C[a] > ' '
    && forall k :: o <= k < a ==> C[k] <= ' '
  }

  ghost predicate Nibble(c: char, v: nat) {
    v < 16 && ("0123456789abcdef"[v] == c || "0123456789ABCDEF"[v] == c)
  }

  /** Four hexadecimal digits with the value h. Anything else stands for 0. */
  ghost predicate Digits4(p: char, q: char, r: char, s: char, h: nat) {
    exists a: nat, b: nat, c: nat, d: nat ::
      && Nibble(p, a) && Nibble(q, b) && Nibble(r, c) && Nibble(s, d)
      && h == 0x1000 * a + 0x100 * b + 0x10 * c + d
  }

  ghost predicate Unit(C: string, j: nat, h: nat)
    requires j + 4 <= |C|
  {
    || Digits4(C[j], C[j + 1], C[j + 2], C[j + 3], h)
    || (h == 0 && exists k :: j <= k < j + 4 && forall v: nat :: !Nibble(C[k], v))
  }

  /** The bytes that stand for a code point in UTF-8: those that decode to it, in
      the shortest form. */
  ghost predicate Encodes(t: string, cp: nat) {
    match |t|
    case 1 => cp < 0x80 && t[0] as int == cp
    case 2 => 0x80 <= cp < 0x800 && Lead(t[0], 0xC0, 0x20) && More(t[1]) && cp == (t[0] as int - 0xC0) * 0x40 + Low(t[1])
    case 3 =>
      && 0x800 <= cp < 0x10000 && Lead(t[0], 0xE0, 0x10) && More(t[1]) && More(t[2])
      && cp == ((t[0] as int - 0xE0) * 0x40 + Low(t[1])) * 0x40 + Low(t[2])
    case 4 =>
      && 0x10000 <= cp < 0x110000 && Lead(t[0], 0xF0, 8) && More(t[1]) && More(t[2]) && More(t[3])
      && cp == (((t[0] as int - 0xF0) * 0x40 + Low(t[1])) * 0x40 + Low(t[2])) * 0x40 + Low(t[3])
    case _ => false
  }

  predicate Lead(c: char, from: int, n: int) {
    from <= c as int < from + n
  }

  predicate More(c: char) {
    0x80 <= c as int < 0xC0
  }

  function Low(c: char): int {
    c as int - 0x80
  }

  /** The letter behind a backslash and the byte it stands for. */
  predicate Short(c: char, x: char) {
    || (c == x && (c == '\"' || c == '\\' || c == '/'))
    || (c == 'b' && x as int == 8)
    || (c == 't' && x as int == 9)
    || (c == 'n' && x as int == 10)
    || (c == 'f' && x as int == 12)
    || (c == 'r' && x as int == 13)
  }

  /** The k bytes from i on, in a string that is closed at e, stand for t. */
  ghost predicate Piece(C: string, i: nat, e: nat, k: nat, t: string)
    requires i < e < |C|
  {
    if C[i] != '\\' then k == 1 && t == [C[i]]
    else if C[i + 1] != 'u' then k == 2 && |t| == 1 && Short(C[i + 1], t[0])
    else
      && i + k <= e && k % 6 == 0
      && if k == 6 then Single(C, i, t) else k == 12 && C[i + 6] == '\\' && C[i + 7] == 'u' && Pair(C, i + 2, i + 8, t)
  }

  predicate Surrogate(h: nat) {
    0xD800 <= h <= 0xDFFF
  }

  ghost predicate Single(C: string, i: nat, t: string)
    requires i + 6 <= |C|
  {
    exists h: nat :: Unit(C, i + 2, h) && !Surrogate(h) && Encodes(t, h)
  }

  /** A surrogate pair, with its digits at j and k. */
  ghost predicate Pair(C: string, j: nat, k: nat, t: string)
    requires j + 4 <= |C| && k + 4 <= |C|
  {
    exists h: nat, l: nat ::
      && Unit(C, j, h) && 0xD800 <= h < 0xDC00 && Unit(C, k, l) && 0xDC00 <= l < 0xE000
      && Encodes(t, 0x10000 + (h - 0xD800) * 0x400 + (l - 0xDC00))
  }

  /** The bytes from i to the closing quote at e stand for s. */
  ghost predicate Spelled(C: string, i: nat, e: nat, s: string)
    requires e < |C|
    decreases |C| - i
  {
    if i >= e then s == ""
    else exists k: nat, t: string ::
      && Piece(C, i, e, k, t) && k > 0 && |t| <= |s| && s[..|t|] == t
      && Spelled(C, i + k, e, s[|t|..])
  }

  /** How many backslashes stand directly before k, from i on. */
  function Backslashes(C: string, i: nat, k: nat): nat
    requires k <= |C|
    decreases k
  {
    if i < k && C[k - 1] == '\\' then 1 + Backslashes(C, i, k - 1) else 0
  }

  predicate Masked(C: string, i: nat, k: nat)
    requires k <= |C|
  {
    Backslashes(C, i, k) % 2 == 1
  }

  /** The first quote from i on that is not masked by a backslash. */
  ghost predicate Closes(C: string, i: nat, e: nat) {
    && i <= e < |C| && C[e] == '\"' && !Masked(C, i, e)
    && forall k :: i <= k < e && C[k] == '\"' ==> Masked(C, i, k)
  }

  ghost predicate SpellsText(C: string, o: nat, e: nat, s: string) {
    && o + 2 <= e <= |C| && C[o] == '\"' && Closes(C, o + 1, e - 1)
    && Spelled(C, o + 1, e - 1, s)
  }

  /** A sign and at most 62 bytes, not followed by what would continue a number. */
  ghost predicate SpellsNumber(C: string, o: nat, e: nat, n: int) {
    && o < e <= |C| && e - o < 63 && CInt(n)
    && (e < |C| ==> !IsDigit(C[e]) && C[e] !in ".eE")
    && var s := if C[o] == '-' then o + 1 else o;
       && s < e && (forall k :: s <= k < e ==> IsDigit(C[k]))
       && n == if C[o] == '-' then 0 - Denoted(C[s..e]) else Denoted(C[s..e])
  }

  /** The bytes from o to e stand for the value. */
  ghost predicate Spells(C: string, o: nat, e: nat, v: Json)
    decreases v, 1
  {
    match v
    case Null => o + 4 == e <= |C| && C[o..e] == "null"
    case False => o + 5 == e <= |C| && C[o..e] == "false"
    case True => o + 4 == e <= |C| && C[o..e] == "true"
    case Number(n) => SpellsNumber(C, o, e, n)
    case Text(s) => SpellsText(C, o, e, s)
    case Array(items) =>
      && o < |C| && C[o] == '['
      && if items == [] then e > 0 && Gap(C, o + 1, e - 1) && Sees(C, e - 1, ']') else SpellsItems(C, o + 1, e, items)
    case Object(members) =>
      && o < |C| && C[o] == '{'
      && if members == [] then e > 0 && Gap(C, o + 1, e - 1) && Sees(C, e - 1, '}') else SpellsMembers(C, o + 1, e, members)
  }

  /** Elements with commas between them and the closing bracket. */
  ghost predicate SpellsItems(C: string, o: nat, e: nat, items: seq<Json>)
    requires items != []
    decreases items, 2
  {
    exists a: nat, b: nat, c: nat ::
      && Gap(C, o, a) && Spells(C, a, b, items[0]) && Gap(C, b, c)
      && if |items| == 1 then Sees(C, c, ']') && e == c + 1 else Sees(C, c, ',') && SpellsItems(C, c + 1, e, items[1..])
  }

  ghost predicate SpellsMember(C: string, o: nat, e: nat, m: Member)
    decreases m, 2
  {
    exists a: nat, b: nat, c: nat, f: nat ::
      && Gap(C, o, a) && SpellsText(C, a, b, m.key) && Gap(C, b, c) && Sees(C, c, ':')
      && Gap(C, c + 1, f) && Spells(C, f, e, m.value)
  }

  ghost predicate SpellsMembers(C: string, o: nat, e: nat, members: seq<Member>)
    requires members != []
    decreases members, 3
  {
    exists b: nat, c: nat ::
      && SpellsMember(C, o, b, members[0]) && Gap(C, b, c)
      && if |members| == 1 then Sees(C, c, '}') && e == c + 1 else Sees(C, c, ',') && SpellsMembers(C, c + 1, e, members[1..])
  }

  // ---------- white space ----------

  lemma {:induction false} VisibleIs(C: string, o: nat)
    requires o <= |C|
    ensures forall k :: o <= k < FirstVisible(C, o) ==> C[k] <= ' '
    ensures FirstVisible(C, o) < |C| ==> C[FirstVisible(C, o)] > ' '
    decreases |C| - o
  {
    if o < |C| && C[o] <= ' ' {
      VisibleIs(C, o + 1);
    }
  }

  /** Skipping ends where the gap ends. */
  lemma SkipIs(C: string, o: nat, a: nat)
    requires a < |C| && C[a] > ' '
    ensures Skip(C, o) == a <==> Gap(C, o, a)
  {
    if o < |C| {
      VisibleIs(C, o);
    }
  }

  // ---------- strings ----------

  lemma NibbleIs(c: char, v: nat)
    ensures Nibble(c, v) <==> HexValue(c) == Some(v)
  {
    if v < 16 {
      var low, high := "0123456789abcdef", "0123456789ABCDEF";
      assert low[v] as int == (if v < 10 then 48 + v else 87 + v) && high[v] as int == if v < 10 then 48 + v else 55 + v;
    }
  }

  lemma NoNibble(c: char)
    ensures HexValue(c).None? <==> forall v: nat :: !Nibble(c, v)
  {
    forall v: nat
      ensures Nibble(c, v) <==> HexValue(c) == Some(v)
    {
      NibbleIs(c, v);
    }
    hide Nibble;
    if HexValue(c).Some? {
      assert Nibble(c, HexValue(c).value);
    }
  }

  lemma UnitIs(C: string, j: nat, h: nat)
    requires j + 4 <= |C|
    ensures Unit(C, j, h) <==> Hex4(C, j) == h
  {
    forall c: char, v: nat
      ensures Nibble(c, v) <==> HexValue(c) == Some(v)
    {
      NibbleIs(c, v);
    }
    forall c: char
      ensures HexValue(c).None? <==> forall v: nat :: !Nibble(c, v)
    {
      NoNibble(c);
    }
    hide Nibble, HexValue;
    var p, q, r, s := HexValue(C[j]), HexValue(C[j + 1]), HexValue(C[j + 2]), HexValue(C[j + 3]);
    if p.Some? && q.Some? && r.Some? && s.Some? {
      assert Nibble(C[j], p.value) && Nibble(C[j + 1], q.value) && Nibble(C[j + 2], r.value) && Nibble(C[j + 3], s.value);
    }
  }

  /** The bytes are those of the encoder, and only those. */
  lemma EncodesIs(t: string, cp: nat)
    requires cp < 0x110000
    ensures Encodes(t, cp) <==> t == Utf8(cp)
  {
    Decoded(cp);
    if Encodes(t, cp) {
      Encoded(t, cp);
    }
  }

  lemma Decoded(cp: nat)
    requires cp < 0x110000
    ensures Encodes(Utf8(cp), cp)
  {
    var a := cp / 0x40;
    var b := a / 0x40;
    assert b == cp / 0x1000 && b / 0x40 == cp / 0x40000;
  }

  lemma Encoded(t: string, cp: nat)
    requires cp < 0x110000 && Encodes(t, cp)
    ensures t == Utf8(cp)
  {
    if |t| == 2 {
      Split(t[0] as int - 0xC0, Low(t[1]));
    } else if |t| == 3 {
      Encoded3(t, cp);
    } else if |t| == 4 {
      Encoded4(t, cp);
    }
  }

  lemma Split(q: nat, r: nat)
    requires r < 0x40
    ensures (q * 0x40 + r) / 0x40 == q && (q * 0x40 + r) % 0x40 == r
  {
  }

  lemma Encoded3(t: string, cp: nat)
    requires |t| == 3 && cp < 0x110000 && Encodes(t, cp)
    ensures t == Utf8(cp)
  {
    var a := (t[0] as int - 0xE0) * 0x40 + Low(t[1]);
    Split(a, Low(t[2]));
    Split(t[0] as int - 0xE0, Low(t[1]));
    assert cp / 0x1000 == a / 0x40;
  }

  lemma Encoded4(t: string, cp: nat)
    requires |t| == 4 && cp < 0x110000 && Encodes(t, cp)
    ensures t == Utf8(cp)
  {
    var a := (t[0] as int - 0xF0) * 0x40 + Low(t[1]);
    var b := a * 0x40 + Low(t[2]);
    Split(b, Low(t[3]));
    Split(a, Low(t[2]));
    Split(t[0] as int - 0xF0, Low(t[1]));
    assert cp / 0x1000 == a && cp / 0x40000 == a / 0x40;
  }

  lemma ShortIs(c: char, x: char)
    ensures Short(c, x) <==> Simple(c) == Some(x)
  {
  }

  lemma SingleIs(C: string, i: nat, t: string)
    requires i + 6 <= |C|
    ensures Single(C, i, t) <==> !Surrogate(Hex4(C, i + 2)) && t == Utf8(Hex4(C, i + 2))
  {
    hide Unit, Encodes, Utf8, Hex4;
    var h := Hex4(C, i + 2);
    UnitIs(C, i + 2, h);
    EncodesIs(t, h);
    if x: nat :| Unit(C, i + 2, x) && !Surrogate(x) && Encodes(t, x) {
      UnitIs(C, i + 2, x);
    }
  }

  lemma PairIs(C: string, j: nat, k: nat, t: string)
    requires j + 4 <= |C| && k + 4 <= |C|
    ensures var h, l := Hex4(C, j), Hex4(C, k);
      Pair(C, j, k, t) <==>
      0xD800 <= h < 0xDC00 && 0xDC00 <= l < 0xE000 && t == Utf8(0x10000 + (h % 0x400) * 0x400 + l % 0x400)
  {
    hide Unit, Encodes, Utf8, Hex4;
    var h, l := Hex4(C, j), Hex4(C, k);
    UnitIs(C, j, h);
    UnitIs(C, k, l);
    if 0xD800 <= h < 0xDC00 && 0xDC00 <= l < 0xE000 {
      EncodesIs(t, 0x10000 + (h - 0xD800) * 0x400 + (l - 0xDC00));
    }
    if Pair(C, j, k, t) {
      var x: nat, y: nat :|
        && Unit(C, j, x) && 0xD800 <= x < 0xDC00 && Unit(C, k, y) && 0xDC00 <= y < 0xE000
        && Encodes(t, 0x10000 + (x - 0xD800) * 0x400 + (y - 0xDC00));
      UnitIs(C, j, x);
      UnitIs(C, k, y);
    }
  }

  lemma PieceIs(C: string, i: nat, e: nat, k: nat, t: string)
    requires i < e < |C|
    ensures Piece(C, i, e, k, t) && k > 0 <==> UnescapeOne(C, i, e) == Some((t, k))
  {
    hide Single, Pair, Hex4, Utf8, Short, Simple;
    if C[i] == '\\' {
      if C[i + 1] != 'u' {
        if |t| == 1 {
          ShortIs(C[i + 1], t[0]);
          assert t == [t[0]];
        }
      } else if i + 6 <= e {
        SingleIs(C, i, t);
        if i + 12 <= e {
          PairIs(C, i + 2, i + 8, t);
        }
      }
    }
  }

  lemma {:induction false} SpelledIs(C: string, i: nat, e: nat, s: string)
    requires e < |C|
    ensures Spelled(C, i, e, s) <==> Unescape(C, i, e) == Some(s)
    decreases |C| - i
  {
    hide Piece, UnescapeOne;
    if i < e {
      if Unescape(C, i, e) == Some(s) {
        var (t, k) := UnescapeOne(C, i, e).value;
        PieceIs(C, i, e, k, t);
        SpelledIs(C, i + k, e, s[|t|..]);
        assert Piece(C, i, e, k, t);
      }
      if Spelled(C, i, e, s) {
        var k: nat, t: string :| Piece(C, i, e, k, t) && k > 0 && |t| <= |s| && s[..|t|] == t && Spelled(C, i + k, e, s[|t|..]);
        PieceIs(C, i, e, k, t);
        SpelledIs(C, i + k, e, s[|t|..]);
        assert s == t + s[|t|..];
      }
    }
  }

  // ---------- the closing quote ----------

  /** A step of the scan changes no parity behind it. */
  lemma {:induction false} SameMask(C: string, i: nat, j: nat, k: nat)
    requires i < j <= k <= |C| && j == if C[i] == '\\' then i + 2 else i + 1
    ensures Masked(C, i, k) == Masked(C, j, k)
    decreases k
  {
    if k > j {
      if C[k - 1] == '\\' {
        SameMask(C, i, j, k - 1);
      }
    } else if j == i + 2 {
      assert Backslashes(C, i, i + 1) == 1 + Backslashes(C, i, i);
    }
  }

  lemma MaskedNext(C: string, i: nat)
    requires i < |C| && C[i] == '\\'
    ensures Masked(C, i, i + 1)
  {
    assert Backslashes(C, i, i + 1) == 1 + Backslashes(C, i, i);
  }

  lemma {:induction false} ClosesStep(C: string, i: nat, j: nat, e: nat)
    requires i < |C| && C[i] != '\"' && j == if C[i] == '\\' then i + 2 else i + 1
    ensures Closes(C, i, e) <==> Closes(C, j, e)
  {
    hide Masked;
    forall k | j <= k <= |C|
      ensures Masked(C, i, k) == Masked(C, j, k)
    {
      SameMask(C, i, j, k);
    }
    if j == i + 2 && i + 1 < |C| {
      MaskedNext(C, i);
    }
  }

  lemma {:induction false} ClosesIs(C: string, i: nat, e: nat)
    ensures Closes(C, i, e) <==> StringEnd(C, i) == Some(e)
    decreases |C| - i
  {
    if i < |C| {
      if C[i] == '\"' {
        assert !Masked(C, i, i);
      } else {
        var j := if C[i] == '\\' then i + 2 else i + 1;
        ClosesStep(C, i, j, e);
        ClosesIs(C, j, e);
      }
    }
  }

  lemma TextIs(C: string, o: nat, e: nat, s: string)
    ensures SpellsText(C, o, e, s) <==> StringAt(C, o) == Got(s, e)
  {
    hide Closes, Spelled, Unescape, StringEnd;
    if o + 2 <= e <= |C| {
      ClosesIs(C, o + 1, e - 1);
      SpelledIs(C, o + 1, e - 1, s);
    }
  }

  // ---------- numbers ----------

  lemma {:induction false} DigitsStop(C: string, i: nat)
    requires i <= |C|
    ensures DigitsEnd(C, i) < |C| ==> !IsDigit(C[DigitsEnd(C, i)])
    decreases |C| - i
  {
    if i < |C| && IsDigit(C[i]) {
      DigitsStop(C, i + 1);
    }
  }

  lemma DigitsAre(C: string, i: nat, e: nat)
    requires i <= e <= |C| && (forall k :: i <= k < e ==> IsDigit(C[k])) && (e < |C| ==> !IsDigit(C[e]))
    ensures DigitsEnd(C, i) == e
  {
    DigitsStop(C, i);
  }

  lemma NumberIsSpelled(C: string, o: nat, e: nat, n: int)
    requires o < |C|
    ensures SpellsNumber(C, o, e, n) <==> NumberAt(C, o) == Got(n, e)
  {
    hide Denoted, DigitsEnd, IsDigit;
    var s := if C[o] == '-' then o + 1 else o;
    DigitsStop(C, s);
    if SpellsNumber(C, o, e, n) {
      DigitsAre(C, s, e);
    }
  }

  // ---------- values ----------

  /** A value begins with a visible byte that tells its kind. */
  lemma SpellsBegin(C: string, o: nat, e: nat, v: Json)
    requires Spells(C, o, e, v)
    ensures o < |C| && Begins(v, C[o]) && C[o] > ' '
  {
    match v
    case Null => assert C[o..e][0] == C[o];
    case False => assert C[o..e][0] == C[o];
    case True => assert C[o..e][0] == C[o];
    case _ =>
  }

  lemma ParsedBegin(C: string, o: nat, d: nat)
    requires ValueAt(C, o, d).Got?
    ensures o < |C| && Begins(ValueAt(C, o, d).value, C[o]) && C[o] > ' '
  {
    hide StringAt, NumberAt, ItemsAt, MembersAt;
    FirstByte(C, o, "null");
    FirstByte(C, o, "false");
    FirstByte(C, o, "true");
  }

  /** The parser accepts exactly the texts of the grammar that are not nested too
      deeply, each as the value it stands for. */
  lemma {:induction false} ValueIs(C: string, o: nat, e: nat, d: nat, v: Json)
    requires d <= 1000
    ensures ValueAt(C, o, d) == Got(v, e) <==> Spells(C, o, e, v) && d + Depth(v) <= 1000
    decreases v, 0
  {
    if ValueAt(C, o, d) == Got(v, e) {
      ParsedBegin(C, o, d);
    }
    if Spells(C, o, e, v) {
      SpellsBegin(C, o, e, v);
    }
    if o < |C| && Begins(v, C[o]) {
      FirstByte(C, o, "null");
      FirstByte(C, o, "false");
      FirstByte(C, o, "true");
      match v
      case Null =>
      case False =>
      case True =>
      case Number(n) => NumberIsSpelled(C, o, e, n);
      case Text(s) => TextIs(C, o, e, s);
      case Array(items) => ArrayIs(C, o, e, d, items);
      case Object(members) => ObjectIs(C, o, e, d, members);
    }
  }

  lemma GapLater(C: string, o: nat, a: nat)
    ensures Gap(C, o, a) <==> Gap(C, Skip(C, o), a)
  {
    if o < |C| {
      VisibleIs(C, o);
    }
  }

  // ---------- arrays ----------

  lemma ItemsSome(C: string, o: nat, d: nat)
    ensures ItemsAt(C, o, d).Got? ==> ItemsAt(C, o, d).value != []
  {
    hide ValueAt;
  }

  /** White space before the first element makes no difference. */
  lemma ItemsLater(C: string, o: nat, e: nat, items: seq<Json>)
    requires items != []
    ensures SpellsItems(C, o, e, items) <==> SpellsItems(C, Skip(C, o), e, items)
    ensures SpellsItems(C, o, e, items) ==> Skip(C, o) < |C| && !Sees(C, Skip(C, o), ']')
  {
    hide Spells, Gap, Skip;
    forall a: nat
      ensures Gap(C, o, a) <==> Gap(C, Skip(C, o), a)
    {
      GapLater(C, o, a);
    }
    if SpellsItems(C, o, e, items) {
      var a: nat, b: nat, c: nat :|
        && Gap(C, o, a) && Spells(C, a, b, items[0]) && Gap(C, b, c)
        && if |items| == 1 then Sees(C, c, ']') && e == c + 1 else Sees(C, c, ',') && SpellsItems(C, c + 1, e, items[1..]);
      SpellsBegin(C, a, b, items[0]);
      SkipIs(C, o, a);
    }
  }

  lemma {:induction false} ArrayIs(C: string, o: nat, e: nat, d: nat, items: seq<Json>)
    requires d <= 1000 && o < |C| && C[o] == '['
    ensures ArrayAt(C, o, d) == Got(Array(items), e) <==> Spells(C, o, e, Array(items)) && d + Depth(Array(items)) <= 1000
    decreases items, 6
  {
    hide ItemsAt, SpellsItems, Skip, Gap;
    var s := Skip(C, o + 1);
    if items == [] {
      if e > 0 && Sees(C, e - 1, ']') {
        SkipIs(C, o + 1, e - 1);
      }
      ItemsSome(C, s, d + 1);
    } else {
      ItemsLater(C, o + 1, e, items);
      if d < 1000 {
        ItemsIs(C, s, e, d + 1, items);
      }
    }
  }

  lemma {:induction false} ItemsIs(C: string, o: nat, e: nat, d: nat, items: seq<Json>)
    requires items != [] && d <= 1000
    ensures ItemsAt(C, o, d) == Got(items, e) <==> SpellsItems(C, o, e, items) && d + DeepestItem(items) <= 1000
    decreases items, 5
  {
    if ItemsAt(C, o, d) == Got(items, e) {
      ItemsSound(C, o, e, d, items);
    }
    if SpellsItems(C, o, e, items) && d + DeepestItem(items) <= 1000 {
      ItemsRead(C, o, e, d, items);
    }
  }

  lemma {:induction false} ItemsSound(C: string, o: nat, e: nat, d: nat, items: seq<Json>)
    requires items != [] && d <= 1000 && ItemsAt(C, o, d) == Got(items, e)
    ensures SpellsItems(C, o, e, items) && d + DeepestItem(items) <= 1000
    decreases items, 4
  {
    hide ValueAt, Spells, Gap, Skip, Depth;
    var a := Skip(C, o);
    var b := ValueAt(C, a, d).next;
    var c := Skip(C, b);
    ParsedBegin(C, a, d);
    SkipIs(C, o, a);
    SkipIs(C, b, c);
    assert items[0] == ValueAt(C, a, d).value;
    ValueIs(C, a, b, d, items[0]);
    if Sees(C, c, ',') {
      ItemsSome(C, c + 1, d);
      assert items[1..] == ItemsAt(C, c + 1, d).value;
      ItemsIs(C, c + 1, e, d, items[1..]);
    }
    assert Gap(C, o, a) && Spells(C, a, b, items[0]) && Gap(C, b, c);
  }

  lemma {:induction false} ItemsRead(C: string, o: nat, e: nat, d: nat, items: seq<Json>)
    requires items != [] && d <= 1000 && SpellsItems(C, o, e, items) && d + DeepestItem(items) <= 1000
    ensures ItemsAt(C, o, d) == Got(items, e)
    decreases items, 4
  {
    hide ValueAt, Spells, Gap, Skip, Depth;
    var a: nat, b: nat, c: nat :|
      && Gap(C, o, a) && Spells(C, a, b, items[0]) && Gap(C, b, c)
      && if |items| == 1 then Sees(C, c, ']') && e == c + 1 else Sees(C, c, ',') && SpellsItems(C, c + 1, e, items[1..]);
    GapSkipped(C, o, a);
    GapSkipped(C, b, c);
    ValueIs(C, a, b, d, items[0]);
    if |items| > 1 {
      ItemsIs(C, c + 1, e, d, items[1..]);
      assert items == [items[0]] + items[1..];
    } else {
      assert items == [items[0]];
    }
  }

  lemma GapSkipped(C: string, o: nat, a: nat)
    requires Gap(C, o, a)
    ensures Skip(C, o) == a < |C| && C[a] > ' '
  {
    SkipIs(C, o, a);
  }

  // ---------- objects ----------

  lemma MembersSome(C: string, o: nat, d: nat)
    ensures MembersAt(C, o, d).Got? ==> MembersAt(C, o, d).value != []
  {
    hide MemberAt;
  }

  lemma MemberLater(C: string, o: nat, b: nat, m: Member)
    ensures SpellsMember(C, o, b, m) <==> SpellsMember(C, Skip(C, o), b, m)
    ensures SpellsMember(C, o, b, m) ==> Sees(C, Skip(C, o), '\"')
  {
    hide Spells, Gap, Skip;
    forall a: nat
      ensures Gap(C, o, a) <==> Gap(C, Skip(C, o), a)
    {
      GapLater(C, o, a);
    }
    if SpellsMember(C, o, b, m) {
      var a: nat, n: nat, c: nat, f: nat :|
        && Gap(C, o, a) && SpellsText(C, a, n, m.key) && Gap(C, n, c) && Sees(C, c, ':')
        && Gap(C, c + 1, f) && Spells(C, f, b, m.value);
      GapSkipped(C, o, a);
    }
  }

  lemma MembersLater(C: string, o: nat, e: nat, members: seq<Member>)
    requires members != []
    ensures SpellsMembers(C, o, e, members) <==> SpellsMembers(C, Skip(C, o), e, members)
    ensures SpellsMembers(C, o, e, members) ==> Sees(C, Skip(C, o), '\"')
  {
    hide SpellsMember, Gap, Skip;
    forall b: nat
      ensures SpellsMember(C, o, b, members[0]) <==> SpellsMember(C, Skip(C, o), b, members[0])
      ensures SpellsMember(C, o, b, members[0]) ==> Sees(C, Skip(C, o), '\"')
    {
      MemberLater(C, o, b, members[0]);
    }
  }

  lemma {:induction false} ObjectIs(C: string, o: nat, e: nat, d: nat, members: seq<Member>)
    requires d <= 1000 && o < |C| && C[o] == '{'
    ensures ObjectAt(C, o, d) == Got(Object(members), e) <==> Spells(C, o, e, Object(members)) && d + Depth(Object(members)) <= 1000
    decreases members, 6
  {
    hide MembersAt, SpellsMembers, Skip, Gap;
    var s := Skip(C, o + 1);
    if members == [] {
      if e > 0 && Sees(C, e - 1, '}') {
        SkipIs(C, o + 1, e - 1);
      }
      MembersSome(C, s, d + 1);
    } else {
      MembersLater(C, o + 1, e, members);
      if d < 1000 {
        MembersIs(C, s, e, d + 1, members);
      }
    }
  }

  lemma {:induction false} MemberIs(C: string, o: nat, e: nat, d: nat, m: Member)
    requires d <= 1000
    ensures MemberAt(C, o, d) == Got(m, e) <==> SpellsMember(C, o, e, m) && d + Depth(m.value) <= 1000
    decreases m, 2
  {
    if MemberAt(C, o, d) == Got(m, e) {
      MemberSound(C, o, e, d, m);
    }
    if SpellsMember(C, o, e, m) && d + Depth(m.value) <= 1000 {
      MemberRead(C, o, e, d, m);
    }
  }

  lemma {:induction false} MemberSound(C: string, o: nat, e: nat, d: nat, m: Member)
    requires d <= 1000 && MemberAt(C, o, d) == Got(m, e)
    ensures SpellsMember(C, o, e, m) && d + Depth(m.value) <= 1000
    decreases m, 1
  {
    hide ValueAt, Spells, Gap, Skip, Depth, StringAt, SpellsText;
    var a := Skip(C, o);
    var b := StringAt(C, a).next;
    var c := Skip(C, b);
    var f := Skip(C, c + 1);
    QuoteSeen(C, a);
    ParsedBegin(C, f, d);
    SkipIs(C, o, a);
    SkipIs(C, b, c);
    SkipIs(C, c + 1, f);
    TextIs(C, a, b, m.key);
    ValueIs(C, f, e, d, m.value);
    assert Gap(C, o, a) && SpellsText(C, a, b, m.key) && Gap(C, b, c) && Gap(C, c + 1, f) && Spells(C, f, e, m.value);
  }

  lemma {:induction false} MemberRead(C: string, o: nat, e: nat, d: nat, m: Member)
    requires d <= 1000 && SpellsMember(C, o, e, m) && d + Depth(m.value) <= 1000
    ensures MemberAt(C, o, d) == Got(m, e)
    decreases m, 1
  {
    hide ValueAt, Spells, Gap, Skip, Depth, StringAt, SpellsText;
    var a: nat, b: nat, c: nat, f: nat :|
      && Gap(C, o, a) && SpellsText(C, a, b, m.key) && Gap(C, b, c) && Sees(C, c, ':')
      && Gap(C, c + 1, f) && Spells(C, f, e, m.value);
    GapSkipped(C, o, a);
    GapSkipped(C, b, c);
    GapSkipped(C, c + 1, f);
    TextIs(C, a, b, m.key);
    ValueIs(C, f, e, d, m.value);
  }

  lemma QuoteSeen(C: string, o: nat)
    requires StringAt(C, o).Got?
    ensures o < |C| && C[o] > ' '
  {
  }

  lemma {:induction false} MembersIs(C: string, o: nat, e: nat, d: nat, members: seq<Member>)
    requires members != [] && d <= 1000
    ensures MembersAt(C, o, d) == Got(members, e) <==> SpellsMembers(C, o, e, members) && d + DeepestMember(members) <= 1000
    decreases members, 5
  {
    if MembersAt(C, o, d) == Got(members, e) {
      MembersSound(C, o, e, d, members);
    }
    if SpellsMembers(C, o, e, members) && d + DeepestMember(members) <= 1000 {
      MembersRead(C, o, e, d, members);
    }
  }

  lemma {:induction false} MembersSound(C: string, o: nat, e: nat, d: nat, members: seq<Member>)
    requires members != [] && d <= 1000 && MembersAt(C, o, d) == Got(members, e)
    ensures SpellsMembers(C, o, e, members) && d + DeepestMember(members) <= 1000
    decreases members, 4
  {
    hide MemberAt, SpellsMember, Gap, Skip, Depth;
    var b := MemberAt(C, o, d).next;
    var c := Skip(C, b);
    SkipIs(C, b, c);
    assert members[0] == MemberAt(C, o, d).value;
    MemberIs(C, o, b, d, members[0]);
    if Sees(C, c, ',') {
      MembersSome(C, c + 1, d);
      assert members[1..] == MembersAt(C, c + 1, d).value;
      MembersIs(C, c + 1, e, d, members[1..]);
    }
    assert SpellsMember(C, o, b, members[0]) && Gap(C, b, c);
  }

  lemma {:induction false} MembersRead(C: string, o: nat, e: nat, d: nat, members: seq<Member>)
    requires members != [] && d <= 1000 && SpellsMembers(C, o, e, members) && d + DeepestMember(members) <= 1000
    ensures MembersAt(C, o, d) == Got(members, e)
    decreases members, 4
  {
    hide MemberAt, SpellsMember, Gap, Skip, Depth;
    var b: nat, c: nat :|
      && SpellsMember(C, o, b, members[0]) && Gap(C, b, c)
      && if |members| == 1 then Sees(C, c, '}') && e == c + 1 else Sees(C, c, ',') && SpellsMembers(C, c + 1, e, members[1..]);
    GapSkipped(C, b, c);
    MemberIs(C, o, b, d, members[0]);
    if |members| > 1 {
      MembersIs(C, c + 1, e, d, members[1..]);
      assert members == [members[0]] + members[1..];
    } else {
      assert members == [members[0]];
    }
  }

  // ---------- whole texts ----------

  ghost predicate Marked(text: string) {
    |text| >= 4 && text[0] as int == 0xEF && text[1] as int == 0xBB && text[2] as int == 0xBF
  }

  /** cJSON_Parse accepts a text as a value up to e if and only if, behind an
      optional byte order mark and white space, the bytes up to e stand for it. */
  lemma Accepts(text: string, v: Json, e: nat)
    ensures Parse(text) == Got(v, e) <==>
      && Depth(v) <= 1000
      && exists o: nat :: Gap(text + "\0", if Marked(text) then 3 else 0, o) && Spells(text + "\0", o, e, v)
  {
    hide ValueAt, Spells, Gap, Skip, Depth;
    var C := text + "\0";
    var s := if Marked(text) then 3 else 0;
    assert Begin(C) == Skip(C, s) by {
      if |C| > 4 {
        assert C[..3] == [C[0], C[1], C[2]];
      }
    }
    var o := Skip(C, s);
    ValueIs(C, o, e, 0, v);
    if Parse(text) == Got(v, e) {
      ParsedBegin(C, o, 0);
      SkipIs(C, s, o);
    }
    if a: nat :| Gap(C, s, a) && Spells(C, a, e, v) {
      GapSkipped(C, s, a);
    }
  }
}
