/** The recursive descent of cJSON.c over its parse buffer. */
module JsonParser {
  import opened JsonText
  import opened Numerals
  import opened Wrappers
  import opened JsonGrammar
  import opened JsonRoundTrip

  /** The last k bytes of an encoded code point. */
  function Tail(cp: nat, k: nat): string {
    if k == 0 then "" else Tail(cp / 0x40, k - 1) + [Byte(0x80 + cp % 0x40)]
  }

  function Shift(cp: nat, k: nat): nat {
    if k == 0 then cp else Shift(cp / 0x40, k - 1)
  }

  function Mark(cp: nat): nat {
    if cp < 0x80 then 0 else if cp < 0x800 then 0xC0 else if cp < 0x10000 then 0xE0 else 0xF0
  }

  function Size(cp: nat): nat {
    if cp < 0x80 then 1 else if cp < 0x800 then 2 else if cp < 0x10000 then 3 else 4
  }

  lemma TailOne(cp: nat)
    ensures Tail(cp, 1) == [Byte(0x80 + cp % 0x40)] && Shift(cp, 1) == cp / 0x40
  {
    hide Byte;
    assert Tail(cp / 0x40, 0) == "";
  }

  /** UTF-8 byte by byte from the end, as the encoding loop writes it. */
  lemma Utf8FromEnd(cp: nat)
    requires cp < 0x110000
    ensures Utf8(cp) == [Byte(Mark(cp) + Shift(cp, Size(cp) - 1))] + Tail(cp, Size(cp) - 1)
  {
    hide Byte;
    var a := cp / 0x40;
    var b := a / 0x40;
    assert b == cp / 0x1000 && b / 0x40 == cp / 0x40000;
    TailOne(cp);
    TailOne(a);
    TailOne(b);
    assert Tail(cp, 2) == Tail(a, 1) + [Byte(0x80 + cp % 0x40)] && Shift(cp, 2) == Shift(a, 1);
    assert Tail(a, 2) == Tail(b, 1) + [Byte(0x80 + a % 0x40)] && Shift(a, 2) == Shift(b, 1);
    assert Tail(cp, 3) == Tail(a, 2) + [Byte(0x80 + cp % 0x40)] && Shift(cp, 3) == Shift(a, 2);
  }

  class ParseBuffer {
    const content: string
    var offset: nat
    var depth: nat

    constructor (text: string)
      ensures content == text && offset == 0 && depth == 0
    {
      content, offset, depth := text, 0, 0;
    }

    /** buffer_skip_whitespace. */
    method SkipWhitespace()
      modifies this`offset
      ensures offset == Skip(content, old(offset))
    {
      if offset >= |content| {
        return;
      }
      while offset < |content| && content[offset] <= ' '
        invariant old(offset) <= offset <= |content|
        invariant FirstVisible(content, old(offset)) == FirstVisible(content, offset)
        decreases |content| - offset
      {
        offset := offset + 1;
      }
      if offset == |content| {
        offset := offset - 1;
      }
    }

    /** parse_hex4. */
    method ParseHex4(j: nat) returns (h: nat)
      requires j + 4 <= |content|
      ensures h == Hex4(content, j)
    {
      h := 0;
      for i := 0 to 4
        invariant h == HexPrefix(content, j, i) && HexPrefixOk(content, j, i)
      {
        match HexValue(content[j + i])
        case None =>
          HexBad(content, j, i);
          return 0;
        case Some(v) =>
          h := 16 * h + v;
      }
      HexWhole(content, j);
    }

    /** utf16_literal_to_utf8: length 0 stands for failure. */
    method Utf16Literal(i: nat, e: nat) returns (n: nat, bytes: string)
      requires e <= |content|
      ensures n == 0 <==> Utf16At(content, i, e).None?
      ensures n != 0 ==> Utf16At(content, i, e) == Some((bytes, n))
    {
      hide Hex4, Utf8, HexValue;
      n, bytes := 0, "";
      if e < i + 6 {
        return;
      }
      var cp := ParseHex4(i + 2);
      if 0xDC00 <= cp <= 0xDFFF {
        return;
      }
      var length := 6;
      if 0xD800 <= cp <= 0xDBFF {
        if e < i + 12 || content[i + 6] != '\\' || content[i + 7] != 'u' {
          return;
        }
        var second := ParseHex4(i + 8);
        if second < 0xDC00 || second > 0xDFFF {
          return;
        }
        cp := 0x10000 + (cp % 0x400) * 0x400 + second % 0x400;
        length := 12;
      }
      bytes := EncodeUtf8(cp);
      n := length;
    }

    /** The encoding part of utf16_literal_to_utf8. */
    static method EncodeUtf8(cp: nat) returns (bytes: string)
      requires cp < 0x110000
      ensures bytes == Utf8(cp)
    {
      hide Byte;
      var size, mark := 4, 0xF0;
      if cp < 0x80 {
        size, mark := 1, 0;
      } else if cp < 0x800 {
        size, mark := 2, 0xC0;
      } else if cp < 0x10000 {
        size, mark := 3, 0xE0;
      }
      Utf8FromEnd(cp);
      hide Utf8;
      bytes := "";
      var rest: nat, pos: nat := cp, size - 1;
      while pos > 0
        invariant pos < size && Tail(cp, size - 1) == Tail(rest, pos) + bytes
        invariant Shift(cp, size - 1) == Shift(rest, pos)
      {
        TailStep(rest, pos, bytes);
        bytes := [Byte(0x80 + rest % 0x40)] + bytes;
        rest := rest / 0x40;
        pos := pos - 1;
      }
      assert Tail(cp, size - 1) == bytes;
      bytes := [Byte(mark + rest)] + bytes;
    }

    /** The first loop of parse_string: finds the closing quote. */
    method FindQuote() returns (r: Option<nat>)
      ensures r == StringEnd(content, offset + 1)
    {
      var e := offset + 1;
      while e < |content| && content[e] != '\"'
        invariant offset + 1 <= e && StringEnd(content, offset + 1) == StringEnd(content, e)
        decreases |content| - e
      {
        if content[e] == '\\' {
          if e + 1 >= |content| {
            return None;
          }
          e := e + 1;
        }
        e := e + 1;
      }
      return if e >= |content| then None else Some(e);
    }

    /** parse_string. */
    method ParseString() returns (r: Parsed<string>)
      modifies this`offset
      ensures r == StringAt(content, old(offset))
      ensures r.Got? ==> offset == r.next
    {
      hide StringEnd, UnescapeOne;
      if offset >= |content| || content[offset] != '\"' {
        return Failed;
      }
      var quote := FindQuote();
      if quote.None? {
        return Failed;
      }
      var e, i, output := quote.value, offset + 1, "";
      EmptyAppend(Unescape(content, i, e));
      while i < e
        invariant offset == old(offset)
        invariant Unescape(content, offset + 1, e) == Append(output, Unescape(content, i, e))
        decreases e - i
      {
        var bytes, n := Decode(i, e);
        if n == 0 {
          return Failed;
        }
        AppendTwice(output, bytes, Unescape(content, i + n, e));
        output := output + bytes;
        i := i + n;
      }
      assert output + "" == output;
      offset := e + 1;
      return Got(output, e + 1);
    }

    /** One turn of the second loop; length 0 stands for failure. */
    method Decode(i: nat, e: nat) returns (bytes: string, n: nat)
      requires i < e < |content|
      ensures n == 0 <==> UnescapeOne(content, i, e).None?
      ensures n != 0 ==> UnescapeOne(content, i, e) == Some((bytes, n))
    {
      if content[i] != '\\' {
        return [content[i]], 1;
      }
      if content[i + 1] == 'u' {
        n, bytes := Utf16Literal(i, e);
        return;
      }
      match Simple(content[i + 1])
      case None => return "", 0;
      case Some(c) => return [c], 2;
    }

    /** parse_number. */
    method ParseNumber() returns (r: Parsed<int>)
      requires offset < |content|
      modifies this`offset
      ensures r == NumberAt(content, old(offset))
      ensures r.Got? ==> offset == r.next
    {
      var s := if content[offset] == '-' then offset + 1 else offset;
      var e, n := s, 0;
      assert Denoted(content[s..s]) == 0;
      hide Denoted;
      while e < |content| && IsDigit(content[e])
        invariant offset == old(offset) && s <= e <= |content| && DigitsEnd(content, s) == DigitsEnd(content, e)
        invariant (forall k :: s <= k < e ==> IsDigit(content[k])) && n == Denoted(content[s..e])
        decreases |content| - e
      {
        OneDigitMore(content, s, e);
        n := 10 * n + (content[e] as int - 48);
        e := e + 1;
      }
      if e - offset >= 63 || (e < |content| && (content[e] == '.' || (e > s && (content[e] == 'e' || content[e] == 'E')))) {
        return Beyond;
      }
      if e == s {
        return Failed;
      }
      if content[offset] == '-' {
        n := -n;
      }
      if !CInt(n) {
        return Beyond;
      }
      offset := e;
      return Got(n, e);
    }

    /** parse_value. */
    method ParseValue() returns (r: Parsed<Json>)
      modifies this
      ensures r == ValueAt(content, old(offset), old(depth))
      ensures r.Got? ==> offset == r.next && depth == old(depth)
      decreases |content| - offset, 2
    {
      hide StringAt, NumberAt, ArrayAt, ObjectAt;
      if Starts(content, offset, "null") {
        offset := offset + 4;
        return Got(Null, offset);
      }
      if Starts(content, offset, "false") {
        offset := offset + 5;
        return Got(False, offset);
      }
      if Starts(content, offset, "true") {
        offset := offset + 4;
        return Got(True, offset);
      }
      if offset >= |content| {
        return Failed;
      }
      var c := content[offset];
      if c == '\"' {
        var s := ParseString();
        return Wrap(s, x => Text(x));
      }
      if c == '-' || IsDigit(c) {
        var n := ParseNumber();
        return Wrap(n, x => Number(x));
      }
      if c == '[' {
        r := ParseArray();
      } else if c == '{' {
        r := ParseObject();
      } else {
        r := Failed;
      }
    }

    /** parse_array. */
    method ParseArray() returns (r: Parsed<Json>)
      requires offset < |content| && content[offset] == '['
      modifies this
      ensures r == ArrayAt(content, old(offset), old(depth))
      ensures r.Got? ==> offset == r.next && depth == old(depth)
      decreases |content| - offset, 1
    {
      hide ItemsAt;
      if depth >= Limit {
        return Failed;
      }
      depth := depth + 1;
      offset := offset + 1;
      SkipWhitespace();
      if Sees(content, offset, ']') {
        depth := depth - 1;
        offset := offset + 1;
        return Got(Array([]), offset);
      }
      if offset >= |content| {
        return Failed;
      }
      var items := ParseItems();
      if items.Got? {
        depth := depth - 1;
      }
      return Wrap(items, x => Array(x));
    }

    /** The loop over the elements, and the closing bracket. */
    method ParseItems() returns (r: Parsed<seq<Json>>)
      modifies this
      ensures r == ItemsAt(content, old(offset), old(depth))
      ensures r.Got? ==> offset == r.next && depth == old(depth)
      decreases |content| - offset, 3
    {
      hide ValueAt, Skip;
      var items: seq<Json> := [];
      ghost var o, d := offset, depth;
      PrependNothing(ItemsAt(content, o, d));
      while true
        invariant offset >= o && depth == d && (offset == o || o < |content|) && offset <= |content| + o
        invariant ItemsAt(content, o, d) == Prepend(items, ItemsAt(content, offset, d))
        decreases |content| - offset
      {
        ghost var at := offset;
        SkipWhitespace();
        var v := ParseValue();
        if !v.Got? {
          return Wrap(v, x => []);
        }
        SkipWhitespace();
        if Sees(content, offset, ',') {
          offset := offset + 1;
          PrependMore(items, v.value, ItemsAt(content, offset, d));
          items := items + [v.value];
        } else if Sees(content, offset, ']') {
          offset := offset + 1;
          return Got(items + [v.value], offset);
        } else {
          return Failed;
        }
      }
    }

    /** parse_object. */
    method ParseObject() returns (r: Parsed<Json>)
      requires offset < |content| && content[offset] == '{'
      modifies this
      ensures r == ObjectAt(content, old(offset), old(depth))
      ensures r.Got? ==> offset == r.next && depth == old(depth)
      decreases |content| - offset, 1
    {
      hide MembersAt;
      if depth >= Limit {
        return Failed;
      }
      depth := depth + 1;
      offset := offset + 1;
      SkipWhitespace();
      if Sees(content, offset, '}') {
        depth := depth - 1;
        offset := offset + 1;
        return Got(Object([]), offset);
      }
      if offset >= |content| {
        return Failed;
      }
      var members := ParseMembers();
      if members.Got? {
        depth := depth - 1;
      }
      return Wrap(members, x => Object(x));
    }

    /** A name, a colon and a value. */
    method ParseMember() returns (r: Parsed<Member>)
      modifies this
      ensures r == MemberAt(content, old(offset), old(depth))
      ensures r.Got? ==> offset == r.next && depth == old(depth)
      decreases |content| - offset, 3
    {
      hide ValueAt, Skip, StringAt;
      SkipWhitespace();
      var key := ParseString();
      if !key.Got? {
        return Wrap(key, x => Member(x, Null));
      }
      SkipWhitespace();
      if !Sees(content, offset, ':') {
        return Failed;
      }
      offset := offset + 1;
      SkipWhitespace();
      var v := ParseValue();
      return Wrap(v, x => Member(key.value, x));
    }

    /** The loop over the members, and the closing brace. */
    method ParseMembers() returns (r: Parsed<seq<Member>>)
      modifies this
      ensures r == MembersAt(content, old(offset), old(depth))
      ensures r.Got? ==> offset == r.next && depth == old(depth)
      decreases |content| - offset, 4
    {
      hide MemberAt, Skip;
      var members: seq<Member> := [];
      ghost var o, d := offset, depth;
      PrependNothing(MembersAt(content, o, d));
      while true
        invariant offset >= o && depth == d && (offset == o || o < |content|) && offset <= |content| + o
        invariant MembersAt(content, o, d) == Prepend(members, MembersAt(content, offset, d))
        decreases |content| - offset
      {
        ghost var at := offset;
        var v := ParseMember();
        if !v.Got? {
          return Wrap(v, x => []);
        }
        SkipWhitespace();
        if Sees(content, offset, ',') {
          offset := offset + 1;
          PrependMore(members, v.value, MembersAt(content, offset, d));
          members := members + [v.value];
        } else if Sees(content, offset, '}') {
          offset := offset + 1;
          return Got(members + [v.value], offset);
        } else {
          return Failed;
        }
      }
    }
  }

  lemma OneDigitMore(C: string, s: nat, e: nat)
    requires s <= e < |C| && forall k :: s <= k <= e ==> IsDigit(C[k])
    ensures Denoted(C[s..e + 1]) == 10 * Denoted(C[s..e]) + (C[e] as int - 48)
  {
    assert C[s..e + 1][..e - s] == C[s..e];
  }

  /** cJSON_Parse. */
  method ParseDocument(text: string) returns (r: Parsed<Json>)
    ensures r == Parse(text)
  {
    hide ValueAt;
    var b := new ParseBuffer(text + "\0");
    if |b.content| > 4 && b.content[..3] == "\U{EF}\U{BB}\U{BF}" {
      b.offset := 3;
    }
    b.SkipWhitespace();
    r := b.ParseValue();
  }

  function Wrap<T, U>(p: Parsed<T>, f: T -> U): Parsed<U> {
    match p
    case Got(x, n) => Got(f(x), n)
    case Failed => Failed
    case Beyond => Beyond
  }

  function Prepend<T>(items: seq<T>, p: Parsed<seq<T>>): Parsed<seq<T>> {
    match p
    case Got(more, n) => Got(items + more, n)
    case Failed => Failed
    case Beyond => Beyond
  }

  lemma PrependNothing<T>(p: Parsed<seq<T>>)
    ensures Prepend([], p) == p
  {
    if p.Got? {
      assert [] + p.value == p.value;
    }
  }

  lemma PrependMore<T>(items: seq<T>, v: T, p: Parsed<seq<T>>)
    ensures Prepend(items, Prepend([v], p)) == Prepend(items + [v], p)
  {
    if p.Got? {
      assert items + ([v] + p.value) == items + [v] + p.value;
    }
  }

  function Append(s: string, r: Option<string>): Option<string> {
    if r.Some? then Some(s + r.value) else None
  }

  lemma EmptyAppend(r: Option<string>)
    ensures Append("", r) == r
  {
    if r.Some? {
      assert "" + r.value == r.value;
    }
  }

  lemma AppendTwice(s: string, t: string, r: Option<string>)
    ensures Append(s, Append(t, r)) == Append(s + t, r)
  {
    if r.Some? {
      assert s + (t + r.value) == s + t + r.value;
    }
  }

  /** The number read from the first i digits. */
  function HexPrefix(C: string, j: nat, i: nat): nat
    requires j + i <= |C|
  {
    if i == 0 then 0
    else
      var v := HexValue(C[j + i - 1]);
      16 * HexPrefix(C, j, i - 1) + if v.Some? then v.value else 0
  }

  predicate HexPrefixOk(C: string, j: nat, i: nat) {
    j + i <= |C| && forall k :: j <= k < j + i ==> HexValue(C[k]).Some?
  }

  lemma HexBad(C: string, j: nat, i: nat)
    requires j + 4 <= |C| && i < 4 && HexValue(C[j + i]).None?
    ensures Hex4(C, j) == 0
  {
  }

  lemma TailStep(rest: nat, pos: nat, bytes: string)
    requires pos > 0
    ensures Tail(rest, pos) + bytes == Tail(rest / 0x40, pos - 1) + ([Byte(0x80 + rest % 0x40)] + bytes)
  {
    hide Byte;
    var t, x := Tail(rest / 0x40, pos - 1), [Byte(0x80 + rest % 0x40)];
    assert t + x + bytes == t + (x + bytes);
  }

  lemma HexWhole(C: string, j: nat)
    requires j + 4 <= |C| && HexPrefixOk(C, j, 4)
    ensures HexPrefix(C, j, 4) == Hex4(C, j)
  {
    hide HexValue;
    assert HexValue(C[j]).Some? && HexValue(C[j + 1]).Some? && HexValue(C[j + 2]).Some? && HexValue(C[j + 3]).Some?;
    assert HexPrefix(C, j, 1) == HexValue(C[j]).value;
    assert HexPrefix(C, j, 2) == 16 * HexPrefix(C, j, 1) + HexValue(C[j + 1]).value;
    assert HexPrefix(C, j, 3) == 16 * HexPrefix(C, j, 2) + HexValue(C[j + 2]).value;
  }
}
