/** What the parser of cJSON accepts, as functions of the text and a position. */
module JsonGrammar {
  import opened JsonText
  import opened Numerals
  import opened Wrappers

  /** `Beyond` stands for numbers that are not C ints, which are not modelled. */
  datatype Parsed<T> = Got(value: T, next: nat) | Failed | Beyond

  /** CJSON_NESTING_LIMIT. */
  const Limit: nat := 1000

  // ---------- white space ----------

  function FirstVisible(C: string, o: nat): (r: nat)
    requires o <= |C|
    ensures o <= r <= |C|
    decreases |C| - o
  {
    if o < |C| && C[o] <= ' ' then FirstVisible(C, o + 1) else o
  }

  /** buffer_skip_whitespace: at the end of the text it steps back by one. */
  function Skip(C: string, o: nat): (r: nat)
    ensures o <= r && (o < |C| ==> r < |C|) && (o >= |C| ==> r == o)
  {
    if o >= |C| then o
    else
      var r := FirstVisible(C, o);
      if r == |C| then |C| - 1 else r
  }

  // ---------- strings ----------

  function HexValue(c: char): Option<nat> {
    if '0' <= c <= '9' then Some(c as int - 48)
    else if 'A' <= c <= 'F' then Some(c as int - 55)
    else if 'a' <= c <= 'f' then Some(c as int - 87)
    else None
  }

  /** parse_hex4: 0 for anything but four hexadecimal digits. */
  function Hex4(C: string, j: nat): (h: nat)
    requires j + 4 <= |C|
    ensures h < 0x10000
  {
    match (HexValue(C[j]), HexValue(C[j + 1]), HexValue(C[j + 2]), HexValue(C[j + 3]))
    case (Some(a), Some(b), Some(c), Some(d)) => 4096 * a + 256 * b + 16 * c + d
    case _ => 0
  }

  function Byte(n: nat): char {
    if n < 256 then n as char else '\0'
  }

  /** Up to 21 bits as UTF-8. */
  function Utf8(cp: nat): string
    requires cp < 0x110000
  {
    if cp < 0x80 then [Byte(cp)]
    else if cp < 0x800 then [Byte(0xC0 + cp / 0x40), Byte(0x80 + cp % 0x40)]
    else if cp < 0x10000 then [Byte(0xE0 + cp / 0x1000), Byte(0x80 + cp / 0x40 % 0x40), Byte(0x80 + cp % 0x40)]
    else [Byte(0xF0 + cp / 0x40000), Byte(0x80 + cp / 0x1000 % 0x40), Byte(0x80 + cp / 0x40 % 0x40), Byte(0x80 + cp % 0x40)]
  }

  /** A \u literal before `e`, or a surrogate pair of two: its bytes and length. */
  function Utf16At(C: string, i: nat, e: nat): Option<(string, nat)>
    requires e <= |C|
  {
    if e < i + 6 then None
    else
      var first := Hex4(C, i + 2);
      if 0xDC00 <= first <= 0xDFFF then None
      else if !(0xD800 <= first <= 0xDBFF) then Some((Utf8(first), 6))
      else if e < i + 12 || C[i + 6] != '\\' || C[i + 7] != 'u' then None
      else
        var second := Hex4(C, i + 8);
        if second < 0xDC00 || second > 0xDFFF then None
        else Some((Utf8(0x10000 + (first % 0x400) * 0x400 + second % 0x400), 12))
  }

  /** The closing quote of a string whose contents begin at i. */
  function StringEnd(C: string, i: nat): (r: Option<nat>)
    ensures r.Some? ==> i <= r.value < |C| && C[r.value] == '\"'
    decreases |C| - i
  {
    if i >= |C| then None
    else if C[i] == '\"' then Some(i)
    else if C[i] != '\\' then StringEnd(C, i + 1)
    else if i + 1 >= |C| then None
    else StringEnd(C, i + 2)
  }

  function Simple(c: char): Option<char> {
    match c
    case 'b' => Some('\U{08}')
    case 'f' => Some('\U{0C}')
    case 'n' => Some('\n')
    case 'r' => Some('\r')
    case 't' => Some('\t')
    case '\"' => Some(c)
    case '\\' => Some(c)
    case '/' => Some(c)
    case _ => None
  }

  /** One character or escape sequence at i: its bytes and length. */
  function UnescapeOne(C: string, i: nat, e: nat): (r: Option<(string, nat)>)
    requires i < e < |C|
    ensures r.Some? ==> r.value.1 > 0
  {
    if C[i] != '\\' then Some(([C[i]], 1))
    else if C[i + 1] == 'u' then Utf16At(C, i, e)
    else
      match Simple(C[i + 1])
      case None => None
      case Some(c) => Some(([c], 2))
  }

  function Unescape(C: string, i: nat, e: nat): Option<string>
    requires e < |C|
    decreases |C| - i
  {
    if i >= e then Some("")
    else
      match UnescapeOne(C, i, e)
      case None => None
      case Some((bytes, n)) =>
        match Unescape(C, i + n, e)
        case None => None
        case Some(rest) => Some(bytes + rest)
  }

  /** parse_string at position o. */
  function StringAt(C: string, o: nat): (r: Parsed<string>)
    ensures r.Got? ==> o < r.next <= |C|
  {
    if o >= |C| || C[o] != '\"' then Failed
    else
      match StringEnd(C, o + 1)
      case None => Failed
      case Some(e) =>
        match Unescape(C, o + 1, e)
        case None => Failed
        case Some(s) => Got(s, e + 1)
  }

  // ---------- numbers ----------

  function DigitsEnd(C: string, i: nat): (e: nat)
    requires i <= |C|
    ensures i <= e <= |C| && forall k :: i <= k < e ==> IsDigit(C[k])
    decreases |C| - i
  {
    if i < |C| && IsDigit(C[i]) then DigitsEnd(C, i + 1) else i
  }

  /** parse_number on a text that denotes a C int. */
  function NumberAt(C: string, o: nat): (r: Parsed<int>)
    requires o < |C|
    ensures r.Got? ==> o < r.next <= |C|
  {
    var s := if C[o] == '-' then o + 1 else o;
    var e := DigitsEnd(C, s);
    if e - o >= 63 then Beyond
    else if e == s then (if e < |C| && C[e] == '.' then Beyond else Failed)
    else if e < |C| && (C[e] == '.' || C[e] == 'e' || C[e] == 'E') then Beyond
    else
      var n: int := if C[o] == '-' then 0 - Denoted(C[s..e]) else Denoted(C[s..e]);
      if CInt(n) then Got(n, e) else Beyond
  }

  // ---------- values ----------

  predicate Starts(C: string, o: nat, t: string) {
    o + |t| <= |C| && C[o..o + |t|] == t
  }

  predicate Sees(C: string, o: nat, c: char) {
    o < |C| && C[o] == c
  }

  /** parse_value at position o, nested d deep. */
  function ValueAt(C: string, o: nat, d: nat): (r: Parsed<Json>)
    ensures r.Got? ==> o < r.next <= |C|
    decreases |C| - o, 2
  {
    if Starts(C, o, "null") then Got(Null, o + 4)
    else if Starts(C, o, "false") then Got(False, o + 5)
    else if Starts(C, o, "true") then Got(True, o + 4)
    else if Sees(C, o, '\"') then
      match StringAt(C, o)
      case Got(s, n) => Got(Text(s), n)
      case Failed => Failed
      case Beyond => Beyond
    else if o < |C| && (C[o] == '-' || IsDigit(C[o])) then
      match NumberAt(C, o)
      case Got(n, e) => Got(Number(n), e)
      case Failed => Failed
      case Beyond => Beyond
    else if Sees(C, o, '[') then ArrayAt(C, o, d)
    else if Sees(C, o, '{') then ObjectAt(C, o, d)
    else Failed
  }

  /** parse_array. */
  function ArrayAt(C: string, o: nat, d: nat): (r: Parsed<Json>)
    requires o < |C|
    ensures r.Got? ==> o < r.next <= |C|
    decreases |C| - o, 1
  {
    var s := Skip(C, o + 1);
    if d >= Limit then Failed
    else if Sees(C, s, ']') then Got(Array([]), s + 1)
    else if s >= |C| then Failed
    else
      match ItemsAt(C, s, d + 1)
      case Got(items, n) => Got(Array(items), n)
      case Failed => Failed
      case Beyond => Beyond
  }

  /** The elements from o on, and the closing bracket. */
  function ItemsAt(C: string, o: nat, d: nat): (r: Parsed<seq<Json>>)
    ensures r.Got? ==> o < r.next <= |C|
    decreases |C| - o, 3
  {
    match ValueAt(C, Skip(C, o), d)
    case Failed => Failed
    case Beyond => Beyond
    case Got(v, n) =>
      var e := Skip(C, n);
      if Sees(C, e, ',') then
        match ItemsAt(C, e + 1, d)
        case Got(vs, m) => Got([v] + vs, m)
        case Failed => Failed
        case Beyond => Beyond
      else if Sees(C, e, ']') then Got([v], e + 1)
      else Failed
  }

  /** parse_object. */
  function ObjectAt(C: string, o: nat, d: nat): (r: Parsed<Json>)
    requires o < |C|
    ensures r.Got? ==> o < r.next <= |C|
    decreases |C| - o, 1
  {
    var s := Skip(C, o + 1);
    if d >= Limit then Failed
    else if Sees(C, s, '}') then Got(Object([]), s + 1)
    else if s >= |C| then Failed
    else
      match MembersAt(C, s, d + 1)
      case Got(members, n) => Got(Object(members), n)
      case Failed => Failed
      case Beyond => Beyond
  }

  /** A name, a colon and a value. */
  function MemberAt(C: string, o: nat, d: nat): (r: Parsed<Member>)
    ensures r.Got? ==> o < r.next <= |C|
    decreases |C| - o, 3
  {
    match StringAt(C, Skip(C, o))
    case Failed => Failed
    case Beyond => Beyond
    case Got(key, n) =>
      var c := Skip(C, n);
      if !Sees(C, c, ':') then Failed
      else
        match ValueAt(C, Skip(C, c + 1), d)
        case Got(v, m) => Got(Member(key, v), m)
        case Failed => Failed
        case Beyond => Beyond
  }

  function MembersAt(C: string, o: nat, d: nat): (r: Parsed<seq<Member>>)
    ensures r.Got? ==> o < r.next <= |C|
    decreases |C| - o, 4
  {
    match MemberAt(C, o, d)
    case Failed => Failed
    case Beyond => Beyond
    case Got(v, n) =>
      var e := Skip(C, n);
      if Sees(C, e, ',') then
        match MembersAt(C, e + 1, d)
        case Got(vs, m) => Got([v] + vs, m)
        case Failed => Failed
        case Beyond => Beyond
      else if Sees(C, e, '}') then Got([v], e + 1)
      else Failed
  }
}
