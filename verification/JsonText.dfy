/** JSON values and the text that cJSON_PrintUnformatted gives them. Bytes are
    characters below 256. */
module JsonText {
  import opened Numerals

  datatype Json =
    | Null
    | False
    | True
    | Number(n: int)
    | Text(s: string)
    | Array(items: seq<Json>)
    | Object(members: seq<Member>)

  datatype Member = Member(key: string, value: Json)

  /** A C string: bytes without NUL. */
  predicate CString(s: string) {
    forall i :: 0 <= i < |s| ==> '\0' < s[i] < '\U{100}'
  }

  predicate CInt(n: int) {
    -0x8000_0000 <= n <= 0x7FFF_FFFF
  }

  /** The values cJSON can hold exactly, floating-point numbers aside. */
  predicate Representable(v: Json) {
    match v
    case Number(n) => CInt(n)
    case Text(s) => CString(s)
    case Array(items) => forall i :: 0 <= i < |items| ==> Representable(items[i])
    case Object(members) => forall i :: 0 <= i < |members| ==> CString(members[i].key) && Representable(members[i].value)
    case _ => true
  }

  /** How deeply arrays and objects are nested. */
  function Depth(v: Json): nat {
    match v
    case Array(items) => 1 + DeepestItem(items)
    case Object(members) => 1 + DeepestMember(members)
    case _ => 0
  }

  function DeepestItem(items: seq<Json>): nat {
    if items == [] then 0 else Max(Depth(items[0]), DeepestItem(items[1..]))
  }

  function DeepestMember(members: seq<Member>): nat {
    if members == [] then 0 else Max(Depth(members[0].value), DeepestMember(members[1..]))
  }

  function Max(a: nat, b: nat): nat {
    if a >= b then a else b
  }

  // ---------- strings ----------

  function HexDigit(n: nat): char
    requires n < 16
  {
    if n < 10 then (48 + n) as char else (87 + n) as char
  }

  /** One byte of a string literal: the short escapes, \u00XX for other control
      characters, everything else as it is. */
  function Escape(c: char): string {
    if c == '\"' then "\\\""
    else if c == '\\' then "\\\\"
    else if c == '\U{08}' then "\\b"
    else if c == '\U{0C}' then "\\f"
    else if c == '\n' then "\\n"
    else if c == '\r' then "\\r"
    else if c == '\t' then "\\t"
    else if c < ' ' then "\\u00" + [HexDigit(c as int / 16), HexDigit(c as int % 16)]
    else [c]
  }

  function Escaped(s: string): string {
    if s == [] then [] else Escape(s[0]) + Escaped(s[1..])
  }

  function Quoted(s: string): string {
    "\"" + Escaped(s) + "\""
  }

  /** The bytes that escaping adds: what print_string_ptr counts beforehand. */
  function Extra(c: char): nat {
    if c == '\"' || c == '\\' || c == '\U{08}' || c == '\U{0C}' || c == '\n' || c == '\r' || c == '\t' then 1
    else if c < ' ' then 5
    else 0
  }

  function ExtraIn(s: string): nat {
    if s == [] then 0 else Extra(s[0]) + ExtraIn(s[1..])
  }

  /** The length computed beforehand is the length of what is written. */
  lemma {:induction false} EscapedLength(s: string)
    ensures |Escaped(s)| == |s| + ExtraIn(s)
  {
    if s != [] {
      EscapedLength(s[1..]);
    }
  }

  lemma {:induction false} EscapedAppend(s: string, t: string)
    ensures Escaped(s + t) == Escaped(s) + Escaped(t)
  {
    hide Escape;
    if s == [] {
      assert s + t == t;
    } else {
      EscapedAppend(s[1..], t);
      assert (s + t)[1..] == s[1..] + t && (s + t)[0] == s[0];
      var a, b, c := Escape(s[0]), Escaped(s[1..]), Escaped(t);
      assert a + (b + c) == (a + b) + c;
    }
  }

  lemma {:induction false} ExtraAppend(s: string, t: string)
    ensures ExtraIn(s + t) == ExtraIn(s) + ExtraIn(t)
  {
    if s == [] {
      assert s + t == t;
    } else {
      ExtraAppend(s[1..], t);
      assert (s + t)[1..] == s[1..] + t;
    }
  }

  // ---------- numbers ----------

  function Decimal(n: int): string {
    if n < 0 then "-" + Digits(-n) else Digits(n)
  }

  /** The number that digits denote. */
  function Denoted(s: string): nat
    requires forall i :: 0 <= i < |s| ==> IsDigit(s[i])
  {
    if s == [] then 0
    else
      assert IsDigit(s[|s| - 1]);
      10 * Denoted(s[..|s| - 1]) + (s[|s| - 1] as int - 48)
  }

  lemma {:induction false} DigitsDenote(n: nat)
    ensures |Digits(n)| > 0 && forall i :: 0 <= i < |Digits(n)| ==> IsDigit(Digits(n)[i])
    ensures Denoted(Digits(n)) == n
  {
    if n >= 10 {
      DigitsDenote(n / 10);
      assert Digits(n)[..|Digits(n)| - 1] == Digits(n / 10);
    } else {
      assert Digits(n)[..0] == [];
    }
  }

  // ---------- values ----------

  function Print(v: Json): string {
    match v
    case Null => "null"
    case False => "false"
    case True => "true"
    case Number(n) => Decimal(n)
    case Text(s) => Quoted(s)
    case Array(items) => "[" + PrintItems(items) + "]"
    case Object(members) => "{" + PrintMembers(members) + "}"
  }

  function PrintItems(items: seq<Json>): string {
    if items == [] then ""
    else if |items| == 1 then Print(items[0])
    else Print(items[0]) + "," + PrintItems(items[1..])
  }

  function PrintMember(m: Member): string {
    Quoted(m.key) + ":" + Print(m.value)
  }

  function PrintMembers(members: seq<Member>): string {
    if members == [] then ""
    else if |members| == 1 then PrintMember(members[0])
    else PrintMember(members[0]) + "," + PrintMembers(members[1..])
  }

  // ---------- what the text is made of ----------

  /** Printable bytes only: in particular no NUL and no white space to skip. */
  predicate Visible(s: string) {
    forall i :: 0 <= i < |s| ==> ' ' <= s[i] < '\U{100}'
  }

  lemma VisibleAppend(s: string, t: string)
    requires Visible(s) && Visible(t)
    ensures Visible(s + t)
  {
  }

  lemma EscapeVisible(c: char)
    requires c < '\U{100}'
    ensures Visible(Escape(c)) && |Escape(c)| > 0
  {
  }

  lemma {:induction false} EscapedVisible(s: string)
    requires CString(s)
    ensures Visible(Escaped(s))
  {
    if s != [] {
      EscapedVisible(s[1..]);
      EscapeVisible(s[0]);
      VisibleAppend(Escape(s[0]), Escaped(s[1..]));
    }
  }

  lemma QuotedVisible(s: string)
    requires CString(s)
    ensures Visible(Quoted(s)) && |Quoted(s)| >= 2 && Quoted(s)[0] == '\"'
  {
    EscapedVisible(s);
  }

  lemma DecimalVisible(n: int)
    ensures Visible(Decimal(n)) && |Decimal(n)| > 0 && (Decimal(n)[0] == '-' || IsDigit(Decimal(n)[0]))
  {
    DigitsDenote(if n < 0 then -n else n);
  }

  /** The first byte tells the kind of a value. */
  predicate Begins(v: Json, c: char) {
    match v
    case Null => c == 'n'
    case False => c == 'f'
    case True => c == 't'
    case Number(n) => c == '-' || IsDigit(c)
    case Text(s) => c == '\"'
    case Array(items) => c == '['
    case Object(members) => c == '{'
  }

  lemma {:induction false} PrintVisible(v: Json)
    requires Representable(v)
    ensures Visible(Print(v)) && |Print(v)| > 0 && Begins(v, Print(v)[0])
    decreases v, 0
  {
    match v
    case Number(n) => DecimalVisible(n);
    case Text(s) => QuotedVisible(s);
    case Array(items) => ItemsVisible(items);
    case Object(members) => MembersVisible(members);
    case _ =>
  }

  lemma {:induction false} ItemsVisible(items: seq<Json>)
    requires forall i :: 0 <= i < |items| ==> Representable(items[i])
    ensures Visible(PrintItems(items))
    decreases items, 1
  {
    if items != [] {
      PrintVisible(items[0]);
      ItemsVisible(items[1..]);
    }
  }

  lemma {:induction false} MembersVisible(members: seq<Member>)
    requires forall i :: 0 <= i < |members| ==> CString(members[i].key) && Representable(members[i].value)
    ensures Visible(PrintMembers(members))
    decreases members, 1
  {
    if members != [] {
      MemberVisible(members[0]);
      MembersVisible(members[1..]);
    }
  }

  lemma {:induction false} MemberVisible(m: Member)
    requires CString(m.key) && Representable(m.value)
    ensures Visible(PrintMember(m)) && |PrintMember(m)| > 0 && PrintMember(m)[0] == '\"'
    decreases m, 0
  {
    QuotedVisible(m.key);
    PrintVisible(m.value);
  }
}
