/** The textual CPU lists of cpuset(7): writing them and reading them back. */
module Cpuset {
  import opened Wrappers
  import opened Numerals

  /** Digits read from the front of `s` onto `acc`: the value and what follows. */
  function Scan(s: string, acc: nat): (nat, string) {
    if s != [] && IsDigit(s[0]) then Scan(s[1..], acc * 10 + DigitValue(s[0])) else (acc, s)
  }

  /** What is left behind blanks and commas. */
  function SkipSeparators(s: string): (r: string)
    ensures |r| <= |s| && (r != [] ==> r[0] != ' ' && r[0] != ',')
  {
    if s != [] && (s[0] == ' ' || s[0] == ',') then SkipSeparators(s[1..]) else s
  }

  /** The characters the reader makes progress on. */
  predicate Known(c: char) {
    IsDigit(c) || c == ',' || c == ' ' || c == '-'
  }

  predicate AllKnown(s: string) {
    forall i :: 0 <= i < |s| ==> Known(s[i])
  }

  function Interval(lo: nat, hi: int): seq<nat>
    decreases hi - lo
  {
    if lo > hi then [] else [lo] + Interval(lo + 1, hi)
  }

  /** The first `room` elements. */
  function Cap(s: seq<nat>, room: nat): seq<nat> {
    if |s| <= room then s else s[..room]
  }

  lemma {:induction false} ScanShrinks(s: string, acc: nat)
    ensures |Scan(s, acc).1| <= |s|
    ensures s != [] && IsDigit(s[0]) ==> |Scan(s, acc).1| < |s|
    ensures AllKnown(s) ==> AllKnown(Scan(s, acc).1)
  {
    if s != [] && IsDigit(s[0]) {
      ScanShrinks(s[1..], acc * 10 + DigitValue(s[0]));
    }
  }

  lemma {:induction false} SkipKeepsKnown(s: string)
    ensures AllKnown(s) ==> AllKnown(SkipSeparators(s))
  {
    if s != [] && (s[0] == ' ' || s[0] == ',') {
      SkipKeepsKnown(s[1..]);
    }
  }

  /** What cpu_bind_parse_cpuset makes of the rest of its input. */
  function Parsed(text: string, cpus: seq<nat>, max: nat, limit: nat): Option<seq<nat>>
    requires AllKnown(text)
    decreases |text|
  {
    SkipKeepsKnown(text);
    var s := SkipSeparators(text);
    if s == [] then Some(cpus)
    else
      ScanShrinks(s, 0);
      var (start, s1) := Scan(s, 0);
      if start >= limit then None
      else if s1 != [] && s1[0] == '-' then
        ScanShrinks(s1[1..], 0);
        var (end, s2) := Scan(s1[1..], 0);
        if end >= limit || end < start then None
        else Parsed(s2, Cap(cpus + Interval(start, end), max), max, limit)
      else
        Parsed(s1, Cap(cpus + [start], max), max, limit)
  }

  // ---------- writing ----------

  /** An entry of a CPU list: one CPU or a range. */
  datatype Item = One(cpu: nat) | Range(lo: nat, hi: nat)

  predicate ItemOk(item: Item, limit: nat) {
    match item
    case One(c) => c < limit
    case Range(lo, hi) => lo <= hi < limit
  }

  function Render(item: Item): string {
    match item
    case One(c) => Digits(c)
    case Range(lo, hi) => Digits(lo) + "-" + Digits(hi)
  }

  function Expand(item: Item): seq<nat> {
    match item
    case One(c) => [c]
    case Range(lo, hi) => Interval(lo, hi)
  }

  /** The list format: entries separated by commas. */
  function RenderAll(items: seq<Item>): string {
    if items == [] then ""
    else if |items| == 1 then Render(items[0])
    else Render(items[0]) + "," + RenderAll(items[1..])
  }

  function ExpandAll(items: seq<Item>): seq<nat> {
    if items == [] then [] else Expand(items[0]) + ExpandAll(items[1..])
  }

  lemma {:induction false} DigitsKnown(n: nat)
    ensures AllKnown(Digits(n))
  {
    if n >= 10 {
      DigitsKnown(n / 10);
    }
  }

  lemma {:induction false} RenderKnown(items: seq<Item>)
    ensures AllKnown(RenderAll(items))
  {
    if items != [] {
      match items[0] {
        case One(c) => DigitsKnown(c);
        case Range(lo, hi) => DigitsKnown(lo); DigitsKnown(hi);
      }
      if |items| > 1 {
        RenderKnown(items[1..]);
      }
    }
  }

  /** Reading a number back. */
  lemma {:induction false} ScanDec(n: nat, rest: string)
    ensures Scan(Digits(n) + rest, 0) == Scan(rest, n)
  {
    if n < 10 {
      assert (Digits(n) + rest)[1..] == rest;
    } else {
      var last := [Digit(n % 10)];
      assert Digits(n) + rest == Digits(n / 10) + (last + rest);
      ScanDec(n / 10, last + rest);
      assert (last + rest)[1..] == rest;
    }
  }

  lemma CapTwice(s: seq<nat>, r: seq<nat>, max: nat)
    ensures Cap(Cap(s, max) + r, max) == Cap(s + r, max)
  {
  }

  /** The text left after one number and what ended it. */
  predicate Ends(rest: string) {
    rest == [] || !IsDigit(rest[0])
  }

  lemma DigitsAhead(n: nat, rest: string)
    requires Ends(rest)
    ensures Scan(Digits(n) + rest, 0) == (n, rest)
    ensures SkipSeparators(Digits(n) + rest) == Digits(n) + rest != []
  {
    ScanDec(n, rest);
    assert (Digits(n) + rest)[0] == Digits(n)[0];
  }

  predicate Separator(c: char) {
    c == ' ' || c == ','
  }

  predicate Separators(gap: string) {
    forall i :: 0 <= i < |gap| ==> Separator(gap[i])
  }

  lemma ParsedOne(c: nat, rest: string, cpus: seq<nat>, max: nat, limit: nat)
    requires AllKnown(Digits(c) + rest) && AllKnown(rest) && (rest == [] || Separator(rest[0]))
    ensures Parsed(Digits(c) + rest, cpus, max, limit) ==
            if c < limit then Parsed(rest, Cap(cpus + [c], max), max, limit) else None
  {
    hide Digits, Scan, SkipSeparators, Cap;
    DigitsAhead(c, rest);
  }

  lemma ParsedRange(lo: nat, hi: nat, rest: string, cpus: seq<nat>, max: nat, limit: nat)
    requires AllKnown(Digits(lo) + ("-" + (Digits(hi) + rest))) && AllKnown(rest) && (rest == [] || Separator(rest[0]))
    ensures Parsed(Digits(lo) + ("-" + (Digits(hi) + rest)), cpus, max, limit) ==
            if lo <= hi < limit then Parsed(rest, Cap(cpus + Interval(lo, hi), max), max, limit) else None
  {
    hide Digits, Scan, SkipSeparators, Cap, Interval;
    var tail := "-" + (Digits(hi) + rest);
    DigitsAhead(lo, tail);
    assert tail[1..] == Digits(hi) + rest;
    DigitsAhead(hi, rest);
  }

  /** Reading one entry back, whatever follows it in the list. */
  lemma ParsedItem(item: Item, rest: string, cpus: seq<nat>, max: nat, limit: nat)
    requires AllKnown(Render(item) + rest) && AllKnown(rest) && (rest == [] || Separator(rest[0]))
    ensures Parsed(Render(item) + rest, cpus, max, limit) ==
            if ItemOk(item, limit) then Parsed(rest, Cap(cpus + Expand(item), max), max, limit) else None
  {
    hide Digits, Scan, SkipSeparators, Cap, Interval, Parsed;
    match item {
      case One(c) =>
        ParsedOne(c, rest, cpus, max, limit);
      case Range(lo, hi) =>
        assert Render(item) + rest == Digits(lo) + ("-" + (Digits(hi) + rest));
        ParsedRange(lo, hi, rest, cpus, max, limit);
    }
  }

  lemma {:induction false} SkipGap(gap: string, rest: string)
    requires Separators(gap)
    ensures SkipSeparators(gap + rest) == SkipSeparators(rest)
  {
    if gap == [] {
      assert gap + rest == rest;
    } else {
      SkipGap(gap[1..], rest);
      assert (gap + rest)[1..] == gap[1..] + rest && Separator(gap[0]);
    }
  }

  lemma ParsedGap(gap: string, rest: string, cpus: seq<nat>, max: nat, limit: nat)
    requires Separators(gap) && AllKnown(gap + rest) && AllKnown(rest)
    ensures Parsed(gap + rest, cpus, max, limit) == Parsed(rest, cpus, max, limit)
  {
    hide Scan, SkipSeparators, Interval, Cap;
    SkipGap(gap, rest);
  }

  lemma ParsedEmpty(cpus: seq<nat>, max: nat, limit: nat)
    ensures AllKnown("") && Parsed("", cpus, max, limit) == Some(cpus)
  {
  }

  lemma CapBound(s: seq<nat>, max: nat)
    ensures |Cap(s, max)| <= max
    ensures |s| <= max ==> Cap(s, max) == s
    ensures Cap(Cap(s, max), max) == Cap(s, max)
  {
  }

  /** Entries with something before, between and behind them. */
  function Join(items: seq<Item>, gaps: seq<string>): string
    requires |gaps| == |items| + 1
  {
    if items == [] then gaps[0] else gaps[0] + (Render(items[0]) + Join(items[1..], gaps[1..]))
  }

  /** Only separators, and at least one between two entries. */
  predicate Spaced(gaps: seq<string>) {
    && (forall i :: 0 <= i < |gaps| ==> Separators(gaps[i]))
    && forall i :: 0 < i < |gaps| - 1 ==> gaps[i] != ""
  }

  lemma SpacedRest(items: seq<Item>, gaps: seq<string>)
    requires |gaps| == |items| + 1 && items != [] && Spaced(gaps)
    ensures Separators(gaps[0]) && Separators(gaps[1]) && (|items| > 1 ==> gaps[1] != "")
    ensures forall i :: 0 <= i < |gaps[1..]| ==> Separators(gaps[1..][i])
    ensures forall i :: 0 < i < |gaps[1..]| - 1 ==> gaps[1..][i] != ""
  {
    hide Separators;
  }

  lemma KnownParts(s: string, t: string)
    ensures AllKnown(s + t) <==> AllKnown(s) && AllKnown(t)
  {
    if AllKnown(s + t) {
      forall i | 0 <= i < |s|
        ensures Known(s[i])
      {
        assert (s + t)[i] == s[i];
      }
      forall i | 0 <= i < |t|
        ensures Known(t[i])
      {
        assert (s + t)[|s| + i] == t[i];
      }
    }
  }

  lemma ItemKnown(item: Item)
    ensures AllKnown(Render(item))
  {
    match item {
      case One(c) => DigitsKnown(c);
      case Range(lo, hi) => DigitsKnown(lo); DigitsKnown(hi);
    }
  }

  lemma {:induction false} JoinKnown(items: seq<Item>, gaps: seq<string>)
    requires |gaps| == |items| + 1 && Spaced(gaps)
    ensures AllKnown(Join(items, gaps))
  {
    hide AllKnown, Render;
    GapKnown(gaps[0]);
    if items != [] {
      SpacedRest(items, gaps);
      JoinKnown(items[1..], gaps[1..]);
      ItemKnown(items[0]);
      KnownParts(Render(items[0]), Join(items[1..], gaps[1..]));
      KnownParts(gaps[0], Render(items[0]) + Join(items[1..], gaps[1..]));
    }
  }

  lemma GapKnown(gap: string)
    requires Separators(gap)
    ensures AllKnown(gap)
  {
    assert forall i :: 0 <= i < |gap| ==> Separator(gap[i]);
  }

  lemma JoinBegins(items: seq<Item>, gaps: seq<string>)
    requires |gaps| == |items| + 1 && Separators(gaps[0]) && (items != [] ==> gaps[0] != "")
    ensures Join(items, gaps) == [] || Separator(Join(items, gaps)[0])
  {
  }

  ghost predicate AllOk(items: seq<Item>, limit: nat) {
    forall i :: 0 <= i < |items| ==> ItemOk(items[i], limit)
  }

  lemma AllOkStep(items: seq<Item>, limit: nat)
    requires items != []
    ensures AllOk(items, limit) <==> ItemOk(items[0], limit) && AllOk(items[1..], limit)
  {
    hide ItemOk;
    if ItemOk(items[0], limit) && AllOk(items[1..], limit) {
      forall i | 0 <= i < |items|
        ensures ItemOk(items[i], limit)
      {
        assert i > 0 ==> items[i] == items[1..][i - 1];
      }
    }
    if AllOk(items, limit) {
      forall i | 0 <= i < |items[1..]|
        ensures ItemOk(items[1..][i], limit)
      {
        assert items[1..][i] == items[i + 1];
      }
    }
  }

  /** Reading a list of entries with any blanks and commas between them gives the
      CPUs they denote, in order, as many as the caller has room for, exactly when
      every entry lies below the limit and no range is upside down. */
  lemma {:induction false} ParsedJoin(items: seq<Item>, gaps: seq<string>, cpus: seq<nat>, max: nat, limit: nat)
    requires |gaps| == |items| + 1 && Spaced(gaps) && |cpus| <= max && AllKnown(Join(items, gaps))
    ensures Parsed(Join(items, gaps), cpus, max, limit) ==
            if AllOk(items, limit) then Some(Cap(cpus + ExpandAll(items), max)) else None
    decreases |items|
  {
    hide Digits, Scan, Render, Expand, Parsed, AllKnown, Cap, AllOk, ItemOk, Spaced, Separators;
    CapBound(cpus, max);
    var gap := gaps[0];
    if items == [] {
      FirstGap(gaps);
      ParsedEmpty(cpus, max, limit);
      assert gap + "" == gap && cpus + ExpandAll(items) == cpus;
      ParsedGap(gap, "", cpus, max, limit);
      NoneBad(limit);
    } else {
      var first, more, rest := items[0], items[1..], Join(items[1..], gaps[1..]);
      var cpus' := Cap(cpus + Expand(first), max);
      SpacedRest(items, gaps);
      SpacedAre(gaps[1..]);
      JoinKnown(more, gaps[1..]);
      ItemKnown(first);
      KnownParts(Render(first), rest);
      JoinBegins(more, gaps[1..]);
      ParsedGap(gap, Render(first) + rest, cpus, max, limit);
      ParsedItem(first, rest, cpus, max, limit);
      AllOkStep(items, limit);
      CapBound(cpus + Expand(first), max);
      ParsedJoin(more, gaps[1..], cpus', max, limit);
      CapTwice(cpus + Expand(first), ExpandAll(more), max);
      assert cpus + Expand(first) + ExpandAll(more) == cpus + ExpandAll(items);
    }
  }

  lemma FirstGap(gaps: seq<string>)
    requires |gaps| > 0 && Spaced(gaps)
    ensures Separators(gaps[0])
  {
  }

  lemma SpacedAre(gaps: seq<string>)
    requires forall i :: 0 <= i < |gaps| ==> Separators(gaps[i])
    requires forall i :: 0 < i < |gaps| - 1 ==> gaps[i] != ""
    ensures Spaced(gaps)
  {
    hide Separators;
  }

  lemma NoneBad(limit: nat)
    ensures AllOk([], limit)
  {
  }

  /** The gaps of a list written with commas only. */
  function Commas(n: nat): (gaps: seq<string>)
    ensures |gaps| == n + 1
  {
    seq(n + 1, i => if 0 < i < n then "," else "")
  }

  lemma {:induction false} RenderIsJoin(items: seq<Item>)
    ensures Spaced(Commas(|items|)) && RenderAll(items) == Join(items, Commas(|items|))
  {
    if |items| == 1 {
      assert Join(items[1..], Commas(1)[1..]) == "";
    } else if |items| > 1 {
      var more, gaps := items[1..], Commas(|items|)[1..];
      RenderIsJoin(more);
      assert gaps[1..] == Commas(|more|)[1..];
      assert Join(more, gaps) == "," + Join(more, Commas(|more|));
    }
  }

  /** Reading a whole list back. */
  lemma ParsedList(items: seq<Item>, cpus: seq<nat>, max: nat, limit: nat)
    requires |cpus| <= max && AllKnown(RenderAll(items))
    ensures Parsed(RenderAll(items), cpus, max, limit) ==
            if AllOk(items, limit) then Some(Cap(cpus + ExpandAll(items), max)) else None
  {
    hide Digits, Parsed, Render, Expand, AllKnown, Cap, AllOk, Spaced, Commas;
    RenderIsJoin(items);
    ParsedJoin(items, Commas(|items|), cpus, max, limit);
  }

  /** The list of single CPUs that cpu_bind_format_cpus writes. */
  function Singles(cpus: seq<nat>): (items: seq<Item>)
    ensures |items| == |cpus| && forall i :: 0 <= i < |cpus| ==> items[i] == One(cpus[i])
  {
    seq(|cpus|, i requires 0 <= i < |cpus| => One(cpus[i]))
  }

  lemma {:induction false} ExpandSingles(cpus: seq<nat>)
    ensures ExpandAll(Singles(cpus)) == cpus
  {
    if cpus != [] {
      ExpandSingles(cpus[1..]);
      assert Singles(cpus)[1..] == Singles(cpus[1..]);
    }
  }

  /** Adding one more CPU at the end of a written list. */
  lemma {:induction false} RenderSnoc(items: seq<Item>, item: Item)
    ensures RenderAll(items + [item]) == if items == [] then Render(item) else RenderAll(items) + "," + Render(item)
  {
    if items != [] {
      RenderSnoc(items[1..], item);
      assert (items + [item])[1..] == items[1..] + [item];
      if |items| == 1 {
        assert RenderAll(items[1..] + [item]) == Render(item);
      } else {
        assert RenderAll(items) == Render(items[0]) + "," + RenderAll(items[1..]);
      }
    }
  }

  // ---------- the two C functions ----------

  method SkipBlanks(str: string, from: nat) returns (p: nat)
    requires from <= |str|
    ensures from <= p <= |str| && str[p..] == SkipSeparators(str[from..])
  {
    p := from;
    while p < |str| && (str[p] == ' ' || str[p] == ',')
      invariant from <= p <= |str| && SkipSeparators(str[p..]) == SkipSeparators(str[from..])
    {
      assert str[p..][1..] == str[p + 1..];
      p := p + 1;
    }
  }

  method ReadNumber(str: string, from: nat) returns (v: nat, p: nat)
    requires from <= |str|
    ensures from <= p <= |str| && (v, str[p..]) == Scan(str[from..], 0)
    ensures from < |str| && IsDigit(str[from]) ==> p > from
  {
    v, p := 0, from;
    while p < |str| && IsDigit(str[p])
      invariant from <= p <= |str| && Scan(str[p..], v) == Scan(str[from..], 0)
      invariant p == from && from < |str| ==> str[p] == str[from]
    {
      assert str[p..][1..] == str[p + 1..];
      v := v * 10 + DigitValue(str[p]);
      p := p + 1;
    }
  }

  /** for (i = lo; i <= hi && count < max; i++) cpus[count++] = i */
  method PushRange(cpus: seq<nat>, lo: nat, hi: int, max: nat) returns (r: seq<nat>)
    requires |cpus| <= max
    ensures r == Cap(cpus + Interval(lo, hi), max)
  {
    r := cpus;
    var i := lo;
    while i <= hi && |r| < max
      invariant lo <= i && |cpus| <= |r| <= max
      invariant Cap(r + Interval(i, hi), max) == Cap(cpus + Interval(lo, hi), max)
      decreases hi - i
    {
      assert r + Interval(i, hi) == r + [i] + Interval(i + 1, hi);
      r := r + [i];
      i := i + 1;
    }
  }

  lemma KnownSuffix(str: string, p: nat)
    requires AllKnown(str) && p <= |str|
    ensures AllKnown(str[p..]) && (p < |str| ==> Known(str[p]))
  {
  }

  /** One round of the reader, on the text that is left. */
  lemma ParsedSingle(text: string, s: string, start: nat, s1: string, cpus: seq<nat>, max: nat, limit: nat)
    requires AllKnown(text) && AllKnown(s1) && s == SkipSeparators(text) != [] && (start, s1) == Scan(s, 0)
    requires start < limit && (s1 == [] || s1[0] != '-')
    ensures Parsed(text, cpus, max, limit) == Parsed(s1, Cap(cpus + [start], max), max, limit)
  {
    hide Scan, SkipSeparators, Cap;
  }

  lemma ParsedInterval(text: string, s: string, start: nat, s1: string, end: nat, s2: string, cpus: seq<nat>, max: nat, limit: nat)
    requires AllKnown(text) && AllKnown(s2) && s == SkipSeparators(text) != [] && (start, s1) == Scan(s, 0)
    requires start < limit && s1 != [] && s1[0] == '-' && (end, s2) == Scan(s1[1..], 0)
    ensures Parsed(text, cpus, max, limit) ==
            if end >= limit || end < start then None
            else Parsed(s2, Cap(cpus + Interval(start, end), max), max, limit)
  {
    hide Scan, SkipSeparators, Cap, Interval;
  }

  lemma ParsedStops(text: string, cpus: seq<nat>, max: nat, limit: nat)
    requires AllKnown(text)
    ensures SkipSeparators(text) == [] ==> Parsed(text, cpus, max, limit) == Some(cpus)
    ensures SkipSeparators(text) != [] && Scan(SkipSeparators(text), 0).0 >= limit ==>
              Parsed(text, cpus, max, limit) == None
  {
    hide Scan, SkipSeparators, Cap, Interval;
  }

  /** One entry of the list, from its first character on. */
  method ReadEntry(str: string, p: nat, cpus: seq<nat>, max: nat, limit: nat, ghost text: string)
    returns (ok: bool, q: nat, cpus': seq<nat>)
    requires p < |str| && AllKnown(str) && AllKnown(text) && |cpus| <= max
    requires str[p..] == SkipSeparators(text)
    ensures ok ==> p < q <= |str| && |cpus'| <= max
    ensures ok ==> AllKnown(str[q..]) && Parsed(text, cpus, max, limit) == Parsed(str[q..], cpus', max, limit)
    ensures !ok ==> Parsed(text, cpus, max, limit) == None
  {
    hide Scan, SkipSeparators, Interval, Parsed, AllKnown;
    ParsedStops(text, cpus, max, limit);
    var start;
    start, q := ReadNumber(str, p);
    cpus', ok := cpus, start < limit;
    if ok {
      KnownSuffix(str, q);
      if q < |str| && str[q] == '-' {
        ghost var s1 := str[q..];
        assert s1[1..] == str[q + 1..];
        var end;
        end, q := ReadNumber(str, q + 1);
        KnownSuffix(str, q);
        ParsedInterval(text, str[p..], start, s1, end, str[q..], cpus, max, limit);
        ok := end < limit && end >= start;
        if ok {
          cpus' := PushRange(cpus, start, end, max);
        }
      } else {
        ParsedSingle(text, str[p..], start, str[q..], cpus, max, limit);
        Progress(str, p, q);
        if |cpus| < max {
          cpus' := cpus + [start];
        }
      }
    }
  }

  /** Past the separators only a digit or a dash can stand. */
  lemma Progress(str: string, p: nat, q: nat)
    requires p < |str| && AllKnown(str) && p <= q <= |str|
    requires str[p] != ' ' && str[p] != ',' && (IsDigit(str[p]) ==> q > p) && (q < |str| ==> str[q] != '-')
    ensures q > p
  {
    assert Known(str[p]);
  }

  /** cpu_bind_parse_cpuset, on the characters it makes progress on. */
  method ParseCpuset(str: string, max: nat, limit: nat) returns (r: Option<seq<nat>>)
    requires AllKnown(str)
    ensures r == if str == "" then None else Parsed(str, [], max, limit)
  {
    if str == "" {
      return None;
    }
    hide SkipSeparators, Parsed, AllKnown;
    var cpus: seq<nat>, p := [], 0;
    assert str[0..] == str;
    while p < |str|
      invariant 0 <= p <= |str| && |cpus| <= max && AllKnown(str[p..])
      invariant Parsed(str[p..], cpus, max, limit) == Parsed(str, [], max, limit)
      decreases |str| - p
    {
      ghost var text := str[p..];
      ParsedStops(text, cpus, max, limit);
      p := SkipBlanks(str, p);
      if p == |str| {
        return Some(cpus);
      }
      var ok;
      ok, p, cpus := ReadEntry(str, p, cpus, max, limit, text);
      if !ok {
        return None;
      }
    }
    assert str[p..] == "";
    ParsedEmpty(cpus, max, limit);
    return Some(cpus);
  }

  /** cpu_bind_format_cpus: the buffer of 12 bytes a CPU plus one is never full. */
  method FormatCpus(cpus: seq<nat>) returns (text: string)
    requires forall i :: 0 <= i < |cpus| ==> cpus[i] < 0x8000_0000
    ensures text == RenderAll(Singles(cpus))
  {
    hide Digits;
    text := "";
    var size := |cpus| * 12 + 1;
    var i := 0;
    assert Singles(cpus[..0]) == [] && RenderAll([]) == "";
    while i < |cpus| && |text| < size - 1
      invariant 0 <= i <= |cpus|
      invariant text == RenderAll(Singles(cpus[..i])) && |text| <= 11 * i
    {
      IntLength(cpus[i]);
      RenderSnoc(Singles(cpus[..i]), One(cpus[i]));
      assert Singles(cpus[..i + 1]) == Singles(cpus[..i]) + [One(cpus[i])];
      var piece := (if i > 0 then "," else "") + Digits(cpus[i]);
      if |text| + |piece| >= size - 1 {
        break;
      }
      text := text + piece;
      i := i + 1;
    }
    assert cpus[..|cpus|] == cpus;
  }

  lemma IntLength(n: nat)
    requires n < 0x8000_0000
    ensures |Digits(n)| <= 10
  {
    assert Power10(5) == 100000;
    assert Power10(10) == 100000 * Power10(5);
    DigitsShort(n, 10);
  }
}
