/** Cutting text and tables down to a token budget. */
module Trimming {
  import opened Options
  import opened Text
  import opened TableRows

  type Tokenizer = string -> nat

  /** All that is assumed of a tokenizer: nothing counts nothing, and joining texts adds no tokens. */
  ghost predicate IsTokenizer(count: Tokenizer) {
    count("") == 0 && forall a, b :: count(a + b) <= count(a) + count(b)
  }

  // ---- Characters: _char_trim_leading, _char_trim_trailing ----

  /** Longer suffixes of the text count at least as much. */
  ghost predicate SuffixMonotone(count: Tokenizer, text: string) {
    forall i, j :: 0 <= i <= j <= |text| ==> count(text[j..]) <= count(text[i..])
  }

  ghost predicate PrefixMonotone(count: Tokenizer, text: string) {
    forall i, j :: 0 <= i <= j <= |text| ==> count(text[..i]) <= count(text[..j])
  }

  /** A suffix within the budget, found by bisection: sound for every tokenizer, and the longest one when the counts
      are monotone. */
  method CharTrimLeading(text: string, max: nat, count: Tokenizer) returns (r: string)
    requires IsTokenizer(count)
    ensures IsSuffix(r, text) && count(r) <= max
    ensures count(text) <= max ==> r == text
    ensures SuffixMonotone(count, text) ==> forall k :: 0 <= k < |text| - |r| ==> count(text[k..]) > max
  {
    if count(text) <= max { return text; }
    var lo, hi := 0, |text|;
    assert text[hi..] == "";
    while lo < hi
      invariant 0 <= lo <= hi <= |text| && count(text[hi..]) <= max
      invariant SuffixMonotone(count, text) ==> forall k :: 0 <= k < lo ==> count(text[k..]) > max
    {
      var mid := (lo + hi) / 2;
      if count(text[mid..]) <= max { hi := mid; } else { lo := mid + 1; }
    }
    return text[lo..];
  }

  method CharTrimTrailing(text: string, max: nat, count: Tokenizer) returns (r: string)
    requires IsTokenizer(count)
    ensures IsPrefix(r, text) && count(r) <= max
    ensures count(text) <= max ==> r == text
    ensures PrefixMonotone(count, text) ==> forall k :: |r| < k <= |text| ==> count(text[..k]) > max
  {
    if count(text) <= max { assert text[..|text|] == text; return text; }
    var lo, hi := 0, |text|;
    assert text[..lo] == "";
    while lo < hi
      invariant 0 <= lo <= hi <= |text| && count(text[..lo]) <= max
      invariant PrefixMonotone(count, text) ==> forall k :: hi < k <= |text| ==> count(text[..k]) > max
    {
      var mid := (lo + hi + 1) / 2;
      if count(text[..mid]) <= max { lo := mid; } else { hi := mid - 1; }
    }
    return text[..lo];
  }

  // ---- Tables: _row_trim_table_leading, _row_trim_table_trailing ----

  /** What is read off a table tag: a JSON table with its serialized rows, an HTML table, or neither. */
  datatype TableView =
    | NoTable
    | JsonTable(attrs: string, body: string, items: seq<string>)
    | HtmlTable(attrs: string, rows: seq<Row>)

  /** The string functions of the standard library that the fallbacks use: JSON quoting, HTML escaping, and the text of
      an HTML row without its tags. */
  datatype Codec = Codec(quote: string -> string, escape: string -> string, plain: string -> string)

  function Table(attrs: string, body: string): string {
    "<table " + attrs + ">" + body + "</table>"
  }

  /** The last k rows for the text before the target, the first k for the text after it. */
  function Slice<T>(rows: seq<T>, k: nat, tail: bool): seq<T>
    requires k <= |rows|
  {
    if tail then rows[|rows| - k..] else rows[..k]
  }

  function RowCount(v: TableView): nat {
    match v
    case NoTable => 0
    case JsonTable(_, _, items) => |items|
    case HtmlTable(_, rows) => |rows|
  }

  /** The table cut down to k whole rows. */
  function RowsCandidate(v: TableView, k: nat, tail: bool): string
    requires !v.NoTable? && k <= RowCount(v)
  {
    match v
    case JsonTable(attrs, _, items) => Table(attrs, "[" + Join(Slice(items, k, tail), ", ") + "]")
    case HtmlTable(attrs, rows) => Table(attrs, Markup(Slice(rows, k, tail), ""))
  }

  /** The text of the row closest to the target. */
  function ClosestRow(v: TableView, tail: bool, codec: Codec): string
    requires !v.NoTable? && (v.HtmlTable? ==> v.rows != [])
  {
    match v
    case JsonTable(_, body, items) => if items == [] then body else if tail then items[|items| - 1] else items[0]
    case HtmlTable(_, rows) => codec.plain(if tail then rows[|rows| - 1].1 else rows[0].1)
  }

  /** A table that holds only some characters of that row, in one cell; with no characters it is empty. */
  function CellCandidate(v: TableView, text: string, chars: nat, tail: bool, codec: Codec): string
    requires !v.NoTable? && chars <= |text|
  {
    if chars == 0 then Table(v.attrs, "")
    else if v.JsonTable? then Table(v.attrs, "[[" + codec.quote(Slice(text, chars, tail)) + "]]")
    else Table(v.attrs, "<tr><td>" + codec.escape(Slice(text, chars, tail)) + "</td></tr>")
  }

  /** The trimmed forms of a table. */
  ghost predicate IsTrimmed(v: TableView, s: string, tail: bool, codec: Codec) {
    && !v.NoTable? && (v.HtmlTable? ==> v.rows != [])
    && ((exists k :: 0 < k < RowCount(v) && s == RowsCandidate(v, k, tail))
        || (exists c :: 0 <= c <= |ClosestRow(v, tail, codec)|
             && s == CellCandidate(v, ClosestRow(v, tail, codec), c, tail, codec)))
  }

  ghost predicate CellMonotone(v: TableView, text: string, tail: bool, codec: Codec, count: Tokenizer)
    requires !v.NoTable?
  {
    forall i, j :: 0 <= i <= j <= |text| ==>
      count(CellCandidate(v, text, i, tail, codec)) <= count(CellCandidate(v, text, j, tail, codec))
  }

  /** One more character would not fit, nor would any more than that. */
  ghost predicate Longest(v: TableView, text: string, c: nat, max: nat, tail: bool, codec: Codec, count: Tokenizer)
    requires !v.NoTable?
  {
    forall k :: c < k <= |text| ==> count(CellCandidate(v, text, k, tail, codec)) > max
  }

  /** No whole row fits: keep as many characters of the closest row as bisection finds room for. There is no result
      exactly when even the empty table is too much. */
  method CharFallback(v: TableView, text: string, max: nat, tail: bool, codec: Codec, count: Tokenizer)
    returns (r: Option<string>)
    requires !v.NoTable?
    ensures r.None? <==> count(Table(v.attrs, "")) > max
    ensures r.Some? ==> count(r.value) <= max
    ensures r.Some? ==> exists c :: 0 <= c <= |text| && r.value == CellCandidate(v, text, c, tail, codec)
    ensures r.Some? && CellMonotone(v, text, tail, codec, count) ==>
      exists c :: 0 <= c <= |text| && r.value == CellCandidate(v, text, c, tail, codec)
        && Longest(v, text, c, max, tail, codec, count)
  {
    if count(Table(v.attrs, "")) > max { return None; }
    if count(CellCandidate(v, text, |text|, tail, codec)) <= max {
      return Some(CellCandidate(v, text, |text|, tail, codec));
    }
    var lo, hi := 0, |text|;
    while lo < hi
      invariant 0 <= lo <= hi <= |text| && count(CellCandidate(v, text, lo, tail, codec)) <= max
      invariant CellMonotone(v, text, tail, codec, count) ==> Longest(v, text, hi, max, tail, codec, count)
    {
      var mid := (lo + hi + 1) / 2;
      if count(CellCandidate(v, text, mid, tail, codec)) <= max { lo := mid; } else { hi := mid - 1; }
    }
    return Some(CellCandidate(v, text, lo, tail, codec));
  }

  /** As many whole rows next to the target as fit, at least one; failing that, part of one row. */
  method RowTrimTable(v: TableView, max: nat, tail: bool, codec: Codec, count: Tokenizer) returns (r: Option<string>)
    ensures r.Some? ==> count(r.value) <= max && IsTrimmed(v, r.value, tail, codec)
    ensures forall k :: 0 < k < RowCount(v) && count(RowsCandidate(v, k, tail)) <= max ==>
      r.Some? && exists j :: k <= j < RowCount(v) && r.value == RowsCandidate(v, j, tail)
    ensures r.None? && !v.NoTable? && RowCount(v) > 0 ==> count(Table(v.attrs, "")) > max
  {
    if v.NoTable? || (v.HtmlTable? && v.rows == []) { return None; }
    var k := RowCount(v) - 1;
    while k > 0
      invariant k <= RowCount(v) - 1
      invariant forall j :: 0 < j < RowCount(v) && k < j ==> count(RowsCandidate(v, j, tail)) > max
    {
      if count(RowsCandidate(v, k, tail)) <= max { return Some(RowsCandidate(v, k, tail)); }
      k := k - 1;
    }
    r := CharFallback(v, ClosestRow(v, tail, codec), max, tail, codec, count);
  }

  /** A trimmed HTML table has the rows closest to the target, and still says which section each of them is in. */
  lemma TrimKeepsSections(v: TableView, k: nat, tail: bool) returns (near: seq<Row>, far: seq<Row>)
    requires v.HtmlTable? && WellFormed(v.rows) && k <= |v.rows|
    ensures |near| == k && v.rows == if tail then far + near else near + far
    ensures RowsCandidate(v, k, tail) == Table(v.attrs, Markup(near, "")) && Scan(Markup(near, ""), "") == near
  {
    near := Slice(v.rows, k, tail);
    far := Slice(v.rows, |v.rows| - k, !tail);
    RowsRoundTrip(v.rows);
  }

  /** So does a trimmed JSON table. */
  lemma TrimKeepsClosest(v: TableView, k: nat, tail: bool) returns (near: seq<string>, far: seq<string>)
    requires v.JsonTable? && k <= |v.items|
    ensures |near| == k && v.items == if tail then far + near else near + far
    ensures RowsCandidate(v, k, tail) == Table(v.attrs, "[" + Join(near, ", ") + "]")
  {
    near := Slice(v.items, k, tail);
    far := Slice(v.items, |v.items| - k, !tail);
  }

  /** Where no row fits, the one cell holds the end of the closest row that is next to the target. */
  lemma CellKeepsClosest(v: TableView, chars: nat, tail: bool, codec: Codec) returns (near: string, far: string)
    requires !v.NoTable? && (v.HtmlTable? ==> v.rows != []) && 0 < chars <= |ClosestRow(v, tail, codec)|
    ensures |near| == chars
    ensures v.JsonTable? ==>
      && (if v.items == [] then v.body else v.items[if tail then |v.items| - 1 else 0])
         == (if tail then far + near else near + far)
      && CellCandidate(v, ClosestRow(v, tail, codec), chars, tail, codec)
         == Table(v.attrs, "[[" + codec.quote(near) + "]]")
    ensures v.HtmlTable? ==>
      && codec.plain(v.rows[if tail then |v.rows| - 1 else 0].1) == (if tail then far + near else near + far)
      && CellCandidate(v, ClosestRow(v, tail, codec), chars, tail, codec)
         == Table(v.attrs, "<tr><td>" + codec.escape(near) + "</td></tr>")
  {
    var row := ClosestRow(v, tail, codec);
    near := Slice(row, chars, tail);
    far := Slice(row, |row| - chars, !tail);
  }

  // ---- trim_content_to_budget ----

  /** Decimal notation. */
  function Decimal(n: nat): (r: string)
    ensures r != ""
  {
    if n < 10 then [n as char + '0'] else Decimal(n / 10) + [(n % 10) as char + '0']
  }

  predicate IsNumeral(s: string) {
    forall i :: 0 <= i < |s| ==> '0' <= s[i] <= '9'
  }

  /** The number that the digits stand for. */
  function Value(s: string): nat
    requires IsNumeral(s)
  {
    if s == "" then 0
    else 10 * Value(s[..|s| - 1]) + (s[|s| - 1] - '0') as nat
  }

  lemma {:induction false} DecimalReadsBack(n: nat)
    ensures IsNumeral(Decimal(n)) && Value(Decimal(n)) == n && (n > 0 ==> Decimal(n)[0] != '0')
  {
    var last := (n % 10) as char + '0';
    if n >= 10 {
      DecimalReadsBack(n / 10);
      assert (Decimal(n / 10) + [last])[..|Decimal(n)| - 1] == Decimal(n / 10);
    } else {
      assert Decimal(n) == [last] && [last][..0] == "";
    }
  }

  lemma {:induction false} DecimalLength(a: nat, b: nat)
    requires a <= b
    ensures |Decimal(a)| <= |Decimal(b)|
  {
    if b >= 10 && a >= 10 { DecimalLength(a / 10, b / 10); }
  }

  const MARKER_HEAD := "\n<!-- content truncated from "
  const MARKER_TAIL := " tokens, head preserved -->"

  function Marker(original: nat, final: nat): string {
    MARKER_HEAD + Decimal(original) + " to " + Decimal(final) + MARKER_TAIL
  }

  /** What the marker says can be read off: first the count before, up to the word that follows, then the count kept. */
  lemma MarkerReadsBack(original: nat, final: nat) returns (i: nat, j: nat)
    ensures
      var m := Marker(original, final);
      && IsPrefix(MARKER_HEAD, m) && FirstFrom(m, " to ", |MARKER_HEAD|, i) && FirstFrom(m, MARKER_TAIL, i + 4, j)
      && j <= |m| && IsNumeral(m[|MARKER_HEAD|..i]) && Value(m[|MARKER_HEAD|..i]) == original
      && IsNumeral(m[i + 4..j]) && Value(m[i + 4..j]) == final
  {
    DecimalReadsBack(original);
    DecimalReadsBack(final);
    var o, f := Decimal(original), Decimal(final);
    hide Decimal, Value, FirstFrom, IsNumeral;
    i, j := |MARKER_HEAD| + |o|, |MARKER_HEAD| + |o| + 4 + |f|;
    NumeralEnds(MARKER_HEAD, o, " to " + f + MARKER_TAIL, " to ");
    NumeralEnds(MARKER_HEAD + o + " to ", f, MARKER_TAIL, MARKER_TAIL);
    Regroup(MARKER_HEAD, o, " to ", f, MARKER_TAIL);
  }

  lemma Regroup(a: string, b: string, c: string, d: string, e: string)
    ensures a + b + (c + d + e) == a + b + c + d + e
  {
  }

  /** Digits go up to the first pattern that begins with a space. */
  lemma NumeralEnds(head: string, digits: string, rest: string, pat: string)
    requires IsNumeral(digits) && pat != "" && pat[0] == ' ' && IsPrefix(pat, rest)
    ensures
      var s, end := head + digits + rest, |head| + |digits|;
      FirstFrom(s, pat, |head|, end) && s[|head|..end] == digits && IsPrefix(head, s)
  {
    var s, end := head + digits + rest, |head| + |digits|;
    assert s[end..end + |pat|] == pat;
    forall k: nat | |head| <= k < end ensures !At(s, pat, k) {
      assert s[k] == digits[k - |head|];
    }
  }

  /** Whatever is kept within the room that the announced marker leaves, it fits together with its own marker. There are
      only so many numbers to ask. */
  predicate MarkerFits(count: Tokenizer, original: nat, max: nat) {
    forall f: nat | f <= Room(max, count(Marker(original, max))) :: f + count(Marker(original, f)) <= max
  }

  /** A marker with a number of no more digits counts no more. */
  ghost predicate MarkerMonotone(count: Tokenizer) {
    forall o, f, m :: |Decimal(f)| <= |Decimal(m)| ==> count(Marker(o, f)) <= count(Marker(o, m))
  }

  /** That is enough for the marker to fit, if the announced one does. */
  lemma MonotoneMarkerFits(count: Tokenizer, original: nat, max: nat)
    requires MarkerMonotone(count) && count(Marker(original, max)) <= max
    ensures MarkerFits(count, original, max)
  {
    hide Marker;
    forall f: nat | f <= Room(max, count(Marker(original, max))) ensures f + count(Marker(original, f)) <= max {
      DecimalLength(f, max);
    }
  }

  /** The marker counts by itself. */
  ghost predicate SeamAdditive(count: Tokenizer) {
    forall a, o, f :: count(a + Marker(o, f)) == count(a) + count(Marker(o, f))
  }

  /** One more character is at most one more token, and never fewer. */
  ghost predicate StepsByOne(count: Tokenizer, text: string) {
    PrefixMonotone(count, text) && forall i :: 0 <= i < |text| ==> count(text[..i + 1]) <= count(text[..i]) + 1
  }

  /** The part of the content that is kept: rows of a table, or else its first characters. */
  ghost predicate KeptPart(inner: string, content: string, v: TableView, codec: Codec) {
    IsPrefix(inner, content) || IsTrimmed(v, inner, false, codec)
  }

  /** The kept part, within what the marker leaves of the budget, and the marker with its actual size. */
  ghost predicate IsCut(r: string, content: string, v: TableView, max: nat, codec: Codec, count: Tokenizer) {
    exists inner {:trigger KeptPart(inner, content, v, codec)} ::
      && KeptPart(inner, content, v, codec) && r == inner + Marker(count(content), count(inner))
      && count(inner) <= Room(max, count(Marker(count(content), max)))
  }

  /** Cut the content to the budget, marker included. `v` is how the content reads as a table, if the caller asks for
      tables at all. */
  method TrimContentToBudget(content: string, v: TableView, max: int, codec: Codec, count: Tokenizer)
    returns (r: string, trimmed: bool)
    requires IsTokenizer(count)
    ensures trimmed <==> max > 0 && count(content) > max
    ensures !trimmed ==> r == content
    ensures trimmed ==> IsCut(r, content, v, max, codec, count)
    ensures trimmed && MarkerFits(count, count(content), max) ==> count(r) <= max
    ensures trimmed && v.NoTable? && SeamAdditive(count) && StepsByOne(count, content) ==>
      var room := Room(max, count(Marker(count(content), max)));
      count(r) <= max <==> room + count(Marker(count(content), room)) <= max
  {
    if max <= 0 || count(content) <= max { return content, false; }
    var original := count(content);
    var budget := Room(max, count(Marker(original, max)));
    var table := RowTrimTable(v, budget, false, codec, count);
    var inner;
    if table.Some? { inner := table.value; } else { inner := CharTrimTrailing(content, budget, count); }
    assert KeptPart(inner, content, v, codec);
    assert v.NoTable? && StepsByOne(count, content) ==> count(inner) == budget by {
      if v.NoTable? && StepsByOne(count, content) { LongestFillsBudget(count, content, inner, budget); }
    }
    r, trimmed := inner + Marker(original, count(inner)), true;
  }

  /** In single steps the longest prefix that fits uses the budget up. */
  lemma LongestFillsBudget(count: Tokenizer, text: string, r: string, max: nat)
    requires StepsByOne(count, text) && IsPrefix(r, text) && count(r) <= max < count(text)
    requires forall k :: |r| < k <= |text| ==> count(text[..k]) > max
    ensures count(r) == max
  {
    assert text[..|text|] == text;
    assert r == text[..|r|] && count(text[..|r| + 1]) > max;
  }

  /** What the marker leaves of the budget, if anything. */
  function Room(max: nat, marker: nat): (room: nat)
    ensures if marker <= max then marker + room == max else room == 0
  {
    if marker <= max then max - marker else 0
  }

  /** Trimming twice is trimming once. */
  method TrimTwice(content: string, v: TableView, max: int, codec: Codec, count: Tokenizer)
    returns (once: string, twice: string)
    requires IsTokenizer(count) && max > 0 && (count(content) > max ==> MarkerFits(count, count(content), max))
    ensures twice == once && count(once) <= max
  {
    var trimmed, again;
    once, trimmed := TrimContentToBudget(content, v, max, codec, count);
    twice, again := TrimContentToBudget(once, NoTable, max, codec, count);
  }

  // ---- Where the marker overflows the budget ----

  /** A tokenizer that charges for the digit 0 only. */
  function CountZeros(s: string): nat {
    if '0' in s then 5 else 0
  }

  /** The marker announced with the budget fits, the one written with the final count does not. */
  lemma MarkerCanOverflow(inner: string, r: string)
    requires IsPrefix(inner, "a0") && CountZeros(inner) <= Room(4, CountZeros(Marker(5, 4)))
    requires r == inner + Marker(CountZeros("a0"), CountZeros(inner))
    ensures IsTokenizer(CountZeros) && CountZeros("a0") == 5 && CountZeros(Marker(5, 4)) <= 4 && CountZeros(r) > 4
    ensures !MarkerFits(CountZeros, 5, 4)
  {
    ZerosAreTokens();
    MarkersOfFive();
    hide Marker, IsTokenizer;
    assert CountZeros(inner) == 0;
    assert '0' in r;
    assert 0 + CountZeros(Marker(5, 0)) > 4;
  }

  lemma ZerosAreTokens()
    ensures IsTokenizer(CountZeros)
  {
  }

  lemma MarkersOfFive()
    ensures '0' !in Marker(5, 4) && '0' in Marker(5, 0)
  {
    assert Decimal(5) == "5" && Decimal(4) == "4" && Decimal(0) == "0";
    hide Decimal, Marker;
    MarkerDigits(5, 4);
    MarkerDigits(5, 0);
  }

  lemma MarkerDigits(o: nat, f: nat)
    ensures '0' in Marker(o, f) <==> '0' in Decimal(o) || '0' in Decimal(f)
  {
    hide Decimal;
  }
}
